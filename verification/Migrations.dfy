/** What happens to parameter overrides when a project moves to another version of its template
    (server/template_migrations.py). */
module Migrations {
  import opened Wrappers
  import opened Overrides

  /** The parameters of each node of the new template; a node whose class is not registered is missing. */
  type Schema = map<string, set<string>>

  /** An override that did not survive. */
  datatype Drop = NodeGone(nid: string) | ParamGone(nid: string, param: string)

  function KeptValues(params: Values, fields: set<string>): Values {
    map k | k in params && k in fields :: params[k]
  }

  /** What is left of one node's overrides. */
  function MigratedNode(o: NodeOverrides, schema: Schema, nid: string): Option<Values> {
    if nid in o && nid in schema && KeptValues(o[nid], schema[nid]) != map[] then Some(KeptValues(o[nid], schema[nid]))
    else None
  }

  function Migrated(o: NodeOverrides, schema: Schema): NodeOverrides {
    map nid | nid in o && MigratedNode(o, schema, nid).Some? :: MigratedNode(o, schema, nid).value
  }

  function DropsOf(params: Values, schema: Schema, nid: string): set<Drop> {
    if nid !in schema then {NodeGone(nid)} else set k | k in params && k !in schema[nid] :: ParamGone(nid, k)
  }

  predicate Dropped(o: NodeOverrides, schema: Schema, d: Drop) {
    d.nid in o && d in DropsOf(o[d.nid], schema, d.nid)
  }

  lemma DropsNameTheNode(params: Values, schema: Schema, nid: string, d: Drop)
    requires d in DropsOf(params, schema, nid)
    ensures d.nid == nid
  {
  }

  method MigrateParamOverrides(o: NodeOverrides, schema: Schema) returns (survived: NodeOverrides, dropped: set<Drop>)
    ensures survived == Migrated(o, schema)
    ensures forall d :: d in dropped <==> Dropped(o, schema, d)
  {
    hide KeptValues, DropsOf;
    survived, dropped := map[], {};
    var todo := o.Keys;
    while todo != {}
      invariant todo <= o.Keys
      invariant forall nid :: nid in survived <==> nid in o && nid !in todo && MigratedNode(o, schema, nid).Some?
      invariant forall nid :: nid in survived ==> survived[nid] == MigratedNode(o, schema, nid).value
      invariant forall d :: d in dropped <==> d.nid !in todo && Dropped(o, schema, d)
      decreases todo
    {
      var nid :| nid in todo;
      var drops := DropsOf(o[nid], schema, nid);
      forall d | d in drops ensures d.nid == nid {
        DropsNameTheNode(o[nid], schema, nid, d);
      }
      dropped := dropped + drops;
      if nid in schema {
        var kept := KeptValues(o[nid], schema[nid]);
        if kept != map[] {
          survived := survived[nid := kept];
        }
      }
      todo := todo - {nid};
    }
  }

  /** A parameter keeps its value exactly if its node and its name still exist, no parameter is invented, and what
      does not survive is reported, once for a node that is gone and else by name. */
  lemma NothingLostSilently(o: NodeOverrides, schema: Schema, nid: string, k: string)
    ensures Value(Migrated(o, schema), nid, k) == if nid in schema && k in schema[nid] then Value(o, nid, k) else None
    ensures Value(o, nid, k).Some? ==>
      (Value(Migrated(o, schema), nid, k).None? <==>
        Dropped(o, schema, NodeGone(nid)) || Dropped(o, schema, ParamGone(nid, k)))
    ensures nid in Migrated(o, schema) ==> Migrated(o, schema)[nid] != map[]
  {
    if nid in o && nid in schema && k in o[nid] && k in schema[nid] {
      assert k in KeptValues(o[nid], schema[nid]);
    }
  }

  /** Moving on with an unchanged schema changes nothing more. */
  lemma MigrateTwice(o: NodeOverrides, schema: Schema)
    ensures Migrated(Migrated(o, schema), schema) == Migrated(o, schema)
    ensures forall d :: !Dropped(Migrated(o, schema), schema, d)
  {
    var once := Migrated(o, schema);
    forall nid | nid in once ensures MigratedNode(once, schema, nid) == Some(once[nid]) {
      KeptTwice(o[nid], schema[nid]);
    }
  }

  lemma KeptTwice(params: Values, fields: set<string>)
    ensures KeptValues(KeptValues(params, fields), fields) == KeptValues(params, fields)
  {
  }
}
