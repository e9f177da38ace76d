/** Parameter overrides and how an edit is merged into them (server/projects.py). */
module Overrides {
  import opened Wrappers

  type Values = map<string, string>

  /** Overrides by node and parameter. */
  type NodeOverrides = map<string, Values>

  /** An edit: `None` for a parameter goes back to its default, `None` for a node drops all its overrides. */
  type Patch = map<string, Option<map<string, Option<string>>>>

  function ValuesOf(base: NodeOverrides, nid: string): Values {
    if nid in base then base[nid] else map[]
  }

  function MergedValues(cur: Values, partial: map<string, Option<string>>): Values {
    map k | k in cur.Keys + partial.Keys && (k in partial ==> partial[k].Some?) ::
      if k in partial then partial[k].value else cur[k]
  }

  /** What an edit leaves for one node; nothing when no override is left. */
  function MergedNode(base: NodeOverrides, patch: Patch, nid: string): Option<Values> {
    if nid !in patch then (if nid in base then Some(base[nid]) else None)
    else if patch[nid].None? then None
    else
      var r := MergedValues(ValuesOf(base, nid), patch[nid].value);
      if r == map[] then None else Some(r)
  }

  function Merged(base: NodeOverrides, patch: Patch): NodeOverrides {
    map nid | nid in base.Keys + patch.Keys && MergedNode(base, patch, nid).Some? :: MergedNode(base, patch, nid).value
  }

  method MergeValues(cur: Values, partial: map<string, Option<string>>) returns (r: Values)
    ensures r == MergedValues(cur, partial)
  {
    r := cur;
    var todo := partial.Keys;
    while todo != {}
      invariant todo <= partial.Keys
      invariant r == map k | k in cur.Keys + partial.Keys && (k in partial && k !in todo ==> partial[k].Some?) && (k in todo ==> k in cur) ::
        if k in partial && k !in todo then partial[k].value else cur[k]
      decreases todo
    {
      var k :| k in todo;
      if partial[k].None? {
        r := r - {k};
      } else {
        r := r[k := partial[k].value];
      }
      todo := todo - {k};
    }
  }

  method DeepMerge(base: NodeOverrides, patch: Patch) returns (out: NodeOverrides)
    ensures out == Merged(base, patch)
  {
    hide Merged, MergedValues;
    out := base;
    var todo := patch.Keys;
    while todo != {}
      invariant todo <= patch.Keys
      invariant forall nid :: nid in todo ==> (nid in out <==> nid in base) && (nid in base ==> out[nid] == base[nid])
      invariant forall nid :: nid !in todo ==> MergedNode(base, patch, nid) == if nid in out then Some(out[nid]) else None
      decreases todo
    {
      var nid :| nid in todo;
      if patch[nid].None? {
        out := out - {nid};
      } else {
        var cur := MergeValues(ValuesOf(out, nid), patch[nid].value);
        if cur == map[] {
          out := out - {nid};
        } else {
          out := out[nid := cur];
        }
      }
      todo := todo - {nid};
    }
    MergedIsByNode(base, patch, out);
  }

  /** Making the same edit again changes nothing. */
  lemma MergeTwice(base: NodeOverrides, patch: Patch)
    ensures Merged(Merged(base, patch), patch) == Merged(base, patch)
  {
    var once := Merged(base, patch);
    forall nid ensures MergedNode(once, patch, nid) == MergedNode(base, patch, nid) {
      NodeTwice(base, patch, nid);
    }
    MergedIsByNode(once, patch, once);
  }

  lemma MergedIsByNode(base: NodeOverrides, patch: Patch, r: NodeOverrides)
    requires forall nid :: MergedNode(base, patch, nid) == if nid in r then Some(r[nid]) else None
    ensures Merged(base, patch) == r
  {
    hide MergedNode;
    var m := Merged(base, patch);
    forall nid ensures nid in m <==> nid in r {
      NodeOnly(base, patch, nid);
    }
  }

  lemma NodeOnly(base: NodeOverrides, patch: Patch, nid: string)
    ensures MergedNode(base, patch, nid).Some? ==> nid in base.Keys + patch.Keys
  {
  }

  lemma MergedAt(base: NodeOverrides, patch: Patch, nid: string)
    ensures MergedNode(base, patch, nid) == if nid in Merged(base, patch) then Some(Merged(base, patch)[nid]) else None
  {
    NodeOnly(base, patch, nid);
  }

  lemma ValuesTwice(cur: Values, partial: map<string, Option<string>>)
    ensures MergedValues(MergedValues(cur, partial), partial) == MergedValues(cur, partial)
  {
  }

  lemma NodeTwice(base: NodeOverrides, patch: Patch, nid: string)
    ensures MergedNode(Merged(base, patch), patch, nid) == MergedNode(base, patch, nid)
    ensures MergedNode(Merged(base, patch), patch, nid) ==
      if nid in Merged(base, patch) then Some(Merged(base, patch)[nid]) else None
  {
    hide Merged, MergedValues;
    MergedAt(base, patch, nid);
    if nid in patch && patch[nid].Some? {
      var cur, partial := ValuesOf(base, nid), patch[nid].value;
      ValuesTwice(cur, partial);
      if MergedValues(cur, partial) == map[] {
        EmptyTwice(cur, partial);
      }
    }
  }

  lemma EmptyTwice(cur: Values, partial: map<string, Option<string>>)
    requires MergedValues(cur, partial) == map[]
    ensures MergedValues(map[], partial) == map[]
  {
    forall k ensures k !in MergedValues(map[], partial) {
      assert k !in MergedValues(cur, partial);
    }
  }

  /** The parameter's value after an edit: what the edit says, and otherwise what was there. */
  function Value(o: NodeOverrides, nid: string, k: string): Option<string> {
    if nid in o && k in o[nid] then Some(o[nid][k]) else None
  }

  lemma MergedValue(base: NodeOverrides, patch: Patch, nid: string, k: string)
    ensures Value(Merged(base, patch), nid, k) ==
      if nid !in patch then Value(base, nid, k)
      else if patch[nid].None? then None
      else if k in patch[nid].value then patch[nid].value[k]
      else Value(base, nid, k)
  {
    if nid in patch && patch[nid].Some? {
      var r := MergedValues(ValuesOf(base, nid), patch[nid].value);
      if r == map[] {
        assert k !in r;
      }
    }
  }

  /** Overrides as an edit that sets them. */
  function AsPatch(o: NodeOverrides): Patch {
    map nid | nid in o :: Some(map k | k in o[nid] :: Some(o[nid][k]))
  }
}
