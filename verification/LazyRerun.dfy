/** Which nodes must run: exactly the misses with a path of misses down to a template output. */
module LazyRerun {
  import opened Topology
  import opened Runtime

  /** `p` follows edges from producer to consumer through misses and ends at an output source. */
  predicate MissPath(g: Graph, outs: set<string>, plan: map<string, NodePlan>, order: seq<string>, p: seq<string>) {
    && |p| > 0 && p[|p| - 1] in outs
    && (forall i :: 0 <= i < |p| ==> p[i] in order && !IsHit(plan, p[i]))
    && (forall i :: 0 <= i < |p| - 1 ==> Feeds(g, p[i], p[i + 1]))
  }

  ghost predicate Needed(g: Graph, outs: set<string>, plan: map<string, NodePlan>, order: seq<string>, nid: string) {
    exists p :: MissPath(g, outs, plan, order, p) && p[0] == nid
  }

  lemma {:induction false} MustRunIsNeeded(g: Graph, outs: set<string>, plan: map<string, NodePlan>, order: seq<string>, i: nat, nid: string)
    requires i <= |order| && nid in MustRunFrom(g, outs, plan, order, i)
    ensures Needed(g, outs, plan, order, nid)
    decreases |order| - i
  {
    var later := MustRunFrom(g, outs, plan, order, i + 1);
    if nid in later {
      MustRunIsNeeded(g, outs, plan, order, i + 1, nid);
    } else if nid in outs {
      assert MissPath(g, outs, plan, order, [nid]);
    } else {
      var c :| c in later && Feeds(g, nid, c);
      MustRunIsNeeded(g, outs, plan, order, i + 1, c);
      var p :| MissPath(g, outs, plan, order, p) && p[0] == c;
      var q := [nid] + p;
      assert forall j :: 0 < j < |q| ==> q[j] == p[j - 1];
      assert MissPath(g, outs, plan, order, q);
    }
  }

  lemma {:induction false} MustRunGrows(g: Graph, outs: set<string>, plan: map<string, NodePlan>, order: seq<string>, i: nat, j: nat)
    requires i <= j <= |order|
    ensures MustRunFrom(g, outs, plan, order, j) <= MustRunFrom(g, outs, plan, order, i)
    decreases j - i
  {
    if i < j {
      MustRunGrows(g, outs, plan, order, i + 1, j);
    }
  }

  /** A consumer stands after its producer. */
  lemma ConsumerIsLater(g: Graph, order: seq<string>, j: nat, c: string) returns (k: nat)
    requires IsTopoOrder(g, order) && j < |order| && Feeds(g, order[j], c)
    ensures j < k < |order| && order[k] == c
  {
    assert c in Elements(order);
    k :| 0 <= k < |order| && order[k] == c;
    assert order[j] in Elements(order[..k]);
    var m :| 0 <= m < k && order[..k][m] == order[j];
  }

  lemma {:induction false} NeededMustRun(g: Graph, outs: set<string>, plan: map<string, NodePlan>, order: seq<string>,
                                         p: seq<string>, i: nat, j: nat)
    requires IsTopoOrder(g, order) && MissPath(g, outs, plan, order, p)
    requires i <= j < |order| && order[j] == p[0]
    ensures p[0] in MustRunFrom(g, outs, plan, order, i)
    decreases |p|
  {
    if |p| > 1 {
      var k := ConsumerIsLater(g, order, j, p[1]);
      var q := p[1..];
      assert forall m :: 0 <= m < |q| ==> q[m] == p[m + 1];
      NeededMustRun(g, outs, plan, order, q, j + 1, k);
    }
    assert p[0] in MustRunFrom(g, outs, plan, order, j);
    MustRunGrows(g, outs, plan, order, i, j);
  }

  /** The backward pass computes exactly the needed nodes. */
  lemma MustRunExact(g: Graph, outs: set<string>, plan: map<string, NodePlan>, order: seq<string>, nid: string)
    requires IsTopoOrder(g, order)
    ensures nid in MustRunFrom(g, outs, plan, order, 0) <==> Needed(g, outs, plan, order, nid)
  {
    if nid in MustRunFrom(g, outs, plan, order, 0) {
      MustRunIsNeeded(g, outs, plan, order, 0, nid);
    }
    if Needed(g, outs, plan, order, nid) {
      var p :| MissPath(g, outs, plan, order, p) && p[0] == nid;
      var j :| 0 <= j < |order| && order[j] == nid;
      NeededMustRun(g, outs, plan, order, p, 0, j);
    }
  }

  /** A miss that feeds a must-run node must run, and so must a miss that is an output source. */
  lemma MustRunClosed(g: Graph, outs: set<string>, plan: map<string, NodePlan>, order: seq<string>, nid: string, c: string)
    requires IsTopoOrder(g, order) && nid in g && !IsHit(plan, nid)
    requires nid in outs || (Feeds(g, nid, c) && c in MustRunFrom(g, outs, plan, order, 0))
    ensures nid in MustRunFrom(g, outs, plan, order, 0)
  {
    assert nid in Elements(order);
    if nid in outs {
      assert MissPath(g, outs, plan, order, [nid]);
    } else {
      MustRunIsNeeded(g, outs, plan, order, 0, c);
      var p :| MissPath(g, outs, plan, order, p) && p[0] == c;
      var q := [nid] + p;
      assert forall j :: 0 < j < |q| ==> q[j] == p[j - 1];
      assert MissPath(g, outs, plan, order, q);
      assert q[0] == nid;
    }
    MustRunExact(g, outs, plan, order, nid);
  }
}
