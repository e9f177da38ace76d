/** What a change costs: keys are local, and only what a change can reach is run again. */
module Rebuild {
  import opened Models
  import opened Topology
  import opened Runtime
  import opened Incremental
  import opened FromScratch
  import opened Execution
  import opened LazyRerun
  import opened RunCorrectness

  /** `nid` is one of `changed` or reads, directly or not, from one. */
  ghost predicate Affected(g: Graph, changed: set<string>, nid: string) {
    exists p :: IsPath(g, p) && |p| > 0 && p[0] == nid && p[|p| - 1] in changed
  }

  lemma AffectedUpward(g: Graph, changed: set<string>, nid: string, src: string)
    requires nid in g && src in g[nid] && Affected(g, changed, src)
    ensures Affected(g, changed, nid)
  {
    var p :| IsPath(g, p) && |p| > 0 && p[0] == src && p[|p| - 1] in changed;
    var q := [nid] + p;
    assert forall i :: 0 < i < |q| ==> q[i] == p[i - 1];
    assert IsPath(g, q);
  }

  /** The two requests run the same template on the same external inputs, and resolve every
      node outside `changed` to the same parameters. */
  ghost predicate SameButFor(a: Request, b: Request, changed: set<string>) {
    && a.template == b.template && a.job.inputs == b.job.inputs
    && (forall s :: s in a.template.nodes && s.id !in changed ==> ResolvedParams(a, s) == ResolvedParams(b, s))
  }

  /** A planned node reads its unwired ports from the job alone. */
  lemma UnwiredPort(w: World, rq: Request, store: Store, specs: seq<NodeSpec>, s: NodeSpec, st: PlanState, p: string)
    requires ProperIds(specs) && s in specs && PlannedKeys(w, rq, specs, st)
    requires PlannedNode(w, rq, store, s, st) && NoSelfFeed(w, rq.job, s)
    requires s.kind in w.registry && p in w.registry[s.kind].inputs && p !in s.edges
    ensures Key(s.id, p) in st.refs <==> Key(s.id, p) in rq.job.inputs
  {
    if Key(s.id, p) in AllOutputKeys(w, specs) && Key(s.id, p) !in rq.job.inputs {
      var t, q := OutputKeyOwner(w, specs, Key(s.id, p));
      KeyInjective(s.id, p, t.id, q);
      SameId(specs, s, t);
      assert Starved(w, rq.job, s, p);
    }
  }

  ghost predicate BothPlanned(w: World, a: Request, b: Request, sa: Store, sb: Store, stA: PlanState, stB: PlanState, s: NodeSpec) {
    && PlannedNode(w, a, sa, s, stA) && PlannedNode(w, b, sb, s, stB)
    && NoSelfFeed(w, a.job, s) && NoSelfFeed(w, b.job, s)
  }

  /** Two planned states of the same nodes. */
  ghost predicate TwoPlans(w: World, a: Request, b: Request, sa: Store, sb: Store, specs: seq<NodeSpec>,
                           stA: PlanState, stB: PlanState) {
    && ProperIds(specs)
    && PlannedKeys(w, a, specs, stA) && PlannedKeys(w, b, specs, stB)
    && (forall i :: 0 <= i < |specs| ==> BothPlanned(w, a, b, sa, sb, stA, stB, specs[i]))
  }

  /** The nodes of the template in an order with producers first. */
  ghost predicate Lists(nodes: seq<NodeSpec>, specs: seq<NodeSpec>) {
    && ProducersFirst(specs, Ids(nodes)) && Ids(specs) <= Ids(nodes)
    && (forall i :: 0 <= i < |specs| ==> specs[i] in nodes)
  }

  lemma SameId(specs: seq<NodeSpec>, s: NodeSpec, t: NodeSpec)
    requires ProperIds(specs) && s in specs && t in specs && s.id == t.id
    ensures s == t
  {
  }

  ghost predicate SameKey(stA: PlanState, stB: PlanState, nid: string) {
    nid in stA.plan && nid in stB.plan && stA.plan[nid].h == stB.plan[nid].h
  }

  /** The port reads from the same key input in both plans. */
  ghost predicate SamePort(stA: PlanState, stB: PlanState, s: NodeSpec, p: string) {
    var k := SourceKey(s, p);
    (k in stA.refs <==> k in stB.refs) && (k in stA.refs ==> KeyInputOf(stA.refs[k]) == KeyInputOf(stB.refs[k]))
  }

  /** A port wired to another node's output reads the same if the producer has the same key. */
  lemma WiredPortSame(w: World, a: Request, b: Request, sa: Store, sb: Store, stA: PlanState, stB: PlanState,
                      s: NodeSpec, p: string, t: NodeSpec, q: string)
    requires PlannedNode(w, a, sa, t, stA) && PlannedNode(w, b, sb, t, stB) && a.job.inputs == b.job.inputs
    requires q in OutputsOf(w, t) && SourceKey(s, p) == Key(t.id, q) && Key(t.id, q) !in a.job.inputs
    requires SameKey(stA, stB, t.id)
    ensures SamePort(stA, stB, s, p)
  {
    assert OutputsPlanned(w, a.job, t, stA) && OutputsPlanned(w, b.job, t, stB);
  }

  lemma UnwiredPortSame(w: World, a: Request, b: Request, sa: Store, sb: Store, specs: seq<NodeSpec>,
                        stA: PlanState, stB: PlanState, s: NodeSpec, p: string)
    requires ProperIds(specs) && s in specs && BothPlanned(w, a, b, sa, sb, stA, stB, s) && a.job.inputs == b.job.inputs
    requires PlannedKeys(w, a, specs, stA) && PlannedKeys(w, b, specs, stB)
    requires s.kind in w.registry && p in w.registry[s.kind].inputs && p !in s.edges
    ensures SamePort(stA, stB, s, p)
  {
    UnwiredPort(w, a, sa, specs, s, stA, p);
    UnwiredPort(w, b, sb, specs, s, stB, p);
  }

  /** The key of a node that no change reaches is kept. */
  ghost predicate KeyKept(g: Graph, changed: set<string>, stA: PlanState, stB: PlanState, nid: string) {
    !Affected(g, changed, nid) ==> SameKey(stA, stB, nid)
  }

  ghost predicate Kept(g: Graph, changed: set<string>, stA: PlanState, stB: PlanState, specs: seq<NodeSpec>, n: nat) {
    forall j :: 0 <= j < n && j < |specs| ==> KeyKept(g, changed, stA, stB, specs[j].id)
  }

  /** The edges of a listed node are edges of the dependency graph. */
  lemma EdgesInGraph(nodes: seq<NodeSpec>, s: NodeSpec, p: string)
    requires s in nodes && p in s.edges && NodeOf(s.edges[p]) in Ids(nodes)
    ensures s.id in Deps(nodes) && NodeOf(s.edges[p]) in Deps(nodes)[s.id]
  {
    assert s.id in Ids(nodes);
  }

  /** The producer behind a port of an unaffected node is unaffected, so it keeps its key. */
  lemma ProducerKept(w: World, nodes: seq<NodeSpec>, specs: seq<NodeSpec>, stA: PlanState, stB: PlanState,
                     i: nat, p: string, changed: set<string>) returns (j: nat, q: string)
    requires ProperIds(specs) && Lists(nodes, specs) && i < |specs|
    requires !Affected(Deps(nodes), changed, specs[i].id)
    requires Kept(Deps(nodes), changed, stA, stB, specs, i)
    requires p in specs[i].edges && specs[i].edges[p] in AllOutputKeys(w, specs)
    ensures j < i && q in OutputsOf(w, specs[j]) && specs[i].edges[p] == Key(specs[j].id, q)
    ensures SameKey(stA, stB, specs[j].id)
  {
    j, q := ProducerIsEarlier(w, specs, Ids(nodes), i, p);
    NodeOfKey(specs[j].id, q);
    assert specs[j].id in Ids(specs);
    EdgesInGraph(nodes, specs[i], p);
    if Affected(Deps(nodes), changed, specs[j].id) {
      AffectedUpward(Deps(nodes), changed, specs[i].id, specs[j].id);
    }
    assert KeyKept(Deps(nodes), changed, stA, stB, specs[j].id);
  }

  /** A port that no node of the template feeds. */
  lemma ExternalPortSame(w: World, a: Request, b: Request, specs: seq<NodeSpec>, stA: PlanState, stB: PlanState,
                         s: NodeSpec, p: string)
    requires PlannedKeys(w, a, specs, stA) && PlannedKeys(w, b, specs, stB) && a.job.inputs == b.job.inputs
    requires SourceKey(s, p) in a.job.inputs || SourceKey(s, p) !in AllOutputKeys(w, specs)
    ensures SamePort(stA, stB, s, p)
  {
  }

  lemma PortLocal(w: World, a: Request, b: Request, sa: Store, sb: Store, specs: seq<NodeSpec>,
                  stA: PlanState, stB: PlanState, i: nat, p: string, nodes: seq<NodeSpec>, changed: set<string>)
    requires TwoPlans(w, a, b, sa, sb, specs, stA, stB) && a.job.inputs == b.job.inputs
    requires Lists(nodes, specs) && i < |specs| && !Affected(Deps(nodes), changed, specs[i].id)
    requires Kept(Deps(nodes), changed, stA, stB, specs, i)
    requires specs[i].kind in w.registry && p in w.registry[specs[i].kind].inputs
    ensures SamePort(stA, stB, specs[i], p)
  {
    hide PlannedNode, NoSelfFeed, SamePort, PlannedKeys, Ids, Deps, ProducersFirst, Affected, Kept, AllOutputKeys;
    var s := specs[i];
    var k := SourceKey(s, p);
    if p !in s.edges {
      assert BothPlanned(w, a, b, sa, sb, stA, stB, s);
      UnwiredPortSame(w, a, b, sa, sb, specs, stA, stB, s, p);
    } else if k in a.job.inputs || k !in AllOutputKeys(w, specs) {
      ExternalPortSame(w, a, b, specs, stA, stB, s, p);
    } else {
      var j, q := ProducerKept(w, nodes, specs, stA, stB, i, p, changed);
      assert BothPlanned(w, a, b, sa, sb, stA, stB, specs[j]);
      WiredPortSame(w, a, b, sa, sb, stA, stB, s, p, specs[j], q);
    }
  }

  lemma HashByPorts(w: World, s: NodeSpec, cls: NodeClass, stA: PlanState, stB: PlanState, params: Params)
    requires Resolve(s, cls, stA.refs).Some? && Resolve(s, cls, stB.refs).Some?
    requires forall p :: p in cls.inputs ==> SamePort(stA, stB, s, p)
    ensures NodeHash(w, cls, Resolve(s, cls, stA.refs).value, params) == NodeHash(w, cls, Resolve(s, cls, stB.refs).value, params)
  {
    var ia, ib := Resolve(s, cls, stA.refs).value, Resolve(s, cls, stB.refs).value;
    assert forall p :: p in cls.inputs ==> SamePort(stA, stB, s, p);
    assert (map p | p in ia :: KeyInputOf(ia[p])) == (map p | p in ib :: KeyInputOf(ib[p]));
  }

  lemma NodeLocal(w: World, a: Request, b: Request, sa: Store, sb: Store, s: NodeSpec, stA: PlanState, stB: PlanState)
    requires PlannedNode(w, a, sa, s, stA) && PlannedNode(w, b, sb, s, stB)
    requires ResolvedParams(a, s) == ResolvedParams(b, s)
    requires forall p :: p in w.registry[s.kind].inputs ==> SamePort(stA, stB, s, p)
    ensures SameKey(stA, stB, s.id)
  {
    HashByPorts(w, s, w.registry[s.kind], stA, stB, ResolvedParams(a, s));
  }

  lemma StepLocal(w: World, a: Request, b: Request, sa: Store, sb: Store, specs: seq<NodeSpec>,
                  stA: PlanState, stB: PlanState, i: nat, nodes: seq<NodeSpec>, changed: set<string>)
    requires TwoPlans(w, a, b, sa, sb, specs, stA, stB) && a.job.inputs == b.job.inputs
    requires Lists(nodes, specs) && i < |specs| && !Affected(Deps(nodes), changed, specs[i].id)
    requires Kept(Deps(nodes), changed, stA, stB, specs, i)
    requires ResolvedParams(a, specs[i]) == ResolvedParams(b, specs[i])
    ensures SameKey(stA, stB, specs[i].id)
  {
    assert BothPlanned(w, a, b, sa, sb, stA, stB, specs[i]);
    forall p | p in w.registry[specs[i].kind].inputs ensures SamePort(stA, stB, specs[i], p) {
      PortLocal(w, a, b, sa, sb, specs, stA, stB, i, p, nodes, changed);
    }
    NodeLocal(w, a, b, sa, sb, specs[i], stA, stB);
  }

  lemma ChangedIsAffected(g: Graph, changed: set<string>, nid: string)
    requires nid in g && nid in changed
    ensures Affected(g, changed, nid)
  {
    assert IsPath(g, [nid]);
  }

  lemma ParamsKept(a: Request, b: Request, changed: set<string>, s: NodeSpec)
    requires SameButFor(a, b, changed) && s in a.template.nodes
    requires !Affected(Deps(a.template.nodes), changed, s.id)
    ensures ResolvedParams(a, s) == ResolvedParams(b, s)
  {
    assert s.id in Ids(a.template.nodes);
    if s.id in changed {
      ChangedIsAffected(Deps(a.template.nodes), changed, s.id);
    }
  }

  lemma StepKept(w: World, a: Request, b: Request, sa: Store, sb: Store, specs: seq<NodeSpec>,
                 stA: PlanState, stB: PlanState, i: nat, changed: set<string>)
    requires TwoPlans(w, a, b, sa, sb, specs, stA, stB) && SameButFor(a, b, changed)
    requires Lists(a.template.nodes, specs) && i < |specs|
    requires Kept(Deps(a.template.nodes), changed, stA, stB, specs, i)
    ensures KeyKept(Deps(a.template.nodes), changed, stA, stB, specs[i].id)
  {
    if !Affected(Deps(a.template.nodes), changed, specs[i].id) {
      ParamsKept(a, b, changed, specs[i]);
      StepLocal(w, a, b, sa, sb, specs, stA, stB, i, a.template.nodes, changed);
    }
  }

  lemma KeptNone(g: Graph, changed: set<string>, stA: PlanState, stB: PlanState, specs: seq<NodeSpec>)
    ensures Kept(g, changed, stA, stB, specs, 0)
  {
  }

  lemma KeptNext(g: Graph, changed: set<string>, stA: PlanState, stB: PlanState, specs: seq<NodeSpec>, i: nat)
    requires i < |specs| && Kept(g, changed, stA, stB, specs, i) && KeyKept(g, changed, stA, stB, specs[i].id)
    ensures Kept(g, changed, stA, stB, specs, i + 1)
  {
  }

  lemma {:induction false} PrefixLocal(w: World, a: Request, b: Request, sa: Store, sb: Store, specs: seq<NodeSpec>,
                                       stA: PlanState, stB: PlanState, n: nat, changed: set<string>)
    requires TwoPlans(w, a, b, sa, sb, specs, stA, stB) && SameButFor(a, b, changed)
    requires Lists(a.template.nodes, specs) && n <= |specs|
    ensures Kept(Deps(a.template.nodes), changed, stA, stB, specs, n)
    decreases n
  {
    hide *;
    if n == 0 {
      KeptNone(Deps(a.template.nodes), changed, stA, stB, specs);
    } else {
      PrefixLocal(w, a, b, sa, sb, specs, stA, stB, n - 1, changed);
      StepKept(w, a, b, sa, sb, specs, stA, stB, n - 1, changed);
      KeptNext(Deps(a.template.nodes), changed, stA, stB, specs, n - 1);
    }
  }

  lemma PlansAreTwo(w: World, a: Request, b: Request, orderA: seq<string>, orderB: seq<string>, sa: Store, sb: Store)
    requires WellPosed(w, a) && a.template == b.template && a.job.inputs == b.job.inputs
    requires IsTopoOrder(Deps(a.template.nodes), orderA) && IsTopoOrder(Deps(a.template.nodes), orderB)
    requires PlanAll(w, a, sa, SpecsIn(a.template.nodes, orderA)).Some?
    requires PlanAll(w, b, sb, SpecsIn(a.template.nodes, orderB)).Some?
    ensures TwoPlans(w, a, b, sa, sb, SpecsIn(a.template.nodes, orderA),
                     PlanAll(w, a, sa, SpecsIn(a.template.nodes, orderA)).value,
                     PlanAll(w, b, sb, SpecsIn(a.template.nodes, orderB)).value)
  {
    var nodes := a.template.nodes;
    var specsA, specsB := SpecsIn(nodes, orderA), SpecsIn(nodes, orderB);
    SameInputsWellPosed(w, a, b);
    SpecsWellPosed(w, a, orderA);
    SpecsWellPosed(w, b, orderB);
    PlanRunnable(w, a, orderA, sa);
    PlanRunnable(w, b, orderB, sb);
    forall s ensures s in specsA <==> s in specsB {
      SameNodes(nodes, orderA, s);
      SameNodes(nodes, orderB, s);
    }
    SameIds(specsA, specsB);
    forall i | 0 <= i < |specsA|
      ensures BothPlanned(w, a, b, sa, sb, PlanAll(w, a, sa, specsA).value, PlanAll(w, b, sb, specsB).value, specsA[i])
    {
      assert specsA[i] in specsA && specsA[i] in specsB;
    }
  }

  lemma SameIds(specsA: seq<NodeSpec>, specsB: seq<NodeSpec>)
    requires forall s :: s in specsA <==> s in specsB
    ensures Ids(specsA) == Ids(specsB)
  {
  }

  lemma SameInputsWellPosed(w: World, a: Request, b: Request)
    requires WellPosed(w, a) && a.template == b.template && a.job.inputs == b.job.inputs
    ensures WellPosed(w, b)
  {
    forall s | s in a.template.nodes
      ensures NoSelfFeed(w, b.job, s) && Unshadowed(w, b.job, s, AllOutputKeys(w, a.template.nodes))
    {
      assert NoSelfFeed(w, a.job, s) && Unshadowed(w, a.job, s, AllOutputKeys(w, a.template.nodes));
      assert forall p :: Starved(w, b.job, s, p) <==> Starved(w, a.job, s, p);
    }
  }

  lemma OrderLists(nodes: seq<NodeSpec>, order: seq<string>)
    requires ProperIds(nodes) && IsTopoOrder(Deps(nodes), order)
    ensures Lists(nodes, SpecsIn(nodes, order))
  {
    SpecsOrdered(nodes, order);
    forall i | 0 <= i < |order| ensures SpecsIn(nodes, order)[i] in nodes {
      SpecAt(nodes, order, i);
    }
  }

  /** A change to the parameters of some nodes changes no key outside their descendants, whatever the
      caches hold and in whatever order the two runs visit the nodes. */
  lemma HashLocality(w: World, a: Request, b: Request, orderA: seq<string>, orderB: seq<string>, sa: Store, sb: Store,
                     changed: set<string>, nid: string)
    requires WellPosed(w, a) && SameButFor(a, b, changed)
    requires IsTopoOrder(Deps(a.template.nodes), orderA) && IsTopoOrder(Deps(a.template.nodes), orderB)
    requires PlanAll(w, a, sa, SpecsIn(a.template.nodes, orderA)).Some?
    requires PlanAll(w, b, sb, SpecsIn(a.template.nodes, orderB)).Some?
    requires nid in Ids(a.template.nodes) && !Affected(Deps(a.template.nodes), changed, nid)
    ensures var pa := PlanAll(w, a, sa, SpecsIn(a.template.nodes, orderA)).value.plan;
      var pb := PlanAll(w, b, sb, SpecsIn(a.template.nodes, orderB)).value.plan;
      nid in pa && nid in pb && pa[nid].h == pb[nid].h
  {
    var nodes := a.template.nodes;
    var specs := SpecsIn(nodes, orderA);
    var stA, stB := PlanAll(w, a, sa, specs).value, PlanAll(w, b, sb, SpecsIn(nodes, orderB)).value;
    PlansAreTwo(w, a, b, orderA, orderB, sa, sb);
    OrderLists(nodes, orderA);
    PrefixLocal(w, a, b, sa, sb, specs, stA, stB, |specs|, changed);
    assert nid in Elements(orderA);
    var i :| 0 <= i < |orderA| && orderA[i] == nid;
    SpecAt(nodes, orderA, i);
    assert KeyKept(Deps(nodes), changed, stA, stB, specs[i].id);
  }

  /** Every key of a plan is committed. */
  ghost predicate AllCommitted(plan: map<string, NodePlan>, store: Store) {
    forall nid :: nid in plan ==> plan[nid].h in store
  }

  lemma PlannedIds(w: World, rq: Request, order: seq<string>, store: Store, nid: string)
    requires WellPosed(w, rq) && IsTopoOrder(Deps(rq.template.nodes), order)
    requires PlanAll(w, rq, store, SpecsIn(rq.template.nodes, order)).Some?
    requires nid in PlanAll(w, rq, store, SpecsIn(rq.template.nodes, order)).value.plan
    ensures nid in Ids(rq.template.nodes)
    ensures var p := PlanAll(w, rq, store, SpecsIn(rq.template.nodes, order)).value.plan[nid];
      p.isHit == (!rq.force && p.h in store)
  {
    var specs := SpecsIn(rq.template.nodes, order);
    PlanRunnable(w, rq, order, store);
    SpecsOrdered(rq.template.nodes, order);
    var s :| s in specs && s.id == nid;
    assert PlannedNode(w, rq, store, s, PlanAll(w, rq, store, specs).value);
  }

  /** Minimal rebuild. When everything request `a` plans is committed, a run of a request that differs
      in the parameters of `changed` executes only those nodes and their descendants. */
  lemma MinimalRebuild(w: World, env: Env, a: Request, b: Request, orderA: seq<string>, orderB: seq<string>,
                       before: Store, store: Store, rep: Report, changed: set<string>)
    requires WellPosed(w, a) && SameButFor(a, b, changed) && Sound(w, store) && !b.force
    requires IsTopoOrder(Deps(a.template.nodes), orderA) && IsTopoOrder(Deps(a.template.nodes), orderB)
    requires PlanAll(w, a, before, SpecsIn(a.template.nodes, orderA)).Some?
    requires AllCommitted(PlanAll(w, a, before, SpecsIn(a.template.nodes, orderA)).value.plan, store)
    requires IsRun(w, env, b, orderB, store, rep)
    ensures forall x :: x in rep.executed ==> Affected(Deps(a.template.nodes), changed, x.0)
  {
    SameInputsWellPosed(w, a, b);
    RunKeepsCacheSound(w, env, b, orderB, store, rep);
    if PlanAll(w, b, store, SpecsIn(b.template.nodes, orderB)).Some? {
      forall x | x in rep.executed ensures Affected(Deps(a.template.nodes), changed, x.0) {
        PlannedIds(w, b, orderB, store, x.0);
        if !Affected(Deps(a.template.nodes), changed, x.0) {
          HashLocality(w, a, b, orderA, orderB, before, store, changed, x.0);
        }
      }
    }
  }

  /** Everything a run that returned has behind its declared outputs is committed. */
  lemma SourcesCommitted(w: World, env: Env, rq: Request, order: seq<string>, store: Store, rep: Report, nid: string)
    requires WellPosed(w, rq) && IsTopoOrder(Deps(rq.template.nodes), order) && Sound(w, store)
    requires IsRun(w, env, rq, order, store, rep) && rep.outcome.Returned?
    requires nid in OutputSources(rq.template) && nid in Ids(rq.template.nodes)
    ensures PlanAll(w, rq, store, SpecsIn(rq.template.nodes, order)).Some?
    ensures var plan := PlanAll(w, rq, store, SpecsIn(rq.template.nodes, order)).value.plan;
      nid in plan && plan[nid].h in rep.store
  {
    var specs := SpecsIn(rq.template.nodes, order);
    ReturnedRun(w, env, rq, order, store, rep);
    var st := PlanAll(w, rq, store, specs).value;
    ReturnedInv(w, env, rq, order, store, st);
    var name :| name in rq.template.outputs && NodeOf(rq.template.outputs[name]) == nid;
    SourcesProvided(rq, st.plan, order, name);
    assert nid in Elements(order);
    var i :| 0 <= i < |order| && order[i] == nid;
    SpecAt(rq.template.nodes, order, i);
    assert specs[i] in specs && Available(specs[i], st.plan[nid], PassOf(w, env, rq, order, store, st).state);
  }

  function Unforced(rq: Request): Request {
    Request(rq.template, rq.job, rq.profile, false)
  }

  lemma NothingAffected(g: Graph, nid: string)
    ensures !Affected(g, {}, nid)
  {
  }

  /** In the rerun, the node behind a declared output is a hit. */
  lemma SourceHits(w: World, env: Env, rq: Request, order: seq<string>, order2: seq<string>, store: Store, rep: Report, src: string)
    requires WellPosed(w, rq) && Sound(w, store)
    requires IsTopoOrder(Deps(rq.template.nodes), order) && IsTopoOrder(Deps(rq.template.nodes), order2)
    requires IsRun(w, env, rq, order, store, rep) && rep.outcome.Returned?
    requires src in OutputSources(rq.template) && src in Ids(rq.template.nodes)
    requires PlanAll(w, Unforced(rq), rep.store, SpecsIn(rq.template.nodes, order2)).Some?
    ensures IsHit(PlanAll(w, Unforced(rq), rep.store, SpecsIn(rq.template.nodes, order2)).value.plan, src)
  {
    hide IsRun, IsTopoOrder, PlanAll, Deps, Sound, SpecsIn, WellPosed;
    var again := Unforced(rq);
    SameInputsWellPosed(w, rq, again);
    SourcesCommitted(w, env, rq, order, store, rep, src);
    NothingAffected(Deps(rq.template.nodes), src);
    HashLocality(w, rq, again, order, order2, store, rep.store, {}, src);
    PlannedIds(w, again, order2, rep.store, src);
  }

  /** Must-run nodes exist only above an output source that is a miss. */
  lemma MustRunHasMissedSource(g: Graph, outs: set<string>, plan: map<string, NodePlan>, order: seq<string>, nid: string)
    returns (src: string)
    requires IsTopoOrder(g, order) && nid in MustRunFrom(g, outs, plan, order, 0)
    ensures src in outs && src in g && !IsHit(plan, src)
  {
    MustRunIsNeeded(g, outs, plan, order, 0, nid);
    var p :| MissPath(g, outs, plan, order, p) && p[0] == nid;
    src := p[|p| - 1];
    assert src in Elements(order);
  }

  /** A rerun of a request that returned, forced or not, executes no node: what the first run left
      out it did not need, and the second run does not need it either. */
  lemma RerunExecutesNothing(w: World, env: Env, env2: Env, rq: Request, order: seq<string>, order2: seq<string>,
                             store: Store, rep: Report, rep2: Report)
    requires WellPosed(w, rq) && Sound(w, store)
    requires IsTopoOrder(Deps(rq.template.nodes), order) && IsTopoOrder(Deps(rq.template.nodes), order2)
    requires IsRun(w, env, rq, order, store, rep) && rep.outcome.Returned?
    requires IsRun(w, env2, Unforced(rq), order2, rep.store, rep2)
    ensures rep2.executed == []
  {
    hide IsRun, PlanAll, Sound, SpecsIn, WellPosed, MustRunFrom, IsHit, Ordered, NoDuplicates, DepsOf;
    SameInputsWellPosed(w, rq, Unforced(rq));
    RunKeepsCacheSound(w, env, rq, order, store, rep);
    if rep2.executed != [] {
      ExecutedAreNeeded(w, env2, Unforced(rq), order2, rep.store, rep2);
      RunKeepsCacheSound(w, env2, Unforced(rq), order2, rep.store, rep2);
      var plan2 := PlanAll(w, Unforced(rq), rep.store, SpecsIn(rq.template.nodes, order2)).value.plan;
      assert rep2.executed[0] in rep2.executed;
      var src := MustRunHasMissedSource(Deps(rq.template.nodes), OutputSources(rq.template), plan2, order2, rep2.executed[0].0);
      SourceHits(w, env, rq, order, order2, store, rep, src);
    }
  }

  /** A node that ran had its key recomputed from its real inputs, and lies on a path of misses
      that ends at a declared output. */
  lemma ExecutedAreNeeded(w: World, env: Env, rq: Request, order: seq<string>, store: Store, rep: Report)
    requires WellPosed(w, rq) && IsTopoOrder(Deps(rq.template.nodes), order) && Sound(w, store)
    requires IsRun(w, env, rq, order, store, rep)
    ensures PlanAll(w, rq, store, SpecsIn(rq.template.nodes, order)).None? ==> rep.executed == []
    ensures PlanAll(w, rq, store, SpecsIn(rq.template.nodes, order)).Some? ==>
      var plan := PlanAll(w, rq, store, SpecsIn(rq.template.nodes, order)).value.plan;
      forall x :: x in rep.executed ==>
        x.0 in plan && x.1 == plan[x.0].h && Needed(Deps(rq.template.nodes), OutputSources(rq.template), plan, order, x.0)
  {
    RunKeepsCacheSound(w, env, rq, order, store, rep);
    if PlanAll(w, rq, store, SpecsIn(rq.template.nodes, order)).Some? {
      var plan := PlanAll(w, rq, store, SpecsIn(rq.template.nodes, order)).value.plan;
      forall x | x in rep.executed
        ensures Needed(Deps(rq.template.nodes), OutputSources(rq.template), plan, order, x.0)
      {
        MustRunExact(Deps(rq.template.nodes), OutputSources(rq.template), plan, order, x.0);
      }
    }
  }
}
