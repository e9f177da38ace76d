/** A run returns whenever evaluating every node from scratch succeeds. */
module Completion {
  import opened Models
  import opened Wrappers
  import opened Topology
  import opened Runtime
  import opened Incremental
  import opened FromScratch
  import opened Execution
  import opened LazyRerun
  import opened RunCorrectness
  import opened Rebuild

  /** Nobody cancels the run, the disk has room for what it writes, and no commit is refused. */
  ghost predicate Undisturbed(env: Env) {
    forall nid :: !env.cancelBefore(nid) && !env.cancelInside(nid) && !env.noRoom(nid) && !env.refused(nid)
  }

  ghost predicate NodeSucceeds(w: World, s: NodeSpec, sc: Scratch) {
    && s.id in sc.results && sc.results[s.id].Some?
    && sc.results[s.id].value.Keys == OutputsOf(w, s)
  }

  /** Every node of the template succeeds and produces its declared outputs. */
  ghost predicate AllSucceed(w: World, nodes: seq<NodeSpec>, sc: Scratch) {
    forall s :: s in nodes ==> NodeSucceeds(w, s, sc)
  }

  /** Every declared output names a node's output, or an external file of the job. */
  predicate OutputsNamed(w: World, rq: Request) {
    forall name :: name in rq.template.outputs ==> OutputNamed(w, rq, rq.template.outputs[name])
  }

  predicate OutputNamed(w: World, rq: Request, key: string) {
    if key in rq.job.inputs then rq.job.inputs[key].OneFile? else key in AllOutputKeys(w, rq.template.nodes)
  }

  // ---------------------------------------------------------------- planning succeeds

  /** A node that scratch evaluation can feed can be planned. */
  lemma PlanNodeSucceeds(w: World, rq: Request, store: Store, specs: seq<NodeSpec>, spec: NodeSpec, st: PlanState, sc: Scratch)
    requires PlannedKeys(w, rq, specs, st) && sc.made.Keys == AllOutputKeys(w, specs)
    requires ScratchNode(w, rq, sc.made, spec).Some?
    ensures PlanNode(w, rq, store, spec, st).Some?
  {
    var cls := w.registry[spec.kind];
    forall p | p in cls.inputs ensures PortResolves(spec, cls, st.refs, p) {
      if HasInput(rq.job, sc.made, spec, p) {
        assert SourceKey(spec, p) in st.refs;
      }
    }
  }

  lemma {:induction false} ScratchIds(w: World, rq: Request, specs: seq<NodeSpec>)
    ensures ScratchAll(w, rq, specs).results.Keys == Ids(specs)
  {
    if |specs| > 0 {
      IdsOfInit(specs, |specs| - 1);
      ScratchIds(w, rq, specs[..|specs| - 1]);
    }
  }

  /** Evaluating a last node leaves the results of the others as they are. */
  lemma SucceedInit(w: World, rq: Request, specs: seq<NodeSpec>, n: nat)
    requires |specs| == n + 1 && ProperIds(specs) && AllSucceed(w, specs, ScratchAll(w, rq, specs))
    ensures AllSucceed(w, specs[..n], ScratchAll(w, rq, specs[..n]))
    ensures ScratchNode(w, rq, ScratchAll(w, rq, specs[..n]).made, specs[n]).Some?
  {
    ProperInit(specs, n);
    InitOf(specs, n);
    ScratchIds(w, rq, specs[..n]);
    forall s | s in specs[..n] ensures NodeSucceeds(w, s, ScratchAll(w, rq, specs[..n])) {
      assert NodeSucceeds(w, s, ScratchAll(w, rq, specs));
      assert s.id in Ids(specs[..n]);
    }
    assert NodeSucceeds(w, specs[n], ScratchAll(w, rq, specs));
  }

  lemma {:induction false} PlanSucceeds(w: World, rq: Request, store: Store, specs: seq<NodeSpec>)
    requires ProperIds(specs) && AllSucceed(w, specs, ScratchAll(w, rq, specs))
    ensures PlanAll(w, rq, store, specs).Some?
  {
    if |specs| > 0 {
      var n := |specs| - 1;
      ProperInit(specs, n);
      SucceedInit(w, rq, specs, n);
      PlanSucceeds(w, rq, store, specs[..n]);
      PlanHasKeys(w, rq, store, specs[..n]);
      ScratchHasKeys(w, rq, specs[..n]);
      PlanNodeSucceeds(w, rq, store, specs[..n], specs[n], PlanAll(w, rq, store, specs[..n]).value, ScratchAll(w, rq, specs[..n]));
    }
  }

  // ---------------------------------------------------------------- every input can be read

  /** The key of a node is not one of its own inputs. */
  lemma NotOwnInput(h: Hash, port: string)
    requires port in h.inputs && h.inputs[port].KOutput?
    ensures h.inputs[port].hash != h
  {
    assert h.inputs[port].hash < h;
  }

  /** The refs a must-run node is about to read are readable, and stay so when its own entry is reserved. */
  ghost predicate PortReadable(rq: Request, st: PlanState, s: NodeSpec, e: ExecState, p: string)
    requires s.id in st.plan
  {
    var k := SourceKey(s, p);
    k in st.refs ==> k in e.refs && Read(Reserved(rq, st.plan[s.id], e), e.refs[k]).Some?
  }

  lemma ExternalReadable(w: World, rq: Request, store: Store, done: seq<NodeSpec>, s: NodeSpec, st: PlanState,
                         e: ExecState, p: string)
    requires PlannedNode(w, rq, store, s, st) && ExternalsKept(rq.job, st.refs)
    requires RefsAgree(rq.job, AllOutputKeys(w, done), st.refs, e.refs)
    requires SourceKey(s, p) in rq.job.inputs && SourceKey(s, p) !in AllOutputKeys(w, done)
    ensures PortReadable(rq, st, s, e, p)
  {
  }

  lemma ProducedReadable(w: World, rq: Request, store: Store, s: NodeSpec, st: PlanState, e: ExecState, p: string,
                         t: NodeSpec, q: string)
    requires PlannedNode(w, rq, store, s, st) && PlannedNode(w, rq, store, t, st)
    requires p in w.registry[s.kind].inputs && SourceKey(s, p) == Key(t.id, q) && SourceKey(s, p) !in rq.job.inputs
    requires q in OutputsOf(w, t) && Available(t, st.plan[t.id], e)
    ensures PortReadable(rq, st, s, e, p)
  {
    var k := SourceKey(s, p);
    assert OutputsPlanned(w, rq.job, t, st);
    assert st.refs[k] == Output(st.plan[t.id].h, q) == e.refs[k];
    NotOwnInput(st.plan[s.id].h, p);
  }

  /** With readable inputs, running a node gives what its key denotes, a failure included. */
  lemma RunAllReadable(w: World, store: Store, p: NodePlan, inputs: map<string, Ref>)
    requires Sound(w, store) && p.h == NodeHash(w, p.cls, inputs, p.params)
    requires forall port :: port in inputs ==> Read(store, inputs[port]).Some?
    ensures RunNode(w, p, p.h, store, inputs) == Denote(w, p.h)
  {
    forall port | port in inputs ensures DenoteInput(w, p.h.inputs[port]) == Read(store, inputs[port]) {
      ReadIsDenotation(w, store, inputs[port]);
    }
    assert InputsDenote(w, p.h);
    assert DenotedInputs(w, p.h) == map port | port in inputs :: Read(store, inputs[port]).value;
  }

  lemma ReservedSound(w: World, rq: Request, p: NodePlan, e: ExecState)
    requires Sound(w, e.store)
    ensures Sound(w, Reserved(rq, p, e))
  {
  }

  // ---------------------------------------------------------------- no step stops

  lemma MissGoes(w: World, env: Env, rq: Request, store: Store, done: seq<NodeSpec>, s: NodeSpec, st: PlanState, e: ExecState)
    requires PlannedNode(w, rq, store, s, st) && Sound(w, e.store) && Undisturbed(env)
    requires DotFreeIds(done) && DotFree(s.id) && s.id !in Ids(done)
    requires Unshadowed(w, rq.job, s, AllOutputKeys(w, done))
    requires RefsAgree(rq.job, AllOutputKeys(w, done), st.refs, e.refs)
    requires forall p :: p in w.registry[s.kind].inputs ==> PortReadable(rq, st, s, e, p)
    requires Denote(w, st.plan[s.id].h).Some? && Denote(w, st.plan[s.id].h).value.Keys == OutputsOf(w, s)
    ensures RunMiss(w, env, rq, s, st.plan[s.id], e).Go?
  {
    var p := st.plan[s.id];
    LiveResolve(w, rq, done, s, st, e.refs);
    var inputs := Resolve(s, p.cls, e.refs).value;
    forall port | port in inputs ensures Read(Reserved(rq, p, e), inputs[port]).Some? {
      assert PortReadable(rq, st, s, e, port);
    }
    ReservedSound(w, rq, p, e);
    RunAllReadable(w, Reserved(rq, p, e), p, inputs);
  }

  lemma HitGoes(w: World, env: Env, rq: Request, store: Store, s: NodeSpec, st: PlanState, e: ExecState)
    requires PlannedNode(w, rq, store, s, st) && Sound(w, e.store) && Grown(rq, store, e) && st.plan[s.id].isHit
    requires Denote(w, st.plan[s.id].h).Some? && Denote(w, st.plan[s.id].h).value.Keys == OutputsOf(w, s)
    ensures HitNode(env, s.id, st.plan[s.id], e).Go?
  {
  }

  /** The nodes of a well-posed run in execution order. */
  ghost predicate Grounded(w: World, rq: Request, store: Store, specs: seq<NodeSpec>, order: seq<string>, st: PlanState) {
    && IsTopoOrder(Deps(rq.template.nodes), order)
    && Lists(rq.template.nodes, specs)
    && PlannedKeys(w, rq, specs, st)
    && Runnable(w, rq, store, specs, AllOutputKeys(w, specs), st)
    && (forall i :: 0 <= i < |specs| ==> NoSelfFeed(w, rq.job, specs[i]))
  }

  /** And all of them succeed from scratch. */
  ghost predicate Promising(w: World, rq: Request, store: Store, specs: seq<NodeSpec>, order: seq<string>, st: PlanState) {
    Grounded(w, rq, store, specs, order, st) && forall i :: 0 <= i < |specs| ==> Sure(w, rq, st, specs[i])
  }

  ghost predicate Sure(w: World, rq: Request, st: PlanState, s: NodeSpec) {
    && s.id in st.plan
    && Denote(w, st.plan[s.id].h).Some? && Denote(w, st.plan[s.id].h).value.Keys == OutputsOf(w, s)
  }

  /** The producer behind a wired port of a must-run node was replayed or run. */
  lemma ProducerProvided(w: World, rq: Request, specs: seq<NodeSpec>, order: seq<string>, plan: map<string, NodePlan>,
                         i: nat, p: string) returns (j: nat, q: string)
    requires IsTopoOrder(Deps(rq.template.nodes), order) && ProperIds(specs) && Lists(rq.template.nodes, specs) && i < |specs|
    requires specs[i].id in MustRun(rq, plan, order)
    requires p in specs[i].edges && specs[i].edges[p] in AllOutputKeys(w, specs)
    ensures j < i && q in OutputsOf(w, specs[j]) && specs[i].edges[p] == Key(specs[j].id, q)
    ensures Provided(plan, MustRun(rq, plan, order), specs[j].id)
  {
    var nodes := rq.template.nodes;
    j, q := ProducerIsEarlier(w, specs, Ids(nodes), i, p);
    NodeOfKey(specs[j].id, q);
    assert specs[j].id in Ids(specs);
    EdgesInGraph(nodes, specs[i], p);
    assert Feeds(Deps(nodes), specs[j].id, specs[i].id);
    if !IsHit(plan, specs[j].id) {
      MustRunClosed(Deps(nodes), OutputSources(rq.template), plan, order, specs[j].id, specs[i].id);
    }
  }

  lemma WiredReadable(w: World, rq: Request, store: Store, specs: seq<NodeSpec>, order: seq<string>, st: PlanState,
                      i: nat, e: ExecState, p: string)
    requires Grounded(w, rq, store, specs, order, st) && i < |specs|
    requires ExecInv(w, rq, store, specs[..i], st, MustRun(rq, st.plan, order), e)
    requires specs[i].id in MustRun(rq, st.plan, order)
    requires Wired(w, specs[i], p) && specs[i].edges[p] in AllOutputKeys(w, specs)
    ensures PortReadable(rq, st, specs[i], e, p)
  {
    hide MustRunFrom, Ordered, NoDuplicates, Deps, AllOutputKeys, ProducersFirst, PlannedNode, Resolve, Sound;
    var j, q := ProducerProvided(w, rq, specs, order, st.plan, i, p);
    assert specs[j] in specs[..i];
    assert Available(specs[j], st.plan[specs[j].id], e);
    assert PlannedNode(w, rq, store, specs[i], st) && PlannedNode(w, rq, store, specs[j], st);
    assert Unshadowed(w, rq.job, specs[i], AllOutputKeys(w, specs));
    PlannedKind(w, rq, store, specs[i], st);
    ProducedReadable(w, rq, store, specs[i], st, e, p, specs[j], q);
  }

  lemma PlannedKind(w: World, rq: Request, store: Store, s: NodeSpec, st: PlanState)
    requires PlannedNode(w, rq, store, s, st)
    ensures s.kind in w.registry && s.id in st.plan && st.plan[s.id].cls == w.registry[s.kind]
  {
  }

  lemma RunnableNode(w: World, rq: Request, store: Store, specs: seq<NodeSpec>, outputs: set<string>, st: PlanState, i: nat)
    requires Runnable(w, rq, store, specs, outputs, st) && i < |specs|
    ensures PlannedNode(w, rq, store, specs[i], st) && Unshadowed(w, rq.job, specs[i], outputs)
    ensures specs[i] in specs && ProperIds(specs) && DotFreeIds(specs[..i]) && DotFree(specs[i].id)
    ensures specs[i].id !in Ids(specs[..i])
  {
  }

  /** Every input of a must-run node that has a ref is readable when its turn comes. */
  lemma AllReadable(w: World, rq: Request, store: Store, specs: seq<NodeSpec>, order: seq<string>, st: PlanState,
                    i: nat, e: ExecState, p: string)
    requires Grounded(w, rq, store, specs, order, st) && i < |specs|
    requires ExecInv(w, rq, store, specs[..i], st, MustRun(rq, st.plan, order), e)
    requires specs[i].id in MustRun(rq, st.plan, order)
    requires specs[i].kind in w.registry && p in w.registry[specs[i].kind].inputs
    ensures specs[i].id in st.plan && PortReadable(rq, st, specs[i], e, p)
  {
    hide MustRunFrom, Ordered, NoDuplicates, Deps, AllOutputKeys, ProducersFirst, PlannedNode, Resolve, Sound, Lists;
    var s := specs[i];
    var k := SourceKey(s, p);
    RunnableNode(w, rq, store, specs, AllOutputKeys(w, specs), st, i);
    PlannedKind(w, rq, store, s, st);
    OutputKeysGrow(w, specs, i);
    assert NoSelfFeed(w, rq.job, s);
    if p in s.edges && k in AllOutputKeys(w, specs) {
      WiredReadable(w, rq, store, specs, order, st, i, e, p);
    } else if k in st.refs {
      if p !in s.edges {
        UnwiredPort(w, rq, store, specs, s, st, p);
        ForeignKey(w, specs[..i], s.id, p);
      }
      ExternalReadable(w, rq, store, specs[..i], s, st, e, p);
    }
  }

  /** An undisturbed step on sure ground goes on. */
  lemma StepGoes(w: World, env: Env, rq: Request, store: Store, specs: seq<NodeSpec>, order: seq<string>, st: PlanState,
                 i: nat, e: ExecState)
    requires Promising(w, rq, store, specs, order, st) && Undisturbed(env) && i < |specs|
    requires ExecInv(w, rq, store, specs[..i], st, MustRun(rq, st.plan, order), e)
    ensures ExecNode(w, env, rq, st.plan, MustRun(rq, st.plan, order), specs[i], e).Go?
  {
    hide MustRunFrom, Ordered, NoDuplicates, Deps, AllOutputKeys, ProducersFirst, PlannedNode, Resolve, Sound, Lists,
      RunMiss, HitNode, PortReadable, Unshadowed;
    var s := specs[i];
    RunnableNode(w, rq, store, specs, AllOutputKeys(w, specs), st, i);
    PlannedKind(w, rq, store, s, st);
    assert Sure(w, rq, st, s);
    if st.plan[s.id].isHit {
      HitGoes(w, env, rq, store, s, st, e);
    } else if s.id in MustRun(rq, st.plan, order) {
      forall p | p in w.registry[s.kind].inputs ensures PortReadable(rq, st, s, e, p) {
        AllReadable(w, rq, store, specs, order, st, i, e, p);
      }
      OutputKeysGrow(w, specs, i);
      FewerOutputs(w, rq.job, s, AllOutputKeys(w, specs[..i]), AllOutputKeys(w, specs));
      MissGoes(w, env, rq, store, specs[..i], s, st, e);
    }
  }

  lemma FewerOutputs(w: World, job: Job, s: NodeSpec, few: set<string>, many: set<string>)
    requires few <= many && Unshadowed(w, job, s, many)
    ensures Unshadowed(w, job, s, few)
  {
  }

  lemma RunnableTake(w: World, rq: Request, store: Store, specs: seq<NodeSpec>, outputs: set<string>, st: PlanState, n: nat)
    requires Runnable(w, rq, store, specs, outputs, st) && n <= |specs|
    ensures Runnable(w, rq, store, specs[..n], outputs, st)
  {
    OutputKeysGrow(w, specs, n);
  }

  lemma NextGoes(w: World, env: Env, rq: Request, store: Store, specs: seq<NodeSpec>, order: seq<string>,
                 st: PlanState, n: nat, r: Step)
    requires Promising(w, rq, store, specs, order, st) && Undisturbed(env) && n < |specs|
    requires r.Go? && PassOk(w, rq, store, specs[..n], st, MustRun(rq, st.plan, order), r)
    ensures ExecNext(w, env, rq, st.plan, MustRun(rq, st.plan, order), specs[n], r).Go?
  {
    hide Promising, Undisturbed, ExecNode, MustRunFrom, ExecInv;
    StepGoes(w, env, rq, store, specs, order, st, n, r.state);
  }

  /** So the pass goes through to the end. */
  lemma {:induction false} PassGoes(w: World, env: Env, rq: Request, store: Store, specs: seq<NodeSpec>, order: seq<string>,
                                    st: PlanState, n: nat)
    requires Promising(w, rq, store, specs, order, st) && Undisturbed(env) && Sound(w, store) && n <= |specs|
    ensures ExecAll(w, env, rq, st.plan, MustRun(rq, st.plan, order), specs[..n], ExecState(st.refs, store, [], [])).Go?
    decreases n
  {
    hide Undisturbed, ExecNode, ExecNext, MustRunFrom, PassOk, Runnable, IsTopoOrder, Lists, PlannedKeys, Sure, Sound, AllOutputKeys,
      NoSelfFeed;
    var must, start := MustRun(rq, st.plan, order), ExecState(st.refs, store, [], []);
    if n > 0 {
      PassGoes(w, env, rq, store, specs, order, st, n - 1);
      RunnableTake(w, rq, store, specs, AllOutputKeys(w, specs), st, n - 1);
      PassIsOk(w, env, rq, store, specs[..n - 1], AllOutputKeys(w, specs), st, must);
      NextGoes(w, env, rq, store, specs, order, st, n - 1, ExecAll(w, env, rq, st.plan, must, specs[..n - 1], start));
      ExecUnfold(w, env, rq, st.plan, must, specs, start, n - 1);
    }
  }

  // ---------------------------------------------------------------- the run returns

  lemma SolutionResult(w: World, rq: Request, specs: seq<NodeSpec>, a: Scratch, b: Scratch, s: NodeSpec)
    requires Evaluates(w, rq, specs, a) && Evaluates(w, rq, specs, b) && a.made == b.made && s in specs
    ensures s.id in a.results && s.id in b.results && a.results[s.id] == b.results[s.id]
  {
    assert NodeEvaluated(w, rq, s, a) && NodeEvaluated(w, rq, s, b);
  }

  lemma SucceedsInOrder(w: World, rq: Request, order: seq<string>, sc: Scratch)
    requires WellPosed(w, rq) && IsTopoOrder(Deps(rq.template.nodes), order)
    requires Evaluates(w, rq, rq.template.nodes, sc) && AllSucceed(w, rq.template.nodes, sc)
    ensures AllSucceed(w, SpecsIn(rq.template.nodes, order), ScratchAll(w, rq, SpecsIn(rq.template.nodes, order)))
  {
    hide Ordered, NoDuplicates, DepsOf, WellPosed, Evaluates, ProperIds, SpecsIn, ScratchAll;
    var specs := SpecsIn(rq.template.nodes, order);
    WellPosedIds(w, rq);
    SolutionIsScratch(w, rq, order, sc);
    forall s | s in specs ensures NodeSucceeds(w, s, ScratchAll(w, rq, specs)) {
      SameNodes(rq.template.nodes, order, s);
      SolutionResult(w, rq, specs, sc, ScratchAll(w, rq, specs), s);
      assert NodeSucceeds(w, s, sc);
    }
  }

  lemma WellPosedIds(w: World, rq: Request)
    requires WellPosed(w, rq)
    ensures ProperIds(rq.template.nodes)
  {
  }

  lemma RunIsGrounded(w: World, rq: Request, order: seq<string>, store: Store)
    requires WellPosed(w, rq) && IsTopoOrder(Deps(rq.template.nodes), order)
    requires PlanAll(w, rq, store, SpecsIn(rq.template.nodes, order)).Some?
    ensures var specs := SpecsIn(rq.template.nodes, order);
      Grounded(w, rq, store, specs, order, PlanAll(w, rq, store, specs).value)
  {
    hide Ordered, NoDuplicates, DepsOf, WellPosed, ProperIds, PlanAll, Lists, Unshadowed, NoSelfFeed;
    var specs := SpecsIn(rq.template.nodes, order);
    WellPosedIds(w, rq);
    SpecsWellPosed(w, rq, order);
    PlanRunnable(w, rq, order, store);
    OrderLists(rq.template.nodes, order);
    forall i | 0 <= i < |specs| ensures NoSelfFeed(w, rq.job, specs[i]) {
      assert specs[i] in specs;
    }
  }

  /** No node ever reads a placeholder. In every run, whatever fails later, when the turn of a must-run node
      comes, each of its inputs is an external file or an output of an entry that is committed and has it. */
  lemma NoPlaceholderIsRead(w: World, env: Env, rq: Request, order: seq<string>, store: Store, st: PlanState, i: nat, p: string)
    requires WellPosed(w, rq) && IsTopoOrder(Deps(rq.template.nodes), order) && Sound(w, store)
    requires PlanAll(w, rq, store, SpecsIn(rq.template.nodes, order)) == Some(st) && i < |order|
    requires var specs, must := SpecsIn(rq.template.nodes, order), MustRun(rq, st.plan, order);
      && ExecAll(w, env, rq, st.plan, must, specs[..i], ExecState(st.refs, store, [], [])).Go?
      && specs[i].id in must && specs[i].kind in w.registry && p in w.registry[specs[i].kind].inputs
    ensures var specs, must := SpecsIn(rq.template.nodes, order), MustRun(rq, st.plan, order);
      specs[i].id in st.plan &&
      PortReadable(rq, st, specs[i], ExecAll(w, env, rq, st.plan, must, specs[..i], ExecState(st.refs, store, [], [])).state, p)
  {
    hide Ordered, NoDuplicates, DepsOf, WellPosed, PlanAll, ExecAll, Sound, MustRunFrom, PortReadable, Grounded,
      ExecInv, Runnable;
    var specs, must := SpecsIn(rq.template.nodes, order), MustRun(rq, st.plan, order);
    RunIsGrounded(w, rq, order, store);
    PlanRunnable(w, rq, order, store);
    RunnableTake(w, rq, store, specs, AllOutputKeys(w, specs), st, i);
    OutputKeysGrow(w, specs, i);
    PassIsOk(w, env, rq, store, specs[..i], AllOutputKeys(w, specs), st, must);
    AllReadable(w, rq, store, specs, order, st, i,
                ExecAll(w, env, rq, st.plan, must, specs[..i], ExecState(st.refs, store, [], [])).state, p);
  }

  lemma RunIsPromising(w: World, rq: Request, order: seq<string>, store: Store, sc: Scratch)
    requires WellPosed(w, rq) && IsTopoOrder(Deps(rq.template.nodes), order)
    requires Evaluates(w, rq, rq.template.nodes, sc) && AllSucceed(w, rq.template.nodes, sc)
    ensures var specs := SpecsIn(rq.template.nodes, order);
      && PlanAll(w, rq, store, specs).Some?
      && Promising(w, rq, store, specs, order, PlanAll(w, rq, store, specs).value)
  {
    hide Ordered, NoDuplicates, DepsOf, WellPosed, Evaluates, ProperIds, ScratchAll, PlanAll, Lists, Unshadowed, NoSelfFeed, Grounded;
    var specs := SpecsIn(rq.template.nodes, order);
    WellPosedIds(w, rq);
    SpecsWellPosed(w, rq, order);
    SucceedsInOrder(w, rq, order, sc);
    PlanSucceeds(w, rq, store, specs);
    PlanRunnable(w, rq, order, store);
    RunIsGrounded(w, rq, order, store);
    PlanMatchesScratch(w, rq, store, specs, AllOutputKeys(w, specs));
    var st := PlanAll(w, rq, store, specs).value;
    forall i | 0 <= i < |specs| ensures Sure(w, rq, st, specs[i]) {
      assert specs[i] in specs;
      assert NodeMatches(w, specs[i], st.plan, ScratchAll(w, rq, specs));
      assert NodeSucceeds(w, specs[i], ScratchAll(w, rq, specs));
    }
  }

  /** Execution brings no external ref into play, and neither does planning. */
  ghost predicate OutsideFrom(planned: map<string, Ref>, live: map<string, Ref>) {
    forall k :: k in live && live[k].Outside? ==> k in planned && planned[k] == live[k]
  }

  lemma {:induction false} PlannedOutside(w: World, rq: Request, store: Store, specs: seq<NodeSpec>)
    requires PlanAll(w, rq, store, specs).Some?
    ensures OutsideFrom(ExternalRefs(rq.job), PlanAll(w, rq, store, specs).value.refs)
  {
    if |specs| > 0 {
      PlannedOutside(w, rq, store, specs[..|specs| - 1]);
    }
  }

  lemma {:induction false} LiveOutside(w: World, env: Env, rq: Request, plan: map<string, NodePlan>, must: set<string>,
                                       specs: seq<NodeSpec>, start: ExecState)
    ensures OutsideFrom(start.refs, ExecAll(w, env, rq, plan, must, specs, start).state.refs)
  {
    if |specs| > 0 {
      LiveOutside(w, env, rq, plan, must, specs[..|specs| - 1], start);
      var r := ExecAll(w, env, rq, plan, must, specs[..|specs| - 1], start);
      if r.Go? {
        NodeAddsOutputs(w, env, rq, plan, must, specs[|specs| - 1], r.state);
      }
    }
  }

  lemma OutputsAdded(refs: map<string, Ref>, nid: string, ports: set<string>, h: Hash)
    ensures OutsideFrom(refs, refs) && OutsideFrom(refs, refs + OutputRefs(nid, ports, h))
  {
  }

  lemma MissRefs(w: World, env: Env, rq: Request, s: NodeSpec, p: NodePlan, e: ExecState)
    ensures var refs := RunMiss(w, env, rq, s, p, e).state.refs;
      refs == e.refs || refs == e.refs + OutputRefs(s.id, p.cls.outputs, p.h)
  {
    hide Resolve, RunNode, NodeHash, OutputRefs, NoiseEvents;
  }

  lemma NodeAddsOutputs(w: World, env: Env, rq: Request, plan: map<string, NodePlan>, must: set<string>, s: NodeSpec, e: ExecState)
    ensures OutsideFrom(e.refs, ExecNode(w, env, rq, plan, must, s, e).state.refs)
  {
    hide OutsideFrom, RunMiss, OutputRefs;
    if s.id in plan {
      OutputsAdded(e.refs, s.id, plan[s.id].cls.outputs, plan[s.id].h);
      MissRefs(w, env, rq, s, plan[s.id], e);
    } else {
      OutputsAdded(e.refs, s.id, {}, Hash("", 0, map[], map[], map[]));
    }
  }

  lemma PublicIsOk(w: World, rq: Request, order: seq<string>, st: PlanState, refs: map<string, Ref>, finished: set<string>, name: string)
    requires IsTopoOrder(Deps(rq.template.nodes), order)
    requires PlannedKeys(w, rq, SpecsIn(rq.template.nodes, order), st)
    requires Ids(SpecsIn(rq.template.nodes, order)) <= Ids(rq.template.nodes)
    requires AllOutputKeys(w, SpecsIn(rq.template.nodes, order)) == AllOutputKeys(w, rq.template.nodes)
    requires name in rq.template.outputs && OutputNamed(w, rq, rq.template.outputs[name])
    requires RefsAgree(rq.job, finished, st.refs, refs)
    requires OutsideFrom(ExternalRefs(rq.job), st.refs) && OutsideFrom(st.refs, refs)
    ensures PublicOk(refs, st.plan, MustRun(rq, st.plan, order), rq.template.outputs[name])
  {
    if NodeOf(rq.template.outputs[name]) in st.plan {
      SourcesProvided(rq, st.plan, order, name);
    }
  }

  lemma AllPublic(w: World, env: Env, rq: Request, order: seq<string>, store: Store, st: PlanState)
    requires WellPosed(w, rq) && IsTopoOrder(Deps(rq.template.nodes), order) && Sound(w, store) && OutputsNamed(w, rq)
    requires PlanAll(w, rq, store, SpecsIn(rq.template.nodes, order)) == Some(st)
    requires PassOf(w, env, rq, order, store, st).Go?
    ensures AllPublicOk(rq.template.outputs, PassOf(w, env, rq, order, store, st).state.refs, st.plan, MustRun(rq, st.plan, order))
  {
    hide Ordered, NoDuplicates, DepsOf, WellPosed, PlanAll, ExecAll, Sound, PublicOk, MustRunFrom, OutputNamed,
      RefsAgree, OutsideFrom, PlannedNode, Available, NodeMatches, SpecsIn;
    var specs := SpecsIn(rq.template.nodes, order);
    var refs := PassOf(w, env, rq, order, store, st).state.refs;
    WellPosedIds(w, rq);
    ReturnedInv(w, env, rq, order, store, st);
    SpecsWellPosed(w, rq, order);
    SpecsOrdered(rq.template.nodes, order);
    PlannedOutside(w, rq, store, specs);
    LiveOutside(w, env, rq, st.plan, MustRun(rq, st.plan, order), specs, ExecState(st.refs, store, [], []));
    forall name | name in rq.template.outputs
      ensures PublicOk(refs, st.plan, MustRun(rq, st.plan, order), rq.template.outputs[name])
    {
      PublicIsOk(w, rq, order, st, refs, AllOutputKeys(w, specs), name);
    }
  }

  /** Nothing is lost by being lazy. From any sound cache, whatever is in it: if every node succeeds when
      evaluated from scratch and nobody cancels, the run returns. */
  lemma RunReturns(w: World, env: Env, rq: Request, order: seq<string>, store: Store, rep: Report, sc: Scratch)
    requires WellPosed(w, rq) && IsTopoOrder(Deps(rq.template.nodes), order) && Sound(w, store)
    requires Evaluates(w, rq, rq.template.nodes, sc) && AllSucceed(w, rq.template.nodes, sc)
    requires OutputsNamed(w, rq) && Undisturbed(env) && IsRun(w, env, rq, order, store, rep)
    ensures rep.outcome.Returned?
  {
    hide Ordered, NoDuplicates, DepsOf, WellPosed, PlanAll, ExecAll, Sound, AllPublicOk, MustRunFrom, SpecsIn,
      Evaluates, AllSucceed, OutputsNamed, Undisturbed, Promising;
    var specs := SpecsIn(rq.template.nodes, order);
    RunIsPromising(w, rq, order, store, sc);
    var st := PlanAll(w, rq, store, specs).value;
    PassGoes(w, env, rq, store, specs, order, st, |specs|);
    assert specs[..|specs|] == specs;
    AllPublic(w, env, rq, order, store, st);
  }
}
