/** The execution pass keeps the cache sound, and a run that returns has the from-scratch outputs. */
module Execution {
  import opened Models
  import opened Wrappers
  import opened Topology
  import opened Runtime
  import opened Incremental

  /** Live refs are the planned ones, except where a finished node replaced an external input of the same name. */
  ghost predicate RefsAgree(job: Job, finished: set<string>, planned: map<string, Ref>, live: map<string, Ref>) {
    && live.Keys == planned.Keys
    && (forall k :: k in planned ==> live[k] == planned[k] || (k in job.inputs && k in finished))
  }

  /** The entry of `s` is there with all its outputs, and the refs point into it. */
  ghost predicate Available(s: NodeSpec, p: NodePlan, e: ExecState) {
    && p.h in e.store && p.cls.outputs <= e.store[p.h].Keys
    && (forall q :: q in p.cls.outputs ==> Key(s.id, q) in e.refs && e.refs[Key(s.id, q)] == Output(p.h, q))
  }

  /** A node that was replayed or run, as opposed to skipped. */
  predicate Provided(plan: map<string, NodePlan>, must: set<string>, nid: string) {
    IsHit(plan, nid) || nid in must
  }

  /** Every started node was must-run, and its key recomputed from its real inputs is the planned one. */
  ghost predicate ExecutedAsPlanned(plan: map<string, NodePlan>, must: set<string>, executed: seq<(string, Hash)>) {
    forall x :: x in executed ==> x.0 in plan && x.0 in must && !plan[x.0].isHit && x.1 == plan[x.0].h
  }

  /** An unforced pass loses no entry. */
  ghost predicate Grown(rq: Request, store: Store, e: ExecState) {
    !rq.force ==> store.Keys <= e.store.Keys
  }

  /** What the safety of the next step needs. */
  ghost predicate Going(w: World, rq: Request, done: seq<NodeSpec>, st: PlanState, must: set<string>, e: ExecState) {
    && Sound(w, e.store)
    && RefsAgree(rq.job, AllOutputKeys(w, done), st.refs, e.refs)
    && ExecutedAsPlanned(st.plan, must, e.executed)
  }

  ghost predicate ExecInv(w: World, rq: Request, store: Store, done: seq<NodeSpec>, st: PlanState, must: set<string>, e: ExecState)
  {
    && Sound(w, e.store)
    && Grown(rq, store, e)
    && RefsAgree(rq.job, AllOutputKeys(w, done), st.refs, e.refs)
    && (forall s :: s in done ==> s.id in st.plan && (Provided(st.plan, must, s.id) ==> Available(s, st.plan[s.id], e)))
    && ExecutedAsPlanned(st.plan, must, e.executed)
  }

  /** A node resolves to the same inputs in the execution pass as in the plan. */
  lemma LiveResolve(w: World, rq: Request, done: seq<NodeSpec>, s: NodeSpec, st: PlanState, live: map<string, Ref>)
    requires s.kind in w.registry
    requires DotFreeIds(done) && DotFree(s.id) && s.id !in Ids(done)
    requires Unshadowed(w, rq.job, s, AllOutputKeys(w, done))
    requires RefsAgree(rq.job, AllOutputKeys(w, done), st.refs, live)
    ensures Resolve(s, w.registry[s.kind], live) == Resolve(s, w.registry[s.kind], st.refs)
  {
    var cls := w.registry[s.kind];
    forall p | p in cls.inputs && SourceKey(s, p) in st.refs
      ensures live[SourceKey(s, p)] == st.refs[SourceKey(s, p)]
    {
      if p in s.edges {
        assert Wired(w, s, p);
      } else {
        ForeignKey(w, done, s.id, p);
      }
    }
    ResolveAgrees(s, cls, live, st.refs);
  }

  lemma ReadIsDenotation(w: World, store: Store, r: Ref)
    requires Sound(w, store) && Read(store, r).Some?
    ensures DenoteInput(w, KeyInputOf(r)) == Read(store, r)
  {
  }

  /** Running a node on a sound cache produces what its key denotes. */
  lemma RunIsDenotation(w: World, store: Store, p: NodePlan, inputs: map<string, Ref>)
    requires Sound(w, store)
    requires p.h == NodeHash(w, p.cls, inputs, p.params)
    requires RunNode(w, p, p.h, store, inputs).Some?
    ensures Denote(w, p.h) == RunNode(w, p, p.h, store, inputs)
  {
    forall port | port in inputs ensures DenoteInput(w, p.h.inputs[port]) == Read(store, inputs[port]) {
      ReadIsDenotation(w, store, inputs[port]);
    }
    assert InputsDenote(w, p.h);
    var denoted := DenotedInputs(w, p.h);
    var read := map port | port in inputs :: Read(store, inputs[port]).value;
    assert denoted == read;
  }

  lemma SoundSubset(w: World, store: Store, h: Hash)
    requires Sound(w, store)
    ensures Sound(w, store - {h})
  {
  }

  lemma SoundCommit(w: World, store: Store, h: Hash, outputs: map<string, Content>)
    requires Sound(w, store) && Denote(w, h) == Some(outputs)
    ensures Sound(w, store[h := outputs])
  {
  }

  function Reserved(rq: Request, p: NodePlan, e: ExecState): Store {
    if rq.force then e.store - {p.h} else e.store
  }

  /** A must-run node leaves the cache as it was, or its entry reserved, wiped or committed. */
  lemma RunMissStore(w: World, env: Env, rq: Request, s: NodeSpec, p: NodePlan, e: ExecState, inputs: map<string, Ref>)
    requires Resolve(s, p.cls, e.refs) == Some(inputs)
    ensures var st' := RunMiss(w, env, rq, s, p, e).state;
      var produced := RunNode(w, p, p.h, Reserved(rq, p, e), inputs);
      && st'.executed == e.executed + (if env.noRoom(s.id) then [] else [(s.id, NodeHash(w, p.cls, inputs, p.params))])
      && (st'.store == e.store || st'.store == Reserved(rq, p, e) || st'.store == Reserved(rq, p, e) - {p.h}
          || (produced.Some? && st'.store == Reserved(rq, p, e)[p.h := produced.value]))
  {
    hide NodeHash, RunNode, NoiseEvents;
  }

  /** However a must-run node ends, the cache stays sound. */
  lemma RunMissSound(w: World, env: Env, rq: Request, s: NodeSpec, p: NodePlan, e: ExecState, inputs: map<string, Ref>)
    requires Sound(w, e.store)
    requires Resolve(s, p.cls, e.refs) == Some(inputs) && p.h == NodeHash(w, p.cls, inputs, p.params)
    ensures Sound(w, RunMiss(w, env, rq, s, p, e).state.store)
    ensures RunMiss(w, env, rq, s, p, e).state.executed == e.executed + if env.noRoom(s.id) then [] else [(s.id, p.h)]
  {
    var reserved := Reserved(rq, p, e);
    RunMissStore(w, env, rq, s, p, e, inputs);
    SoundSubset(w, e.store, p.h);
    SoundSubset(w, reserved, p.h);
    var produced := RunNode(w, p, p.h, reserved, inputs);
    if produced.Some? {
      RunIsDenotation(w, reserved, p, inputs);
      SoundCommit(w, reserved, p.h, produced.value);
    }
  }

  lemma ExecutedOneMore(plan: map<string, NodePlan>, must: set<string>, executed: seq<(string, Hash)>, nid: string)
    requires ExecutedAsPlanned(plan, must, executed)
    requires nid in plan && nid in must && !plan[nid].isHit
    ensures ExecutedAsPlanned(plan, must, executed + [(nid, plan[nid].h)])
  {
  }

  lemma RunMissSafe(w: World, env: Env, rq: Request, store: Store, done: seq<NodeSpec>, s: NodeSpec, st: PlanState,
                    must: set<string>, e: ExecState)
    requires PlannedNode(w, rq, store, s, st)
    requires DotFreeIds(done) && DotFree(s.id) && s.id !in Ids(done)
    requires Unshadowed(w, rq.job, s, AllOutputKeys(w, done))
    requires Going(w, rq, done, st, must, e) && s.id in must && !st.plan[s.id].isHit
    ensures Sound(w, RunMiss(w, env, rq, s, st.plan[s.id], e).state.store)
    ensures ExecutedAsPlanned(st.plan, must, RunMiss(w, env, rq, s, st.plan[s.id], e).state.executed)
  {
    LiveResolve(w, rq, done, s, st, e.refs);
    RunMissSound(w, env, rq, s, st.plan[s.id], e, Resolve(s, st.plan[s.id].cls, e.refs).value);
    ExecutedOneMore(st.plan, must, e.executed, s.id);
  }

  /** Publishing one node on a sound cache that lost nothing keeps another node available, even under the same key. */
  lemma KeepsAvailable(w: World, sid: string, ports: set<string>, h: Hash, e: ExecState, e': ExecState, t: NodeSpec, q: NodePlan)
    requires Sound(w, e.store) && Sound(w, e'.store) && e.store.Keys <= e'.store.Keys
    requires e'.refs == e.refs + OutputRefs(sid, ports, h)
    requires Available(t, q, e) && DotFree(sid) && DotFree(t.id) && sid != t.id
    ensures Available(t, q, e')
  {
    assert Denote(w, q.h) == Some(e.store[q.h]) == Some(e'.store[q.h]);
    forall port | port in q.cls.outputs ensures e'.refs[Key(t.id, port)] == Output(q.h, port) {
      OtherKey(sid, ports, t.id, port);
    }
  }

  lemma OwnOutputs(nid: string, ports: set<string>, h: Hash, refs: map<string, Ref>)
    ensures forall q :: q in ports ==>
      Key(nid, q) in refs + OutputRefs(nid, ports, h) && (refs + OutputRefs(nid, ports, h))[Key(nid, q)] == Output(h, q)
  {
    forall q | q in ports ensures PortIn(nid, Key(nid, q)) == q {
    }
  }

  /** Publishing the outputs of `s` keeps the refs in agreement with the plan. */
  lemma PublishAgrees(w: World, rq: Request, store: Store, done: seq<NodeSpec>, s: NodeSpec, st: PlanState, live: map<string, Ref>)
    requires PlannedNode(w, rq, store, s, st)
    requires OutputKeys(s.id, OutputsOf(w, s)) <= st.refs.Keys
    requires RefsAgree(rq.job, AllOutputKeys(w, done), st.refs, live)
    ensures RefsAgree(rq.job, AllOutputKeys(w, done) + OutputKeys(s.id, OutputsOf(w, s)), st.refs,
                      live + OutputRefs(s.id, st.plan[s.id].cls.outputs, st.plan[s.id].h))
  {
    var p := st.plan[s.id];
    var live' := live + OutputRefs(s.id, p.cls.outputs, p.h);
    forall k | k in st.refs && !(k in rq.job.inputs && k in AllOutputKeys(w, done) + OutputKeys(s.id, OutputsOf(w, s)))
      ensures live'[k] == st.refs[k]
    {
      if k in OutputKeys(s.id, p.cls.outputs) {
        var q :| q in p.cls.outputs && k == Key(s.id, q);
        OwnOutputs(s.id, p.cls.outputs, p.h, live);
        assert OutputsPlanned(w, rq.job, s, st);
      }
    }
  }

  // ---------------------------------------------------------------- one step, then all of them

  lemma HitAvailable(env: Env, s: NodeSpec, p: NodePlan, e: ExecState)
    requires HitNode(env, s.id, p, e).Go?
    ensures Available(s, p, HitNode(env, s.id, p, e).state)
  {
    OwnOutputs(s.id, p.cls.outputs, p.h, e.refs);
  }

  lemma RunMissAvailable(w: World, env: Env, rq: Request, s: NodeSpec, p: NodePlan, e: ExecState)
    requires RunMiss(w, env, rq, s, p, e).Go?
    ensures Available(s, p, RunMiss(w, env, rq, s, p, e).state)
    ensures RunMiss(w, env, rq, s, p, e).state.refs == e.refs + OutputRefs(s.id, p.cls.outputs, p.h)
    ensures e.store.Keys <= RunMiss(w, env, rq, s, p, e).state.store.Keys
  {
    OwnOutputs(s.id, p.cls.outputs, p.h, e.refs);
  }

  /** The safety half of the invariant, which also holds where the pass stops. */
  ghost predicate Safe(w: World, st: PlanState, must: set<string>, e: ExecState) {
    Sound(w, e.store) && ExecutedAsPlanned(st.plan, must, e.executed)
  }

  lemma StepSafe(w: World, env: Env, rq: Request, store: Store, done: seq<NodeSpec>, s: NodeSpec, st: PlanState,
                 must: set<string>, e: ExecState)
    requires PlannedNode(w, rq, store, s, st)
    requires DotFreeIds(done) && DotFree(s.id) && s.id !in Ids(done)
    requires Unshadowed(w, rq.job, s, AllOutputKeys(w, done))
    requires Going(w, rq, done, st, must, e)
    ensures Safe(w, st, must, ExecNode(w, env, rq, st.plan, must, s, e).state)
  {
    var p := st.plan[s.id];
    if !env.cancelBefore(s.id) && !p.isHit && s.id in must {
      RunMissSafe(w, env, rq, store, done, s, st, must, e);
    }
  }

  lemma StepRefs(w: World, env: Env, rq: Request, store: Store, done: seq<NodeSpec>, s: NodeSpec, st: PlanState,
                 must: set<string>, e: ExecState)
    requires PlannedNode(w, rq, store, s, st) && OutputKeys(s.id, OutputsOf(w, s)) <= st.refs.Keys
    requires RefsAgree(rq.job, AllOutputKeys(w, done), st.refs, e.refs)
    requires ExecNode(w, env, rq, st.plan, must, s, e).Go?
    ensures RefsAgree(rq.job, AllOutputKeys(w, done) + OutputKeys(s.id, OutputsOf(w, s)), st.refs,
                      ExecNode(w, env, rq, st.plan, must, s, e).state.refs)
  {
    var p := st.plan[s.id];
    PublishAgrees(w, rq, store, done, s, st, e.refs);
    if !p.isHit && s.id in must {
      RunMissAvailable(w, env, rq, s, p, e);
    }
  }

  lemma StepGrows(w: World, env: Env, rq: Request, store: Store, s: NodeSpec, st: PlanState, must: set<string>, e: ExecState)
    requires s.id in st.plan && ExecNode(w, env, rq, st.plan, must, s, e).Go? && Grown(rq, store, e)
    ensures Grown(rq, store, ExecNode(w, env, rq, st.plan, must, s, e).state)
  {
    if !st.plan[s.id].isHit && s.id in must {
      RunMissAvailable(w, env, rq, s, st.plan[s.id], e);
    }
  }

  lemma StepProvides(w: World, env: Env, rq: Request, s: NodeSpec, st: PlanState, must: set<string>, e: ExecState)
    requires s.id in st.plan && ExecNode(w, env, rq, st.plan, must, s, e).Go? && Provided(st.plan, must, s.id)
    ensures Available(s, st.plan[s.id], ExecNode(w, env, rq, st.plan, must, s, e).state)
  {
    if IsHit(st.plan, s.id) {
      HitAvailable(env, s, st.plan[s.id], e);
    } else {
      RunMissAvailable(w, env, rq, s, st.plan[s.id], e);
    }
  }

  lemma StepKeeps(w: World, env: Env, rq: Request, s: NodeSpec, st: PlanState, must: set<string>, e: ExecState,
                  t: NodeSpec, q: NodePlan)
    requires s.id in st.plan && ExecNode(w, env, rq, st.plan, must, s, e).Go?
    requires Sound(w, e.store) && Sound(w, ExecNode(w, env, rq, st.plan, must, s, e).state.store)
    requires Available(t, q, e) && DotFree(s.id) && DotFree(t.id) && s.id != t.id
    ensures Available(t, q, ExecNode(w, env, rq, st.plan, must, s, e).state)
  {
    var p := st.plan[s.id];
    if p.isHit {
      KeepsAvailable(w, s.id, p.cls.outputs, p.h, e, HitNode(env, s.id, p, e).state, t, q);
    } else if s.id in must {
      RunMissAvailable(w, env, rq, s, p, e);
      KeepsAvailable(w, s.id, p.cls.outputs, p.h, e, RunMiss(w, env, rq, s, p, e).state, t, q);
    }
  }

  lemma StepAvailable(w: World, env: Env, rq: Request, done: seq<NodeSpec>, s: NodeSpec, st: PlanState,
                      must: set<string>, e: ExecState, t: NodeSpec)
    requires s.id in st.plan && ExecNode(w, env, rq, st.plan, must, s, e).Go?
    requires DotFreeIds(done) && DotFree(s.id) && s.id !in Ids(done)
    requires Sound(w, e.store) && Sound(w, ExecNode(w, env, rq, st.plan, must, s, e).state.store)
    requires t in done ==> t.id in st.plan && (Provided(st.plan, must, t.id) ==> Available(t, st.plan[t.id], e))
    requires t in done || t == s
    requires Provided(st.plan, must, t.id)
    ensures t.id in st.plan && Available(t, st.plan[t.id], ExecNode(w, env, rq, st.plan, must, s, e).state)
  {
    if t in done {
      assert t.id in Ids(done);
      StepKeeps(w, env, rq, s, st, must, e, t, st.plan[t.id]);
    } else {
      StepProvides(w, env, rq, s, st, must, e);
    }
  }

  lemma StepInv(w: World, env: Env, rq: Request, store: Store, specs: seq<NodeSpec>, done: seq<NodeSpec>, s: NodeSpec,
                st: PlanState, must: set<string>, e: ExecState, e': ExecState)
    requires |specs| > 0 && done == specs[..|specs| - 1] && s == specs[|specs| - 1]
    requires PlannedNode(w, rq, store, s, st) && OutputKeys(s.id, OutputsOf(w, s)) <= st.refs.Keys
    requires DotFreeIds(done) && DotFree(s.id) && s.id !in Ids(done)
    requires Unshadowed(w, rq.job, s, AllOutputKeys(w, done))
    requires ExecInv(w, rq, store, done, st, must, e)
    requires ExecNode(w, env, rq, st.plan, must, s, e) == Go(e')
    ensures ExecInv(w, rq, store, specs, st, must, e')
  {
    StepSafe(w, env, rq, store, done, s, st, must, e);
    StepRefs(w, env, rq, store, done, s, st, must, e);
    StepGrows(w, env, rq, store, s, st, must, e);
    InitOf(specs, |specs| - 1);
    forall t | t in specs && Provided(st.plan, must, t.id)
      ensures t.id in st.plan && Available(t, st.plan[t.id], e')
    {
      StepAvailable(w, env, rq, done, s, st, must, e, t);
    }
  }

  ghost predicate PassOk(w: World, rq: Request, store: Store, done: seq<NodeSpec>, st: PlanState, must: set<string>, r: Step) {
    Safe(w, st, must, r.state) && (r.Go? ==> ExecInv(w, rq, store, done, st, must, r.state))
  }

  lemma PassStep(w: World, env: Env, rq: Request, store: Store, specs: seq<NodeSpec>, done: seq<NodeSpec>, s: NodeSpec,
                 st: PlanState, must: set<string>, r: Step)
    requires |specs| > 0 && done == specs[..|specs| - 1] && s == specs[|specs| - 1]
    requires PlannedNode(w, rq, store, s, st) && OutputKeys(s.id, OutputsOf(w, s)) <= st.refs.Keys
    requires DotFreeIds(done) && DotFree(s.id) && s.id !in Ids(done)
    requires Unshadowed(w, rq.job, s, AllOutputKeys(w, done))
    requires PassOk(w, rq, store, done, st, must, r)
    ensures PassOk(w, rq, store, specs, st, must, ExecNext(w, env, rq, st.plan, must, s, r))
  {
    if r.Go? {
      StepSafe(w, env, rq, store, done, s, st, must, r.state);
      var r' := ExecNode(w, env, rq, st.plan, must, s, r.state);
      if r'.Go? {
        StepInv(w, env, rq, store, specs, done, s, st, must, r.state, r'.state);
      }
    }
  }

  lemma PassStart(w: World, rq: Request, store: Store, st: PlanState, must: set<string>)
    requires Sound(w, store)
    ensures PassOk(w, rq, store, [], st, must, Go(ExecState(st.refs, store, [], [])))
  {
  }

  /** A stretch of the execution order whose nodes are planned. */
  ghost predicate Runnable(w: World, rq: Request, store: Store, specs: seq<NodeSpec>, outputs: set<string>, st: PlanState) {
    && ProperIds(specs)
    && AllOutputKeys(w, specs) <= outputs <= st.refs.Keys
    && (forall s :: s in specs ==> PlannedNode(w, rq, store, s, st) && Unshadowed(w, rq.job, s, outputs))
  }

  lemma RunnableInit(w: World, rq: Request, store: Store, specs: seq<NodeSpec>, outputs: set<string>, st: PlanState)
    requires |specs| > 0 && Runnable(w, rq, store, specs, outputs, st)
    ensures Runnable(w, rq, store, specs[..|specs| - 1], outputs, st)
  {
    InitOf(specs, |specs| - 1);
    ProperInit(specs, |specs| - 1);
  }

  lemma RunnableLast(w: World, rq: Request, store: Store, specs: seq<NodeSpec>, outputs: set<string>, st: PlanState)
    requires |specs| > 0 && Runnable(w, rq, store, specs, outputs, st)
    ensures var done, s := specs[..|specs| - 1], specs[|specs| - 1];
      && PlannedNode(w, rq, store, s, st) && OutputKeys(s.id, OutputsOf(w, s)) <= st.refs.Keys
      && DotFreeIds(done) && DotFree(s.id) && s.id !in Ids(done)
      && Unshadowed(w, rq.job, s, AllOutputKeys(w, done))
  {
    ProperInit(specs, |specs| - 1);
  }

  /** What the execution pass does, from the planned refs and a sound cache. */
  lemma {:induction false} PassIsOk(w: World, env: Env, rq: Request, store: Store, specs: seq<NodeSpec>, outputs: set<string>,
                                    st: PlanState, must: set<string>)
    requires Runnable(w, rq, store, specs, outputs, st) && Sound(w, store)
    ensures PassOk(w, rq, store, specs, st, must,
                   ExecAll(w, env, rq, st.plan, must, specs, ExecState(st.refs, store, [], [])))
  {
    if |specs| == 0 {
      PassStart(w, rq, store, st, must);
    } else {
      var done, s := specs[..|specs| - 1], specs[|specs| - 1];
      RunnableInit(w, rq, store, specs, outputs, st);
      RunnableLast(w, rq, store, specs, outputs, st);
      PassIsOk(w, env, rq, store, done, outputs, st, must);
      PassStep(w, env, rq, store, specs, done, s, st, must,
               ExecAll(w, env, rq, st.plan, must, done, ExecState(st.refs, store, [], [])));
    }
  }
}
