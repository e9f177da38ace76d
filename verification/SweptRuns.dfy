/** A run while sweeps take entries from its cache (server/runtime.py, server/jobs.py, server/storage.py): the sweep
    before a node runs, and those of the job's monitor. They spare what the run has marked: the entries of the nodes it
    has run and of their inputs. Entries of replayed hits are not marked before a node reads them. */
module SweptRuns {
  import opened Models
  import opened Wrappers
  import opened Topology
  import opened Runtime
  import opened Incremental
  import opened FromScratch
  import opened Execution
  import opened RunCorrectness
  import opened Completion
  import DottedIds

  // ---------------------------------------------------------------- the pass with sweeps

  /** The entries that a node under key `h` reads. */
  function InputHashes(h: Hash): set<Hash> {
    set p | p in h.inputs && h.inputs[p].KOutput? :: h.inputs[p].hash
  }

  /** What the run has marked so far. */
  function Marked(executed: seq<(string, Hash)>): set<Hash> {
    if |executed| == 0 then {} else
    var h := executed[|executed| - 1].1;
    Marked(executed[..|executed| - 1]) + ({h} + InputHashes(h))
  }

  /** The state after a sweep that would take the entries `taken`. */
  function Lose(e: ExecState, taken: set<Hash>): ExecState {
    e.(store := e.store - (taken - Marked(e.executed)))
  }

  function LoseNext(r: Step, taken: set<Hash>): Step {
    if r.Go? then Go(Lose(r.state, taken)) else r
  }

  /** Pass 3 over `specs`; `taken(i)` is swept when i nodes are done. */
  function SweptAll(w: World, env: Env, rq: Request, plan: map<string, NodePlan>, must: set<string>,
                    specs: seq<NodeSpec>, taken: nat -> set<Hash>, st: ExecState): Step {
    if |specs| == 0 then LoseNext(Go(st), taken(0)) else
    var n := |specs| - 1;
    LoseNext(ExecNext(w, env, rq, plan, must, specs[n], SweptAll(w, env, rq, plan, must, specs[..n], taken, st)), taken(n + 1))
  }

  // ---------------------------------------------------------------- what every pass keeps

  /** The key of `s` denotes all its outputs, and the refs name them. */
  ghost predicate Shown(w: World, s: NodeSpec, p: NodePlan, e: ExecState) {
    && Denote(w, p.h).Some? && p.cls.outputs <= Denote(w, p.h).value.Keys
    && (forall q :: q in p.cls.outputs ==> Key(s.id, q) in e.refs && e.refs[Key(s.id, q)] == Output(p.h, q))
  }

  ghost predicate SweptInv(w: World, rq: Request, done: seq<NodeSpec>, st: PlanState, must: set<string>, e: ExecState) {
    && Going(w, rq, done, st, must, e)
    && Marked(e.executed) <= e.store.Keys
    && (forall s :: s in done ==> s.id in st.plan && (Provided(st.plan, must, s.id) ==> Shown(w, s, st.plan[s.id], e)))
    && (forall s :: s in done && s.id in must && !IsHit(st.plan, s.id) ==> s.id in st.plan && st.plan[s.id].h in Marked(e.executed))
  }

  lemma MarkedMore(executed: seq<(string, Hash)>, x: (string, Hash))
    ensures Marked(executed + [x]) == Marked(executed) + ({x.1} + InputHashes(x.1))
  {
    assert (executed + [x])[..|executed|] == executed;
  }

  lemma LoseKeepsInv(w: World, rq: Request, done: seq<NodeSpec>, st: PlanState, must: set<string>, e: ExecState, taken: set<Hash>)
    requires SweptInv(w, rq, done, st, must, e)
    ensures SweptInv(w, rq, done, st, must, Lose(e, taken))
  {
    hide RefsAgree, ExecutedAsPlanned, AllOutputKeys, Denote, Marked;
    var e' := Lose(e, taken);
    assert forall s :: s in done && Provided(st.plan, must, s.id) ==> Shown(w, s, st.plan[s.id], e');
  }

  /** What a node that ran to its end did. */
  lemma RanToItsEnd(w: World, env: Env, rq: Request, s: NodeSpec, p: NodePlan, e: ExecState)
    requires RunMiss(w, env, rq, s, p, e).Go?
    ensures var e' := RunMiss(w, env, rq, s, p, e).state;
      && Resolve(s, p.cls, e.refs).Some?
      && var inputs := Resolve(s, p.cls, e.refs).value;
      && RunNode(w, p, p.h, Reserved(rq, p, e), inputs).Some?
      && e'.executed == e.executed + [(s.id, NodeHash(w, p.cls, inputs, p.params))]
      && e'.store == Reserved(rq, p, e)[p.h := RunNode(w, p, p.h, Reserved(rq, p, e), inputs).value]
  {
    hide NoiseEvents, OutputRefs, RunNode, NodeHash, Resolve;
  }

  /** A node that ran found its inputs, and both its entry and theirs are there. */
  lemma MissMarks(w: World, env: Env, rq: Request, s: NodeSpec, p: NodePlan, e: ExecState)
    requires RunMiss(w, env, rq, s, p, e).Go? && Marked(e.executed) <= e.store.Keys
    ensures var e' := RunMiss(w, env, rq, s, p, e).state;
      && Resolve(s, p.cls, e.refs).Some?
      && var h := NodeHash(w, p.cls, Resolve(s, p.cls, e.refs).value, p.params);
      && e'.executed == e.executed + [(s.id, h)]
      && (h == p.h ==> Marked(e'.executed) <= e'.store.Keys && h in Marked(e'.executed))
  {
    hide RunMiss, Marked, NodeHash, RunNode, Resolve, InputHashes;
    RanToItsEnd(w, env, rq, s, p, e);
    var inputs := Resolve(s, p.cls, e.refs).value;
    var h := NodeHash(w, p.cls, inputs, p.params);
    MarkedMore(e.executed, (s.id, h));
    InputsThere(w, p, Reserved(rq, p, e), inputs, h);
    assert RunMiss(w, env, rq, s, p, e).state.store.Keys == Reserved(rq, p, e).Keys + {p.h};
  }

  lemma InputsThere(w: World, p: NodePlan, store: Store, inputs: map<string, Ref>, h: Hash)
    requires h == NodeHash(w, p.cls, inputs, p.params) && RunNode(w, p, p.h, store, inputs).Some?
    ensures InputHashes(h) <= store.Keys
  {
    forall x | x in InputHashes(h) ensures x in store {
      var port :| port in h.inputs && h.inputs[port].KOutput? && h.inputs[port].hash == x;
      assert Read(store, inputs[port]).Some?;
    }
  }

  lemma AvailableIsShown(w: World, s: NodeSpec, p: NodePlan, e: ExecState)
    requires Sound(w, e.store) && Available(s, p, e)
    ensures Shown(w, s, p, e)
  {
    assert Denote(w, p.h) == Some(e.store[p.h]);
  }

  lemma ShownStays(w: World, sid: string, ports: set<string>, h: Hash, e: ExecState, e': ExecState, t: NodeSpec, q: NodePlan)
    requires e'.refs == e.refs || e'.refs == e.refs + OutputRefs(sid, ports, h)
    requires Shown(w, t, q, e) && DotFree(sid) && DotFree(t.id) && sid != t.id
    ensures Shown(w, t, q, e')
  {
    hide Denote;
    forall port | port in q.cls.outputs ensures e'.refs[Key(t.id, port)] == Output(q.h, port) {
      OtherKey(sid, ports, t.id, port);
    }
  }

  /** The refs after a step are the ones before it, with or without the outputs of its node. */
  lemma StepAdds(w: World, env: Env, rq: Request, plan: map<string, NodePlan>, must: set<string>, s: NodeSpec, e: ExecState)
    requires s.id in plan && ExecNode(w, env, rq, plan, must, s, e).Go?
    ensures var e' := ExecNode(w, env, rq, plan, must, s, e).state;
      && (e'.refs == e.refs || e'.refs == e.refs + OutputRefs(s.id, plan[s.id].cls.outputs, plan[s.id].h))
      && e.store.Keys <= e'.store.Keys
      && (IsHit(plan, s.id) || s.id !in must ==> e'.store == e.store && e'.executed == e.executed)
  {
    if !IsHit(plan, s.id) && s.id in must {
      RunMissAvailable(w, env, rq, s, plan[s.id], e);
    }
  }

  lemma StepMarks(w: World, env: Env, rq: Request, store: Store, done: seq<NodeSpec>, s: NodeSpec, st: PlanState,
                  must: set<string>, e: ExecState)
    requires PlannedNode(w, rq, store, s, st)
    requires DotFreeIds(done) && DotFree(s.id) && s.id !in Ids(done)
    requires Unshadowed(w, rq.job, s, AllOutputKeys(w, done))
    requires RefsAgree(rq.job, AllOutputKeys(w, done), st.refs, e.refs)
    requires Marked(e.executed) <= e.store.Keys && ExecNode(w, env, rq, st.plan, must, s, e).Go?
    ensures var e' := ExecNode(w, env, rq, st.plan, must, s, e).state;
      && Marked(e.executed) <= Marked(e'.executed) <= e'.store.Keys
      && (s.id in must && !IsHit(st.plan, s.id) ==> st.plan[s.id].h in Marked(e'.executed))
  {
    hide RunMiss, HitNode, Marked, AllOutputKeys, RefsAgree, NodeHash, Unshadowed;
    StepAdds(w, env, rq, st.plan, must, s, e);
    if s.id in must && !IsHit(st.plan, s.id) {
      LiveResolve(w, rq, done, s, st, e.refs);
      MissMarks(w, env, rq, s, st.plan[s.id], e);
      MarkedMore(e.executed, (s.id, st.plan[s.id].h));
    }
  }

  lemma StepShows(w: World, env: Env, rq: Request, done: seq<NodeSpec>, s: NodeSpec, st: PlanState, must: set<string>,
                  e: ExecState, e': ExecState, t: NodeSpec)
    requires s.id in st.plan && ExecNode(w, env, rq, st.plan, must, s, e) == Go(e') && Sound(w, e'.store)
    requires DotFreeIds(done) && DotFree(s.id) && s.id !in Ids(done)
    requires t in done ==> t.id in st.plan && (Provided(st.plan, must, t.id) ==> Shown(w, t, st.plan[t.id], e))
    requires (t in done || t == s) && Provided(st.plan, must, t.id)
    ensures t.id in st.plan && Shown(w, t, st.plan[t.id], e')
  {
    hide ExecNode, Shown, Sound;
    if t in done {
      assert t.id in Ids(done);
      StepAdds(w, env, rq, st.plan, must, s, e);
      ShownStays(w, s.id, st.plan[s.id].cls.outputs, st.plan[s.id].h, e, e', t, st.plan[t.id]);
    } else {
      StepProvides(w, env, rq, s, st, must, e);
      AvailableIsShown(w, s, st.plan[s.id], e');
    }
  }

  lemma StepKeepsSwept(w: World, env: Env, rq: Request, store: Store, specs: seq<NodeSpec>, done: seq<NodeSpec>, s: NodeSpec,
                       st: PlanState, must: set<string>, e: ExecState, e': ExecState)
    requires |specs| > 0 && done == specs[..|specs| - 1] && s == specs[|specs| - 1]
    requires PlannedNode(w, rq, store, s, st) && OutputKeys(s.id, OutputsOf(w, s)) <= st.refs.Keys
    requires DotFreeIds(done) && DotFree(s.id) && s.id !in Ids(done)
    requires Unshadowed(w, rq.job, s, AllOutputKeys(w, done))
    requires SweptInv(w, rq, done, st, must, e)
    requires ExecNode(w, env, rq, st.plan, must, s, e) == Go(e')
    ensures SweptInv(w, rq, specs, st, must, e')
  {
    hide ExecNode, PlannedNode, Unshadowed, RefsAgree, Sound, Shown, Marked;
    StepSafe(w, env, rq, store, done, s, st, must, e);
    StepRefs(w, env, rq, store, done, s, st, must, e);
    StepMarks(w, env, rq, store, done, s, st, must, e);
    InitOf(specs, |specs| - 1);
    PlannedKind(w, rq, store, s, st);
    forall t | t in specs && Provided(st.plan, must, t.id)
      ensures t.id in st.plan && Shown(w, t, st.plan[t.id], e')
    {
      StepShows(w, env, rq, done, s, st, must, e, e', t);
    }
  }

  lemma PlannedKind(w: World, rq: Request, store: Store, s: NodeSpec, st: PlanState)
    requires PlannedNode(w, rq, store, s, st)
    ensures s.id in st.plan
  {
  }

  ghost predicate SweptOk(w: World, rq: Request, done: seq<NodeSpec>, st: PlanState, must: set<string>, r: Step) {
    Safe(w, st, must, r.state) && (r.Go? ==> SweptInv(w, rq, done, st, must, r.state))
  }

  lemma SweptStart(w: World, rq: Request, store: Store, st: PlanState, must: set<string>)
    requires Sound(w, store)
    ensures SweptInv(w, rq, [], st, must, ExecState(st.refs, store, [], []))
  {
  }

  lemma SweptStep(w: World, env: Env, rq: Request, store: Store, specs: seq<NodeSpec>, done: seq<NodeSpec>, s: NodeSpec,
                  st: PlanState, must: set<string>, r: Step, taken: set<Hash>)
    requires |specs| > 0 && done == specs[..|specs| - 1] && s == specs[|specs| - 1]
    requires PlannedNode(w, rq, store, s, st) && OutputKeys(s.id, OutputsOf(w, s)) <= st.refs.Keys
    requires DotFreeIds(done) && DotFree(s.id) && s.id !in Ids(done)
    requires Unshadowed(w, rq.job, s, AllOutputKeys(w, done))
    requires SweptOk(w, rq, done, st, must, r)
    ensures SweptOk(w, rq, specs, st, must, LoseNext(ExecNext(w, env, rq, st.plan, must, s, r), taken))
  {
    hide ExecNode, PlannedNode, Unshadowed, RefsAgree, Sound, Shown, Marked, ExecutedAsPlanned;
    if r.Go? {
      StepSafe(w, env, rq, store, done, s, st, must, r.state);
      var r' := ExecNode(w, env, rq, st.plan, must, s, r.state);
      if r'.Go? {
        StepKeepsSwept(w, env, rq, store, specs, done, s, st, must, r.state, r'.state);
        LoseKeepsInv(w, rq, specs, st, must, r'.state, taken);
      }
    }
  }

  /** Whatever is swept and however the pass ends: every entry that is left holds what its key denotes, what ran was
      planned to run, and while the pass goes on, every marked entry is there. */
  lemma {:induction false} SweptPassIsOk(w: World, env: Env, rq: Request, store: Store, specs: seq<NodeSpec>, outputs: set<string>,
                                         st: PlanState, must: set<string>, taken: nat -> set<Hash>)
    requires Runnable(w, rq, store, specs, outputs, st) && Sound(w, store)
    ensures SweptOk(w, rq, specs, st, must,
                    SweptAll(w, env, rq, st.plan, must, specs, taken, ExecState(st.refs, store, [], [])))
  {
    hide ExecNext, SweptInv, Safe, Runnable, Sound, Lose;
    var start := ExecState(st.refs, store, [], []);
    if |specs| == 0 {
      SweptStart(w, rq, store, st, must);
      LoseKeepsInv(w, rq, [], st, must, start, taken(0));
      assert specs == [];
      InvIsSafe(w, rq, [], st, must, Lose(start, taken(0)));
    } else {
      var done, s := specs[..|specs| - 1], specs[|specs| - 1];
      RunnableInit(w, rq, store, specs, outputs, st);
      RunnableLast(w, rq, store, specs, outputs, st);
      SweptPassIsOk(w, env, rq, store, done, outputs, st, must, taken);
      SweptStep(w, env, rq, store, specs, done, s, st, must,
                SweptAll(w, env, rq, st.plan, must, done, taken, start), taken(|specs|));
    }
  }

  lemma InvIsSafe(w: World, rq: Request, done: seq<NodeSpec>, st: PlanState, must: set<string>, e: ExecState)
    requires SweptInv(w, rq, done, st, must, e)
    ensures Safe(w, st, must, e)
  {
  }

  // ---------------------------------------------------------------- what a returned output is worth

  /** The pass of a run under sweeps. */
  function SweptPassOf(w: World, env: Env, rq: Request, order: seq<string>, store: Store, st: PlanState, taken: nat -> set<Hash>): Step
    requires Elements(order) <= Ids(rq.template.nodes)
  {
    SweptAll(w, env, rq, st.plan, MustRun(rq, st.plan, order), SpecsIn(rq.template.nodes, order), taken,
             ExecState(st.refs, store, [], []))
  }

  /** The entry behind a ref has not been swept. */
  predicate StillThere(store: Store, r: Ref) {
    r.Output? ==> r.hash in store
  }

  /** A usable output reads as its from-scratch value while its entry is there, and as nothing once it is gone. The
      entry of a node that ran is there. */
  lemma SweptOutput(w: World, rq: Request, store: Store, specs: seq<NodeSpec>, st: PlanState, must: set<string>,
                    e: ExecState, internal: string)
    requires Planned(w, rq, store, specs, st) && DotFreeIds(specs) && SweptInv(w, rq, specs, st, must, e)
    requires forall s :: s in specs ==> NodeMatches(w, s, st.plan, ScratchAll(w, rq, specs))
    requires PublicOk(e.refs, st.plan, must, internal)
    ensures var v := ScratchValue(rq.job, ScratchAll(w, rq, specs), internal);
      && v.Some? && Read(e.store, e.refs[internal]) == if StillThere(e.store, e.refs[internal]) then v else None
    ensures internal in AllOutputKeys(w, specs) && !IsHit(st.plan, NodeOf(internal)) ==> StillThere(e.store, e.refs[internal])
  {
    hide Denote, AllOutputKeys, ScratchAll, PlannedNode;
    ScratchHasKeys(w, rq, specs);
    if internal in AllOutputKeys(w, specs) {
      var s, q := OutputKeyOwner(w, specs, internal);
      NodeOfKey(s.id, q);
      assert NodeMatches(w, s, st.plan, ScratchAll(w, rq, specs));
      PlannedClass(w, rq, store, s, st);
      assert s.id in Ids(specs) && Provided(st.plan, must, s.id) && Shown(w, s, st.plan[s.id], e);
    } else {
      assert internal in st.refs;
      assert e.refs[internal] == st.refs[internal] == Outside(rq.job.inputs[internal]);
    }
  }

  lemma PlannedClass(w: World, rq: Request, store: Store, s: NodeSpec, st: PlanState)
    requires PlannedNode(w, rq, store, s, st)
    ensures s.id in st.plan && st.plan[s.id].cls.outputs == OutputsOf(w, s)
  {
  }

  lemma SweptAgree(w: World, env: Env, rq: Request, order: seq<string>, store: Store, st: PlanState, taken: nat -> set<Hash>)
    requires WellPosed(w, rq) && IsTopoOrder(Deps(rq.template.nodes), order) && Sound(w, store)
    requires PlanAll(w, rq, store, SpecsIn(rq.template.nodes, order)) == Some(st)
    ensures var specs := SpecsIn(rq.template.nodes, order);
      && DotFreeIds(specs) && Planned(w, rq, store, specs, st)
      && Runnable(w, rq, store, specs, AllOutputKeys(w, specs), st)
      && (forall s :: s in specs ==> NodeMatches(w, s, st.plan, ScratchAll(w, rq, specs)))
      && SweptOk(w, rq, specs, st, MustRun(rq, st.plan, order), SweptPassOf(w, env, rq, order, store, st, taken))
  {
    hide NodeMatches, SweptOk, PlanAll, MustRun, Planned, SweptAll;
    var specs := SpecsIn(rq.template.nodes, order);
    PlanRunnable(w, rq, order, store);
    SweptPassIsOk(w, env, rq, store, specs, AllOutputKeys(w, specs), st, MustRun(rq, st.plan, order), taken);
    SpecsWellPosed(w, rq, order);
    PlanMatchesScratch(w, rq, store, specs, AllOutputKeys(w, specs));
  }

  /** Under any sweeps a run that returns hands out nothing wrong: each declared output reads as its from-scratch value
      if and only if its entry has not been swept since, and reads as nothing otherwise; the outputs of nodes that ran
      are always there. */
  lemma SweptRunIsRight(w: World, env: Env, rq: Request, order: seq<string>, store: Store, st: PlanState,
                        taken: nat -> set<Hash>, sc: Scratch, name: string)
    requires WellPosed(w, rq) && IsTopoOrder(Deps(rq.template.nodes), order) && Sound(w, store)
    requires PlanAll(w, rq, store, SpecsIn(rq.template.nodes, order)) == Some(st)
    requires Evaluates(w, rq, rq.template.nodes, sc) && name in rq.template.outputs
    requires SweptPassOf(w, env, rq, order, store, st, taken).Go?
    requires AllPublicOk(rq.template.outputs, SweptPassOf(w, env, rq, order, store, st, taken).state.refs, st.plan,
                         MustRun(rq, st.plan, order))
    ensures var e := SweptPassOf(w, env, rq, order, store, st, taken).state;
      var internal := rq.template.outputs[name];
      && internal in e.refs
      && (OutputReads(e.store, e.refs[internal], ScratchValue(rq.job, sc, internal)) <==> StillThere(e.store, e.refs[internal]))
      && (!StillThere(e.store, e.refs[internal]) ==> Read(e.store, e.refs[internal]) == None)
      && (internal in AllOutputKeys(w, rq.template.nodes) && !IsHit(st.plan, NodeOf(internal)) ==>
            StillThere(e.store, e.refs[internal]))
  {
    hide Evaluates, PlanAll, SweptInv, NodeMatches, Planned, MustRun, SweptAll, Sound, WellPosed, ScratchAll;
    var specs := SpecsIn(rq.template.nodes, order);
    var e := SweptPassOf(w, env, rq, order, store, st, taken).state;
    SweptAgree(w, env, rq, order, store, st, taken);
    SpecsWellPosed(w, rq, order);
    WellPosedIds(w, rq);
    SolutionIsScratch(w, rq, order, sc);
    SweptOutput(w, rq, store, specs, st, MustRun(rq, st.plan, order), e, rq.template.outputs[name]);
    SameScratch(rq.job, sc, ScratchAll(w, rq, specs), rq.template.outputs[name]);
  }

  lemma SameScratch(job: Job, a: Scratch, b: Scratch, internal: string)
    requires a.made == b.made
    ensures ScratchValue(job, a, internal) == ScratchValue(job, b, internal)
  {
  }

  /** An output that can be read can be lost to one more sweep if and only if the run has not marked its entry: it was
      replayed from the cache, and no node that ran reads it. */
  lemma LostExactly(e: ExecState, r: Ref)
    requires r.Output? && Read(e.store, r).Some?
    ensures (exists more :: Read(Lose(e, more).store, r) == None) <==> r.hash !in Marked(e.executed)
  {
    hide Marked;
    if r.hash !in Marked(e.executed) {
      assert Read(Lose(e, {r.hash}).store, r) == None;
    }
  }

  // ---------------------------------------------------------------- sweeps that leave the hits alone

  function HitKeys(plan: map<string, NodePlan>): set<Hash> {
    set nid | nid in plan && plan[nid].isHit :: plan[nid].h
  }

  function PlanKeys(plan: map<string, NodePlan>): set<Hash> {
    set nid | nid in plan :: plan[nid].h
  }

  /** The same entries but for some that the plan has no key for. */
  ghost predicate AlikeStores(plan: map<string, NodePlan>, a: Store, b: Store) {
    && (forall h :: h in b ==> h in a && b[h] == a[h])
    && (forall h :: h in PlanKeys(plan) && h in a ==> h in b)
  }

  ghost predicate Alike(plan: map<string, NodePlan>, e: ExecState, e': ExecState) {
    e'.refs == e.refs && e'.events == e.events && e'.executed == e.executed && AlikeStores(plan, e.store, e'.store)
  }

  lemma AlikeWithout(plan: map<string, NodePlan>, a: Store, b: Store, h: Hash, outputs: map<string, Content>)
    requires AlikeStores(plan, a, b)
    ensures AlikeStores(plan, a - {h}, b - {h}) && AlikeStores(plan, a[h := outputs], b[h := outputs])
  {
  }

  ghost predicate AlikeSteps(plan: map<string, NodePlan>, r: Step, r': Step) {
    && (r.Go? <==> r'.Go?) && Alike(plan, r.state, r'.state) && (r.Stop? ==> r.outcome == r'.outcome)
  }

  /** Every ref into the cache is under a key of the plan. */
  ghost predicate RefsPlanned(plan: map<string, NodePlan>, refs: map<string, Ref>) {
    forall k :: k in refs && refs[k].Output? ==> refs[k].hash in PlanKeys(plan)
  }

  lemma AlikeReads(plan: map<string, NodePlan>, w: World, p: NodePlan, a: Store, b: Store, inputs: map<string, Ref>)
    requires AlikeStores(plan, a, b) && RefsPlanned(plan, inputs)
    ensures RunNode(w, p, p.h, a, inputs) == RunNode(w, p, p.h, b, inputs)
  {
    hide PlanKeys;
    forall port | port in inputs ensures Read(a, inputs[port]) == Read(b, inputs[port]) {
      assert inputs[port].Output? ==> inputs[port].hash in PlanKeys(plan);
    }
    if forall port :: port in inputs ==> Read(a, inputs[port]).Some? {
      assert (map port | port in inputs :: Read(a, inputs[port]).value) == (map port | port in inputs :: Read(b, inputs[port]).value);
    }
  }

  lemma AlikeMiss(w: World, env: Env, rq: Request, plan: map<string, NodePlan>, s: NodeSpec, p: NodePlan, e: ExecState, e': ExecState)
    requires Alike(plan, e, e') && RefsPlanned(plan, e.refs)
    ensures AlikeSteps(plan, RunMiss(w, env, rq, s, p, e), RunMiss(w, env, rq, s, p, e'))
  {
    hide NoiseEvents, NodeHash, RunNode, AlikeStores, OutputRefs, Resolve, RefsPlanned;
    if Resolve(s, p.cls, e.refs).Some? && !env.noRoom(s.id) {
      AlikeRun(w, env, rq, plan, s, p, e, e', Resolve(s, p.cls, e.refs).value);
    }
  }

  lemma AlikeRun(w: World, env: Env, rq: Request, plan: map<string, NodePlan>, s: NodeSpec, p: NodePlan, e: ExecState, e': ExecState,
                 inputs: map<string, Ref>)
    requires Alike(plan, e, e') && RefsPlanned(plan, e.refs)
    requires Resolve(s, p.cls, e.refs) == Some(inputs) && !env.noRoom(s.id)
    ensures AlikeSteps(plan, RunMiss(w, env, rq, s, p, e), RunMiss(w, env, rq, s, p, e'))
  {
    hide NoiseEvents, NodeHash, RunNode, AlikeStores, OutputRefs, Resolve, RefsPlanned;
    var a, b := Reserved(rq, p, e), Reserved(rq, p, e');
    ResolvedPlanned(plan, s, p.cls, e.refs);
    AlikeWithout(plan, e.store, e'.store, p.h, map[]);
    AlikeReads(plan, w, p, a, b, inputs);
    var produced := RunNode(w, p, p.h, a, inputs);
    AlikeWithout(plan, a, b, p.h, if produced.Some? then produced.value else map[]);
  }

  lemma ResolvedPlanned(plan: map<string, NodePlan>, s: NodeSpec, cls: NodeClass, refs: map<string, Ref>)
    requires RefsPlanned(plan, refs) && Resolve(s, cls, refs).Some?
    ensures RefsPlanned(plan, Resolve(s, cls, refs).value)
  {
  }

  lemma AlikeNode(w: World, env: Env, rq: Request, plan: map<string, NodePlan>, must: set<string>, s: NodeSpec, e: ExecState, e': ExecState)
    requires Alike(plan, e, e') && RefsPlanned(plan, e.refs)
    ensures AlikeSteps(plan, ExecNode(w, env, rq, plan, must, s, e), ExecNode(w, env, rq, plan, must, s, e'))
  {
    hide RunMiss, OutputRefs, StoredWarnings;
    if s.id in plan {
      assert plan[s.id].h in PlanKeys(plan);
      AlikeMiss(w, env, rq, plan, s, plan[s.id], e, e');
    }
  }

  /** Every entry that is there under a key of the plan is a hit's or marked. */
  ghost predicate KeysCovered(plan: map<string, NodePlan>, e: ExecState) {
    forall h :: h in PlanKeys(plan) && h in e.store ==> h in HitKeys(plan) || h in Marked(e.executed)
  }

  lemma AlikeLose(plan: map<string, NodePlan>, e: ExecState, e': ExecState, taken: set<Hash>)
    requires Alike(plan, e, e') && KeysCovered(plan, e) && taken !! HitKeys(plan)
    ensures Alike(plan, e, Lose(e', taken))
  {
    hide Marked, HitKeys, PlanKeys;
  }

  lemma StepCovered(w: World, env: Env, rq: Request, store: Store, done: seq<NodeSpec>, s: NodeSpec, st: PlanState,
                    must: set<string>, e: ExecState)
    requires PlannedNode(w, rq, store, s, st)
    requires DotFreeIds(done) && DotFree(s.id) && s.id !in Ids(done)
    requires Unshadowed(w, rq.job, s, AllOutputKeys(w, done))
    requires RefsAgree(rq.job, AllOutputKeys(w, done), st.refs, e.refs)
    requires Marked(e.executed) <= e.store.Keys && ExecNode(w, env, rq, st.plan, must, s, e).Go?
    requires KeysCovered(st.plan, e)
    ensures KeysCovered(st.plan, ExecNode(w, env, rq, st.plan, must, s, e).state)
  {
    hide PlannedNode, Unshadowed, RefsAgree, AllOutputKeys, Marked, HitKeys, PlanKeys, ExecNode;
    StepMarks(w, env, rq, store, done, s, st, must, e);
    PlannedKind(w, rq, store, s, st);
    NothingElse(w, env, rq, st.plan, must, s, e);
  }

  /** A step adds no entry but that of a node it runs. */
  lemma NothingElse(w: World, env: Env, rq: Request, plan: map<string, NodePlan>, must: set<string>, s: NodeSpec, e: ExecState)
    requires s.id in plan && ExecNode(w, env, rq, plan, must, s, e).Go?
    ensures var e' := ExecNode(w, env, rq, plan, must, s, e).state;
      forall h :: h in e'.store ==> h in e.store || (h == plan[s.id].h && s.id in must && !IsHit(plan, s.id))
  {
    hide NoiseEvents, NodeHash, RunNode, OutputRefs, Resolve, StoredWarnings;
  }

  lemma StepRefsPlanned(w: World, env: Env, rq: Request, plan: map<string, NodePlan>, must: set<string>, s: NodeSpec, e: ExecState)
    requires s.id in plan && RefsPlanned(plan, e.refs) && ExecNode(w, env, rq, plan, must, s, e).Go?
    ensures RefsPlanned(plan, ExecNode(w, env, rq, plan, must, s, e).state.refs)
  {
    hide ExecNode;
    StepAdds(w, env, rq, plan, must, s, e);
    assert plan[s.id].h in PlanKeys(plan);
  }

  /** What two passes have in common as long as they go on. */
  ghost predicate Together(w: World, rq: Request, done: seq<NodeSpec>, st: PlanState, must: set<string>, r: Step, r': Step) {
    && AlikeSteps(st.plan, r, r')
    && (r.Go? ==> SweptInv(w, rq, done, st, must, r.state) && KeysCovered(st.plan, r.state) && RefsPlanned(st.plan, r.state.refs))
  }

  lemma TogetherNext(w: World, env: Env, rq: Request, store: Store, specs: seq<NodeSpec>, done: seq<NodeSpec>, s: NodeSpec,
                     st: PlanState, must: set<string>, r: Step, r': Step, taken: set<Hash>)
    requires |specs| > 0 && done == specs[..|specs| - 1] && s == specs[|specs| - 1]
    requires PlannedNode(w, rq, store, s, st) && OutputKeys(s.id, OutputsOf(w, s)) <= st.refs.Keys
    requires DotFreeIds(done) && DotFree(s.id) && s.id !in Ids(done)
    requires Unshadowed(w, rq.job, s, AllOutputKeys(w, done))
    requires Together(w, rq, done, st, must, r, r') && taken !! HitKeys(st.plan)
    ensures Together(w, rq, specs, st, must, ExecNext(w, env, rq, st.plan, must, s, r),
                     LoseNext(ExecNext(w, env, rq, st.plan, must, s, r'), taken))
  {
    hide ExecNode, PlannedNode, Unshadowed, SweptInv, KeysCovered, RefsPlanned, Alike, HitKeys, Lose;
    if r.Go? {
      InvParts(w, rq, done, st, must, r.state);
      AlikeNode(w, env, rq, st.plan, must, s, r.state, r'.state);
      var t, t' := ExecNode(w, env, rq, st.plan, must, s, r.state), ExecNode(w, env, rq, st.plan, must, s, r'.state);
      if t.Go? {
        PlannedKind(w, rq, store, s, st);
        StepKeepsSwept(w, env, rq, store, specs, done, s, st, must, r.state, t.state);
        StepCovered(w, env, rq, store, done, s, st, must, r.state);
        StepRefsPlanned(w, env, rq, st.plan, must, s, r.state);
        AlikeLose(st.plan, t.state, t'.state, taken);
      }
    }
  }

  lemma InvParts(w: World, rq: Request, done: seq<NodeSpec>, st: PlanState, must: set<string>, e: ExecState)
    requires SweptInv(w, rq, done, st, must, e)
    ensures RefsAgree(rq.job, AllOutputKeys(w, done), st.refs, e.refs) && Marked(e.executed) <= e.store.Keys
  {
  }

  /** The refs of a plan name its keys, and in an unforced run an entry under a key of the plan is a hit's. */
  lemma PlanStart(w: World, rq: Request, store: Store, specs: seq<NodeSpec>, st: PlanState, must: set<string>)
    requires Planned(w, rq, store, specs, st) && !rq.force && Sound(w, store)
    ensures var start := ExecState(st.refs, store, [], []);
      SweptInv(w, rq, [], st, must, start) && KeysCovered(st.plan, start) && RefsPlanned(st.plan, st.refs)
  {
    hide Sound;
    SweptStart(w, rq, store, st, must);
    forall nid | nid in st.plan && st.plan[nid].h in store ensures st.plan[nid].isHit {
      var s :| s in specs && s.id == nid;
      assert PlannedNode(w, rq, store, s, st);
    }
    forall k | k in st.refs && st.refs[k].Output? ensures st.refs[k].hash in PlanKeys(st.plan) {
      if k in AllOutputKeys(w, specs) && k !in rq.job.inputs {
        var s, q := OutputKeyOwner(w, specs, k);
        assert PlannedNode(w, rq, store, s, st);
      }
    }
  }

  /** Sweeps that take no replayed hit's entry change nothing in an unforced run. */
  lemma {:induction false} HarmlessSweeps(w: World, env: Env, rq: Request, store: Store, all: seq<NodeSpec>, specs: seq<NodeSpec>,
                                          outputs: set<string>, st: PlanState, must: set<string>, taken: nat -> set<Hash>)
    requires Planned(w, rq, store, all, st) && Runnable(w, rq, store, specs, outputs, st) && Sound(w, store) && !rq.force
    requires forall i :: taken(i) !! HitKeys(st.plan)
    ensures var start := ExecState(st.refs, store, [], []);
      Together(w, rq, specs, st, must, ExecAll(w, env, rq, st.plan, must, specs, start),
               SweptAll(w, env, rq, st.plan, must, specs, taken, start))
    decreases |specs|
  {
    hide ExecNext, SweptInv, KeysCovered, RefsPlanned, Alike, HitKeys, Runnable, Sound, Planned, Lose;
    var start := ExecState(st.refs, store, [], []);
    if |specs| == 0 {
      assert specs == [];
      PlanStart(w, rq, store, all, st, must);
      AlikeSelf(st.plan, start);
      AlikeLose(st.plan, start, start, taken(0));
    } else {
      var done, s := specs[..|specs| - 1], specs[|specs| - 1];
      RunnableInit(w, rq, store, specs, outputs, st);
      RunnableLast(w, rq, store, specs, outputs, st);
      HarmlessSweeps(w, env, rq, store, all, done, outputs, st, must, taken);
      TogetherNext(w, env, rq, store, specs, done, s, st, must, ExecAll(w, env, rq, st.plan, must, done, start),
                   SweptAll(w, env, rq, st.plan, must, done, taken, start), taken(|specs|));
    }
  }

  lemma AlikeSelf(plan: map<string, NodePlan>, e: ExecState)
    ensures Alike(plan, e, e)
  {
  }

  /** A run that returns without sweeps also returns, with all its outputs, under any sweeps that leave the entries of
      its hits alone. */
  lemma SweptRunReturns(w: World, env: Env, rq: Request, order: seq<string>, store: Store, st: PlanState,
                        taken: nat -> set<Hash>, sc: Scratch, name: string)
    requires WellPosed(w, rq) && IsTopoOrder(Deps(rq.template.nodes), order) && Sound(w, store) && !rq.force
    requires PlanAll(w, rq, store, SpecsIn(rq.template.nodes, order)) == Some(st)
    requires Evaluates(w, rq, rq.template.nodes, sc) && name in rq.template.outputs
    requires PassOf(w, env, rq, order, store, st).Go?
    requires AllPublicOk(rq.template.outputs, PassOf(w, env, rq, order, store, st).state.refs, st.plan, MustRun(rq, st.plan, order))
    requires forall i :: taken(i) !! HitKeys(st.plan)
    ensures var r := SweptPassOf(w, env, rq, order, store, st, taken);
      && r.Go? && rq.template.outputs[name] in r.state.refs
      && r.state.refs == PassOf(w, env, rq, order, store, st).state.refs
      && OutputReads(r.state.store, r.state.refs[rq.template.outputs[name]], ScratchValue(rq.job, sc, rq.template.outputs[name]))
  {
    hide Evaluates, PlanAll, SweptInv, NodeMatches, Planned, MustRun, SweptAll, Sound, WellPosed, ExecAll, HitKeys, PlanKeys,
      RefsPlanned, KeysCovered, ScratchValue;
    var specs, must := SpecsIn(rq.template.nodes, order), MustRun(rq, st.plan, order);
    SweptAgree(w, env, rq, order, store, st, taken);
    HarmlessSweeps(w, env, rq, store, specs, specs, AllOutputKeys(w, specs), st, must, taken);
    var e, e' := PassOf(w, env, rq, order, store, st).state, SweptPassOf(w, env, rq, order, store, st, taken).state;
    var internal := rq.template.outputs[name];
    ReturnedInv(w, env, rq, order, store, st);
    OutputIsScratch(w, rq, store, specs, st, must, e, internal);
    ThereInBoth(st.plan, e, e', internal);
    SweptRunIsRight(w, env, rq, order, store, st, taken, sc, name);
  }

  lemma ThereInBoth(plan: map<string, NodePlan>, e: ExecState, e': ExecState, k: string)
    requires Alike(plan, e, e') && RefsPlanned(plan, e.refs) && k in e.refs && Read(e.store, e.refs[k]).Some?
    ensures StillThere(e'.store, e'.refs[k])
  {
  }

  // ---------------------------------------------------------------- a sweep that does not

  lemma {:induction false} NothingTaken(w: World, env: Env, rq: Request, plan: map<string, NodePlan>, must: set<string>,
                                        specs: seq<NodeSpec>, taken: nat -> set<Hash>, st: ExecState)
    requires forall i :: 0 <= i <= |specs| ==> taken(i) == {}
    ensures SweptAll(w, env, rq, plan, must, specs, taken, st) == ExecAll(w, env, rq, plan, must, specs, st)
  {
    hide ExecNext, Marked;
    if |specs| == 0 {
      NothingLost(st);
    } else {
      var n := |specs| - 1;
      NothingTaken(w, env, rq, plan, must, specs[..n], taken, st);
      NothingLost(ExecAll(w, env, rq, plan, must, specs, st).state);
    }
  }

  lemma NothingLost(e: ExecState)
    ensures Lose(e, {}) == e
  {
  }

  /** A run without sweeps that returns, one output of which is a replayed hit that no node read: the same run with one
      sweep, of that entry and after the last node, returns too, and the output is gone. */
  lemma SweptAway(w: World, env: Env, rq: Request, plan: map<string, NodePlan>, must: set<string>, specs: seq<NodeSpec>,
                  taken: nat -> set<Hash>, st: ExecState, k: string)
    requires |specs| > 0 && ExecAll(w, env, rq, plan, must, specs, st).Go?
    requires var e := ExecAll(w, env, rq, plan, must, specs, st).state;
      && k in e.refs && e.refs[k].Output? && e.refs[k].hash !in Marked(e.executed)
      && taken(|specs|) == {e.refs[k].hash}
    requires forall i :: 0 <= i < |specs| ==> taken(i) == {}
    ensures var r := SweptAll(w, env, rq, plan, must, specs, taken, st);
      r.Go? && r.state.refs == ExecAll(w, env, rq, plan, must, specs, st).state.refs
      && Read(r.state.store, r.state.refs[k]) == None
  {
    hide ExecAll, Marked;
    NothingTaken(w, env, rq, plan, must, specs[..|specs| - 1], taken, st);
    LastStep(w, env, rq, plan, must, specs, st);
  }

  lemma LastStep(w: World, env: Env, rq: Request, plan: map<string, NodePlan>, must: set<string>, specs: seq<NodeSpec>, st: ExecState)
    requires |specs| > 0
    ensures var n := |specs| - 1;
      ExecAll(w, env, rq, plan, must, specs, st) ==
      ExecNext(w, env, rq, plan, must, specs[n], ExecAll(w, env, rq, plan, must, specs[..n], st))
  {
  }

  // ---------------------------------------------------------------- such a run

  /** A template of one node, whose one output is declared, and a cache that holds the node's entry. */
  const CLASS := NodeClass("k", 1, [], {}, {"o"}, false)
  const NODE := NodeSpec("a", "k", map[], map[])
  const CACHED := Request(Template([NODE], map["image" := "a.o"]), Job(map[], map[]), map[], false)
  const ENTRY := Hash("k", 1, map[], map[], map[])
  const FULL: Store := map[ENTRY := map["o" := "image"]]
  const PLANNED := PlanState(map["a.o" := Output(ENTRY, "o")], map["a" := NodePlan(CLASS, ENTRY, true, map[])])

  lemma NodeKeys()
    ensures Key("a", "o") == "a.o" && NodeOf("a.o") == "a"
    ensures OutputRefs("a", {"o"}, ENTRY) == map["a.o" := Output(ENTRY, "o")]
  {
    assert Key("a", "o") == "a.o";
    NodeOfKey("a", "o");
    DottedIds.OneOutputRef("a", "o", ENTRY);
  }

  lemma NodeOrder()
    ensures IsTopoOrder(Deps([NODE]), ["a"]) && SpecsIn([NODE], ["a"]) == [NODE]
  {
    DottedIds.OneNodeOrder(NODE);
  }

  lemma NodeParams()
    ensures ResolvedParams(CACHED, NODE) == map[]
  {
  }

  lemma NodeKey(w: World)
    ensures NodeHash(w, CLASS, map[], map[]) == ENTRY
  {
  }

  lemma NodePlanned(w: World)
    requires w.registry == map["k" := CLASS]
    ensures PlanAll(w, CACHED, FULL, [NODE]) == Some(PLANNED)
  {
    hide NodeHash, ResolvedParams, OutputRefs, Resolve, ExternalRefs;
    NodeKeys();
    NodeParams();
    NodeKey(w);
    assert [NODE][..0] == [];
    DottedIds.NoExternals(CACHED.job);
    assert PlanAll(w, CACHED, FULL, []) == Some(PlanState(map[], map[]));
    DottedIds.NothingToResolve(NODE, CLASS);
    DottedIds.NoRefs(OutputRefs("a", {"o"}, ENTRY));
  }

  lemma NodeReplayed(w: World, env: Env)
    requires !env.cancelBefore("a")
    ensures var r := ExecAll(w, env, CACHED, PLANNED.plan, MustRun(CACHED, PLANNED.plan, ["a"]), [NODE],
                             ExecState(PLANNED.refs, FULL, [], []));
      r.Go? && r.state.refs == PLANNED.refs && r.state.executed == []
  {
    hide MustRun, StoredWarnings, OutputRefs;
    NodeKeys();
    var start := ExecState(PLANNED.refs, FULL, [], []);
    assert [NODE][..0] == [];
    assert ExecAll(w, env, CACHED, PLANNED.plan, MustRun(CACHED, PLANNED.plan, ["a"]), [], start) == Go(start);
  }

  /** The node is replayed, a sweep takes its entry, and the run returns an output that is gone. */
  lemma HitRunLosesItsOutput(w: World, env: Env, taken: nat -> set<Hash>)
    requires w.registry == map["k" := CLASS] && w.run("k", 1, map[], map[], map[]) == Some(map["o" := "image"])
    requires !env.cancelBefore("a") && taken(0) == {} && taken(1) == {ENTRY}
    ensures Sound(w, FULL) && IsTopoOrder(Deps(CACHED.template.nodes), ["a"])
    ensures PlanAll(w, CACHED, FULL, SpecsIn(CACHED.template.nodes, ["a"])) == Some(PLANNED)
    ensures var r := SweptPassOf(w, env, CACHED, ["a"], FULL, PLANNED, taken);
      && r.Go? && AllPublicOk(CACHED.template.outputs, r.state.refs, PLANNED.plan, MustRun(CACHED, PLANNED.plan, ["a"]))
      && Read(r.state.store, PublicRefs(CACHED.template.outputs, r.state.refs)["image"]) == None
  {
    hide MustRun, SweptAll, ExecAll, PlanAll, IsTopoOrder, Deps, SpecsIn;
    NodeOrder();
    NodePlanned(w);
    NodeReplayed(w, env);
    NodeKeys();
    EntrySound(w);
    SweptAway(w, env, CACHED, PLANNED.plan, MustRun(CACHED, PLANNED.plan, ["a"]), [NODE], taken,
              ExecState(PLANNED.refs, FULL, [], []), "a.o");
  }

  lemma EntrySound(w: World)
    requires w.run("k", 1, map[], map[], map[]) == Some(map["o" := "image"])
    ensures Sound(w, FULL)
  {
    assert DenotedInputs(w, ENTRY) == map[];
  }
}
