/** The main results about one run of a job. */
module RunCorrectness {
  import opened Models
  import opened Wrappers
  import opened Topology
  import opened Runtime
  import opened Incremental
  import opened FromScratch
  import opened Execution
  import opened LazyRerun

  // ---------------------------------------------------------------- the specs in execution order

  lemma {:induction false} SpecOfIs(nodes: seq<NodeSpec>, nid: string)
    requires nid in Ids(nodes)
    ensures SpecOf(nodes, nid) in nodes && SpecOf(nodes, nid).id == nid
  {
    var n := |nodes| - 1;
    InitOf(nodes, n);
    if nodes[n].id != nid {
      SpecOfIs(nodes[..n], nid);
    }
  }

  lemma SpecAt(nodes: seq<NodeSpec>, order: seq<string>, i: nat)
    requires Elements(order) <= Ids(nodes) && i < |order|
    ensures SpecsIn(nodes, order)[i] in nodes && SpecsIn(nodes, order)[i].id == order[i]
  {
    assert order[i] in Elements(order);
    SpecOfIs(nodes, order[i]);
  }

  /** A topological order lists every node of the template. */
  lemma SameNodes(nodes: seq<NodeSpec>, order: seq<string>, s: NodeSpec)
    requires ProperIds(nodes) && IsTopoOrder(Deps(nodes), order)
    ensures s in nodes <==> s in SpecsIn(nodes, order)
  {
    var specs := SpecsIn(nodes, order);
    if s in nodes {
      assert s.id in Elements(order);
      var i :| 0 <= i < |order| && order[i] == s.id;
      SpecAt(nodes, order, i);
      assert specs[i] == s;
    }
    if s in specs {
      var i :| 0 <= i < |specs| && specs[i] == s;
      SpecAt(nodes, order, i);
    }
  }

  lemma SpecsProper(nodes: seq<NodeSpec>, order: seq<string>)
    requires ProperIds(nodes) && IsTopoOrder(Deps(nodes), order)
    ensures ProperIds(SpecsIn(nodes, order))
  {
    var specs := SpecsIn(nodes, order);
    forall i | 0 <= i < |specs| ensures specs[i] in nodes && specs[i].id == order[i] {
      SpecAt(nodes, order, i);
    }
    forall s | s in specs ensures DotFree(s.id) {
      SameNodes(nodes, order, s);
    }
  }

  lemma SpecsOrdered(nodes: seq<NodeSpec>, order: seq<string>)
    requires ProperIds(nodes) && IsTopoOrder(Deps(nodes), order)
    ensures ProducersFirst(SpecsIn(nodes, order), Ids(nodes)) && Ids(SpecsIn(nodes, order)) <= Ids(nodes)
  {
    var specs := SpecsIn(nodes, order);
    forall s | s in specs ensures s in nodes {
      SameNodes(nodes, order, s);
    }
    forall i, p | 0 <= i < |specs| && p in specs[i].edges && NodeOf(specs[i].edges[p]) in Ids(nodes)
      ensures NodeOf(specs[i].edges[p]) in Ids(specs[..i])
    {
      SpecAt(nodes, order, i);
      var src := NodeOf(specs[i].edges[p]);
      assert src in DepsOf(nodes, Ids(nodes), order[i]);
      assert src in Elements(order[..i]);
      var j :| 0 <= j < i && order[..i][j] == src;
      SpecAt(nodes, order, j);
      assert specs[j] in specs[..i];
    }
  }

  lemma SameOutputKeys(w: World, a: seq<NodeSpec>, b: seq<NodeSpec>)
    requires forall s :: s in a ==> s in b
    ensures AllOutputKeys(w, a) <= AllOutputKeys(w, b)
  {
    forall k | k in AllOutputKeys(w, a) ensures k in AllOutputKeys(w, b) {
      var s, p := OutputKeyOwner(w, a, k);
      OutputKeysOfMember(w, b, s, p);
    }
  }

  /** A request whose plan can be trusted: distinct dot-free ids, and no name that is at once an
      external input and a consumed output. A caller can check it on the template and the job. */
  ghost predicate WellPosed(w: World, rq: Request) {
    && ProperIds(rq.template.nodes)
    && (forall s :: s in rq.template.nodes ==> NoSelfFeed(w, rq.job, s))
    && NoShadow(w, rq, rq.template.nodes)
  }

  lemma SpecsWellPosed(w: World, rq: Request, order: seq<string>)
    requires WellPosed(w, rq) && IsTopoOrder(Deps(rq.template.nodes), order)
    ensures var specs := SpecsIn(rq.template.nodes, order);
      && ProperIds(specs)
      && AllOutputKeys(w, specs) == AllOutputKeys(w, rq.template.nodes)
      && (forall s :: s in specs ==> NoSelfFeed(w, rq.job, s) && Unshadowed(w, rq.job, s, AllOutputKeys(w, specs)))
  {
    var nodes := rq.template.nodes;
    var specs := SpecsIn(nodes, order);
    SpecsProper(nodes, order);
    forall s ensures s in nodes <==> s in specs {
      SameNodes(nodes, order, s);
    }
    SameOutputKeys(w, nodes, specs);
    SameOutputKeys(w, specs, nodes);
  }

  /** Any solution of the equations is the one computed along the order. */
  lemma SolutionIsScratch(w: World, rq: Request, order: seq<string>, sc: Scratch)
    requires ProperIds(rq.template.nodes) && IsTopoOrder(Deps(rq.template.nodes), order)
    requires Evaluates(w, rq, rq.template.nodes, sc)
    ensures var ref := ScratchAll(w, rq, SpecsIn(rq.template.nodes, order));
      && ref.made == sc.made
      && Evaluates(w, rq, SpecsIn(rq.template.nodes, order), sc)
      && Evaluates(w, rq, SpecsIn(rq.template.nodes, order), ref)
  {
    var nodes := rq.template.nodes;
    var specs := SpecsIn(nodes, order);
    SpecsProper(nodes, order);
    SpecsOrdered(nodes, order);
    forall s ensures s in nodes <==> s in specs {
      SameNodes(nodes, order, s);
    }
    SameOutputKeys(w, nodes, specs);
    SameOutputKeys(w, specs, nodes);
    ScratchEvaluates(w, rq, specs, Ids(nodes));
    SolutionsAgree(w, rq, specs, Ids(nodes), ScratchAll(w, rq, specs), sc);
  }

  // ---------------------------------------------------------------- incremental equals from scratch

  /** The plan of a well-posed request supports the execution pass. */
  lemma PlanRunnable(w: World, rq: Request, order: seq<string>, store: Store)
    requires WellPosed(w, rq) && IsTopoOrder(Deps(rq.template.nodes), order)
    requires PlanAll(w, rq, store, SpecsIn(rq.template.nodes, order)).Some?
    ensures var specs := SpecsIn(rq.template.nodes, order);
      var st := PlanAll(w, rq, store, specs).value;
      && Planned(w, rq, store, specs, st)
      && Runnable(w, rq, store, specs, AllOutputKeys(w, specs), st)
  {
    SpecsWellPosed(w, rq, order);
    PlanIsPlanned(w, rq, store, SpecsIn(rq.template.nodes, order));
  }

  /** The plan, the must-run set and the end of the execution pass of a run. */
  function PassOf(w: World, env: Env, rq: Request, order: seq<string>, store: Store, st: PlanState): Step
    requires Elements(order) <= Ids(rq.template.nodes)
  {
    ExecAll(w, env, rq, st.plan, MustRun(rq, st.plan, order), SpecsIn(rq.template.nodes, order),
            ExecState(st.refs, store, [], []))
  }

  /** However a run ends, the cache holds what its keys denote, and what ran was a must-run miss
      whose key, recomputed from its real inputs, is the planned one. */
  lemma RunKeepsCacheSound(w: World, env: Env, rq: Request, order: seq<string>, store: Store, rep: Report)
    requires WellPosed(w, rq) && IsTopoOrder(Deps(rq.template.nodes), order) && Sound(w, store)
    requires IsRun(w, env, rq, order, store, rep)
    ensures Sound(w, rep.store)
    ensures PlanAll(w, rq, store, SpecsIn(rq.template.nodes, order)).Some? ==>
      var plan := PlanAll(w, rq, store, SpecsIn(rq.template.nodes, order)).value.plan;
      ExecutedAsPlanned(plan, MustRun(rq, plan, order), rep.executed)
  {
    var specs := SpecsIn(rq.template.nodes, order);
    if PlanAll(w, rq, store, specs).Some? {
      var st := PlanAll(w, rq, store, specs).value;
      PlanRunnable(w, rq, order, store);
      PassIsOk(w, env, rq, store, specs, AllOutputKeys(w, specs), st, MustRun(rq, st.plan, order));
    }
  }

  /** An output source is a hit or must run: the planner never hands out a skipped output. */
  lemma SourcesProvided(rq: Request, plan: map<string, NodePlan>, order: seq<string>, name: string)
    requires IsTopoOrder(Deps(rq.template.nodes), order) && name in rq.template.outputs
    requires NodeOf(rq.template.outputs[name]) in Deps(rq.template.nodes)
    ensures Provided(plan, MustRun(rq, plan, order), NodeOf(rq.template.outputs[name]))
  {
    var nid := NodeOf(rq.template.outputs[name]);
    if !IsHit(plan, nid) {
      MustRunClosed(Deps(rq.template.nodes), OutputSources(rq.template), plan, order, nid, nid);
    }
  }

  /** A finished pass gives a usable declared output its from-scratch value. */
  lemma OutputIsScratch(w: World, rq: Request, store: Store, specs: seq<NodeSpec>, st: PlanState, must: set<string>,
                        e: ExecState, internal: string)
    requires Planned(w, rq, store, specs, st) && DotFreeIds(specs)
    requires ExecInv(w, rq, store, specs, st, must, e)
    requires forall s :: s in specs ==> NodeMatches(w, s, st.plan, ScratchAll(w, rq, specs))
    requires PublicOk(e.refs, st.plan, must, internal)
    ensures Read(e.store, e.refs[internal]).Some?
    ensures Read(e.store, e.refs[internal]) == ScratchValue(rq.job, ScratchAll(w, rq, specs), internal)
  {
    ScratchHasKeys(w, rq, specs);
    if internal in AllOutputKeys(w, specs) {
      var s, q := OutputKeyOwner(w, specs, internal);
      NodeOfKey(s.id, q);
      assert NodeMatches(w, s, st.plan, ScratchAll(w, rq, specs)) && PlannedNode(w, rq, store, s, st);
      assert s.id in Ids(specs) && Available(s, st.plan[s.id], e);
      assert Denote(w, st.plan[s.id].h) == Some(e.store[st.plan[s.id].h]);
    } else {
      assert e.refs[internal] == st.refs[internal] == Outside(rq.job.inputs[internal]);
    }
  }

  /** What a run that returns has done. */
  lemma ReturnedRun(w: World, env: Env, rq: Request, order: seq<string>, store: Store, rep: Report)
    requires Elements(order) <= Ids(rq.template.nodes)
    requires IsRun(w, env, rq, order, store, rep) && rep.outcome.Returned?
    ensures PlanAll(w, rq, store, SpecsIn(rq.template.nodes, order)).Some?
    ensures var st := PlanAll(w, rq, store, SpecsIn(rq.template.nodes, order)).value;
      var r := PassOf(w, env, rq, order, store, st);
      && r.Go? && rep.store == r.state.store
      && AllPublicOk(rq.template.outputs, r.state.refs, st.plan, MustRun(rq, st.plan, order))
      && rep.outcome.outputs == PublicRefs(rq.template.outputs, r.state.refs)
  {
    var st := PlanAll(w, rq, store, SpecsIn(rq.template.nodes, order)).value;
    if PassOf(w, env, rq, order, store, st).Stop? {
      StopNeverReturns(w, env, rq, st.plan, MustRun(rq, st.plan, order), SpecsIn(rq.template.nodes, order),
                       ExecState(st.refs, store, [], []));
    }
  }

  lemma {:induction false} StopNeverReturns(w: World, env: Env, rq: Request, plan: map<string, NodePlan>, must: set<string>,
                                            specs: seq<NodeSpec>, start: ExecState)
    ensures var r := ExecAll(w, env, rq, plan, must, specs, start); r.Stop? ==> !r.outcome.Returned?
  {
    if |specs| > 0 {
      StopNeverReturns(w, env, rq, plan, must, specs[..|specs| - 1], start);
    }
  }

  /** What the invariant of a finished pass says about a run that returns. */
  lemma ReturnedInv(w: World, env: Env, rq: Request, order: seq<string>, store: Store, st: PlanState)
    requires WellPosed(w, rq) && IsTopoOrder(Deps(rq.template.nodes), order) && Sound(w, store)
    requires PlanAll(w, rq, store, SpecsIn(rq.template.nodes, order)) == Some(st)
    requires PassOf(w, env, rq, order, store, st).Go?
    ensures var specs := SpecsIn(rq.template.nodes, order);
      && DotFreeIds(specs)
      && Planned(w, rq, store, specs, st)
      && ExecInv(w, rq, store, specs, st, MustRun(rq, st.plan, order), PassOf(w, env, rq, order, store, st).state)
      && (forall s :: s in specs ==> NodeMatches(w, s, st.plan, ScratchAll(w, rq, specs)))
  {
    var specs := SpecsIn(rq.template.nodes, order);
    PlanRunnable(w, rq, order, store);
    PassIsOk(w, env, rq, store, specs, AllOutputKeys(w, specs), st, MustRun(rq, st.plan, order));
    SpecsWellPosed(w, rq, order);
    PlanMatchesScratch(w, rq, store, specs, AllOutputKeys(w, specs));
  }

  lemma OutputsAreScratch(w: World, rq: Request, store: Store, specs: seq<NodeSpec>, st: PlanState, must: set<string>,
                          e: ExecState, sc: Scratch)
    requires Planned(w, rq, store, specs, st) && DotFreeIds(specs)
    requires ExecInv(w, rq, store, specs, st, must, e)
    requires forall s :: s in specs ==> NodeMatches(w, s, st.plan, ScratchAll(w, rq, specs))
    requires AllPublicOk(rq.template.outputs, e.refs, st.plan, must)
    requires sc.made == ScratchAll(w, rq, specs).made
    ensures PublicRefs(rq.template.outputs, e.refs).Keys == rq.template.outputs.Keys
    ensures forall name :: name in rq.template.outputs ==>
      OutputReads(e.store, PublicRefs(rq.template.outputs, e.refs)[name], ScratchValue(rq.job, sc, rq.template.outputs[name]))
  {
    forall name | name in rq.template.outputs
      ensures OutputReads(e.store, PublicRefs(rq.template.outputs, e.refs)[name],
                          ScratchValue(rq.job, sc, rq.template.outputs[name]))
    {
      OutputIsScratch(w, rq, store, specs, st, must, e, rq.template.outputs[name]);
    }
  }

  /** The ref gives access to exactly this value. */
  predicate OutputReads(store: Store, r: Ref, v: Option<Value>) {
    v.Some? && Read(store, r) == v
  }

  /** The headline. For every template without a cycle, every job and every sound cache: if the run
      returns, each declared output reads as the value that evaluating every node gives it. */
  lemma IncrementalEqualsFromScratch(w: World, env: Env, rq: Request, order: seq<string>, store: Store, rep: Report, sc: Scratch)
    requires WellPosed(w, rq) && IsTopoOrder(Deps(rq.template.nodes), order) && Sound(w, store)
    requires IsRun(w, env, rq, order, store, rep) && rep.outcome.Returned?
    requires Evaluates(w, rq, rq.template.nodes, sc)
    ensures rep.outcome.outputs.Keys == rq.template.outputs.Keys
    ensures forall name :: name in rq.template.outputs ==>
      OutputReads(rep.store, rep.outcome.outputs[name], ScratchValue(rq.job, sc, rq.template.outputs[name]))
  {
    var specs := SpecsIn(rq.template.nodes, order);
    ReturnedRun(w, env, rq, order, store, rep);
    var st := PlanAll(w, rq, store, specs).value;
    ReturnedInv(w, env, rq, order, store, st);
    SolutionIsScratch(w, rq, order, sc);
    OutputsAreScratch(w, rq, store, specs, st, MustRun(rq, st.plan, order), PassOf(w, env, rq, order, store, st).state, sc);
  }
}
