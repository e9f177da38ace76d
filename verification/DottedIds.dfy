/** Node ids with a dot (server/models.py accepts them, server/runtime.py cuts keys at the first dot). */
module DottedIds {
  import opened Models
  import opened Events
  import opened Wrappers
  import opened Topology
  import opened Runtime

  lemma {:induction false} NodeOfDotFree(key: string)
    ensures DotFree(NodeOf(key))
  {
    if key != [] && key[0] != '.' {
      NodeOfDotFree(key[1..]);
    }
  }

  /** Cutting a key at its first dot gives the node back exactly for ids without a dot. */
  lemma NodeOfExactly(nid: string, port: string)
    ensures NodeOf(Key(nid, port)) == nid <==> DotFree(nid)
  {
    NodeOfDotFree(Key(nid, port));
    if DotFree(nid) {
      NodeOfKey(nid, port);
    }
  }

  /** Port `p` of `s` is wired to port `q` of `t`. */
  predicate WiredTo(s: NodeSpec, p: string, t: NodeSpec, q: string) {
    p in s.edges && s.edges[p] == Key(t.id, q)
  }

  /** Every node depends on the nodes it is wired to. */
  ghost predicate EdgesKept(nodes: seq<NodeSpec>) {
    forall s, p, t, q :: s in nodes && t in nodes && WiredTo(s, p, t, q) ==> t.id in Deps(nodes)[s.id]
  }

  ghost predicate ProducersDotFree(nodes: seq<NodeSpec>) {
    forall s, p, t, q :: s in nodes && t in nodes && WiredTo(s, p, t, q) ==> DotFree(t.id)
  }

  lemma DependencyIsDotFree(nodes: seq<NodeSpec>, id: string, nid: string)
    requires id in Deps(nodes) && nid in Deps(nodes)[id]
    ensures DotFree(nid)
  {
    var n, port :| n in nodes && n.id == id && port in n.edges && NodeOf(n.edges[port]) == nid;
    NodeOfDotFree(n.edges[port]);
  }

  /** The dependency graph keeps every edge of the template if and only if no producer's id has a dot. */
  lemma DependenciesKeptExactly(nodes: seq<NodeSpec>)
    ensures EdgesKept(nodes) <==> ProducersDotFree(nodes)
  {
    hide DepsOf;
    forall s, p, t, q | s in nodes && t in nodes && WiredTo(s, p, t, q)
      ensures s.id in Deps(nodes) && (t.id in Deps(nodes)[s.id] <==> DotFree(t.id))
    {
      EdgeKeptExactly(nodes, s, p, t, q);
    }
  }

  lemma EdgeKeptExactly(nodes: seq<NodeSpec>, s: NodeSpec, p: string, t: NodeSpec, q: string)
    requires s in nodes && t in nodes && WiredTo(s, p, t, q)
    ensures s.id in Deps(nodes) && (t.id in Deps(nodes)[s.id] <==> DotFree(t.id))
  {
    NodeOfExactly(t.id, q);
    assert s.id in Ids(nodes) && t.id in Ids(nodes);
    if DotFree(t.id) {
      assert NodeOf(s.edges[p]) in DepsOf(nodes, Ids(nodes), s.id);
    }
    if t.id in Deps(nodes)[s.id] {
      DependencyIsDotFree(nodes, s.id, t.id);
    }
  }

  lemma {:induction false} NotSelected(nodes: seq<NodeSpec>, outs: set<string>, plan: map<string, NodePlan>, order: seq<string>,
                                       i: nat, nid: string)
    requires i <= |order| && !DotFree(nid) && nid !in outs
    ensures nid !in MustRunFrom(Deps(nodes), outs, plan, order, i)
    decreases |order| - i
  {
    hide Deps;
    if i < |order| {
      NotSelected(nodes, outs, plan, order, i + 1, nid);
      forall c | Feeds(Deps(nodes), nid, c) ensures false {
        DependencyIsDotFree(nodes, c, nid);
      }
    }
  }

  /** A node whose id has a dot is never selected to run: no consumer and no declared output names it. */
  lemma DottedNeverRuns(rq: Request, plan: map<string, NodePlan>, order: seq<string>, nid: string)
    requires !DotFree(nid)
    ensures nid !in MustRun(rq, plan, order)
  {
    forall name | name in rq.template.outputs ensures NodeOf(rq.template.outputs[name]) != nid {
      NodeOfDotFree(rq.template.outputs[name]);
    }
    NotSelected(rq.template.nodes, OutputSources(rq.template), plan, order, 0, nid);
  }

  // ---------------------------------------------------------------- a run that returns what is not there

  /** A template of one node without inputs, whose one output is declared. */
  ghost predicate OneNode(w: World, rq: Request, s: NodeSpec, port: string, name: string) {
    && rq.template == Template([s], map[name := Key(s.id, port)]) && rq.job.inputs == map[]
    && s.kind in w.registry && w.registry[s.kind].inputs == [] && w.registry[s.kind].outputs == {port}
  }

  function OnePlan(w: World, rq: Request, s: NodeSpec): NodePlan
    requires s.kind in w.registry
  {
    var cls, params := w.registry[s.kind], ResolvedParams(rq, s);
    NodePlan(cls, NodeHash(w, cls, map[], params), false, params)
  }

  lemma OneNodeOrder(s: NodeSpec)
    requires s.edges == map[]
    ensures IsTopoOrder(Deps([s]), [s.id]) && SpecsIn([s], [s.id]) == [s]
  {
    assert s in [s] && s.id in Ids([s]);
    assert Elements([s.id]) == {s.id} && Ids([s]) == {s.id};
    assert DepsOf([s], Ids([s]), s.id) == {};
  }

  lemma NothingToResolve(s: NodeSpec, cls: NodeClass)
    requires cls.inputs == []
    ensures Resolve(s, cls, map[]) == Some(map[])
  {
  }

  lemma NoRefs(m: map<string, Ref>)
    ensures m + map[] == m
  {
  }

  lemma NoExternals(job: Job)
    requires job.inputs == map[]
    ensures ExternalRefs(job) == map[]
  {
  }

  lemma OneNodePlanned(w: World, rq: Request, store: Store, s: NodeSpec, port: string, name: string)
    requires OneNode(w, rq, s, port, name) && OnePlan(w, rq, s).h !in store
    ensures PlanAll(w, rq, store, [s]) ==
      Some(PlanState(OutputRefs(s.id, {port}, OnePlan(w, rq, s).h), map[s.id := OnePlan(w, rq, s)]))
  {
    hide NodeHash, ResolvedParams, OutputRefs, Resolve, ExternalRefs;
    assert [s][..0] == [];
    NoExternals(rq.job);
    assert PlanAll(w, rq, store, []) == Some(PlanState(map[], map[]));
    NothingToResolve(s, w.registry[s.kind]);
    NoRefs(OutputRefs(s.id, {port}, OnePlan(w, rq, s).h));
  }

  lemma OneOutputRef(nid: string, port: string, h: Hash)
    ensures OutputRefs(nid, {port}, h) == map[Key(nid, port) := Output(h, port)]
  {
    assert Key(nid, port) in OutputKeys(nid, {port});
    assert PortIn(nid, Key(nid, port)) == port;
  }

  lemma SkippedOnly(w: World, env: Env, rq: Request, must: set<string>, s: NodeSpec, p: NodePlan, st: ExecState)
    requires s.id !in must && !p.isHit && !env.cancelBefore(s.id)
    ensures ExecAll(w, env, rq, map[s.id := p], must, [s], st) ==
      Go(st.(events := st.events + [NodeStarted(s.id), NodeSkipped(s.id)]))
  {
    hide HitNode, RunMiss;
    assert [s][..0] == [];
    assert ExecAll(w, env, rq, map[s.id := p], must, [], st) == Go(st);
  }

  /** Such a node under an id with a dot: the run executes nothing, returns, and what it returns is not there. */
  lemma DottedRunReturnsNothing(w: World, env: Env, rq: Request, store: Store, rep: Report, s: NodeSpec, port: string, name: string)
    requires OneNode(w, rq, s, port, name) && s.edges == map[] && !DotFree(s.id)
    requires !env.cancelBefore(s.id) && OnePlan(w, rq, s).h !in store
    ensures IsTopoOrder(Deps(rq.template.nodes), [s.id])
    ensures IsRun(w, env, rq, [s.id], store, rep) ==>
      && rep.outcome.Returned? && name in rep.outcome.outputs
      && rep.executed == [] && Read(rep.store, rep.outcome.outputs[name]) == None
  {
    hide OutputRefs, ExecAll, PlanAll, MustRun, NodeHash, ResolvedParams, Deps, SpecsIn, IsTopoOrder;
    OneNodeOrder(s);
    OneNodePlanned(w, rq, store, s, port, name);
    var p := OnePlan(w, rq, s);
    OneOutputRef(s.id, port, p.h);
    var refs := map[Key(s.id, port) := Output(p.h, port)];
    var plan := map[s.id := p];
    DottedNeverRuns(rq, plan, [s.id], s.id);
    var must := MustRun(rq, plan, [s.id]);
    SkippedOnly(w, env, rq, must, s, p, ExecState(refs, store, [], []));
    NodeOfDotFree(Key(s.id, port));
    assert PublicOk(refs, plan, must, Key(s.id, port));
    assert AllPublicOk(rq.template.outputs, refs, plan, must);
    assert Elements([s.id]) <= Ids(rq.template.nodes);
  }
}
