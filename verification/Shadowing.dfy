/** External inputs and node outputs share one map of refs. This is where the planned keys stop
    following the edges, and exactly where. */
module Shadowing {
  import opened Models
  import opened Wrappers
  import opened Topology
  import opened Runtime
  import opened Incremental
  import opened Execution

  /** The key of the consumer names the producer's key wherever an edge runs between them. */
  ghost predicate KeysFollowEdges(w: World, specs: seq<NodeSpec>, plan: map<string, NodePlan>) {
    forall s, t, p, q | s in specs && t in specs && Wired(w, s, p) && q in OutputsOf(w, t) && s.edges[p] == Key(t.id, q) ::
      EdgeInKey(plan, s, p, t, q)
  }

  ghost predicate EdgeInKey(plan: map<string, NodePlan>, s: NodeSpec, p: string, t: NodeSpec, q: string) {
    && s.id in plan && t.id in plan
    && p in plan[s.id].h.inputs && plan[s.id].h.inputs[p] == KOutput(plan[t.id].h, q)
  }

  // ---------------------------------------------------------------- what planning puts into a key

  /** The port is wired, or the job hands in a value for it. */
  predicate Fed(job: Job, s: NodeSpec, p: string) {
    p in s.edges || Key(s.id, p) in job.inputs
  }

  /** The key of a planned node, input by input, whatever the names of its ports. */
  ghost predicate KeyFits(w: World, rq: Request, store: Store, s: NodeSpec, st: PlanState) {
    && s.kind in w.registry && s.id in st.plan && PlanFits(w, rq, store, s, st.plan[s.id])
    && HeadFits(w, rq, s, st.plan[s.id].h)
    && InputsFit(w, rq.job, s, st.plan[s.id].h, st.refs)
    && OutputsPlanned(w, rq.job, s, st)
  }

  predicate HeadFits(w: World, rq: Request, s: NodeSpec, h: Hash)
    requires s.kind in w.registry
  {
    var cls := w.registry[s.kind];
    h == Hash(cls.id, cls.version, h.inputs, ResolvedParams(rq, s), Extra(w, cls))
  }

  ghost predicate InputsFit(w: World, job: Job, s: NodeSpec, h: Hash, refs: map<string, Ref>)
    requires s.kind in w.registry
  {
    && (forall p :: p in h.inputs <==> p in w.registry[s.kind].inputs && Fed(job, s, p))
    && (forall p :: p in h.inputs ==> SourceKey(s, p) in refs && h.inputs[p] == KeyInputOf(refs[SourceKey(s, p)]))
    && (forall p :: p in w.registry[s.kind].inputs && !Fed(job, s, p) ==> p in w.registry[s.kind].optional)
  }

  /** Planning adds keys behind the existing ones, so the key of a planned node goes on fitting. */
  lemma KeyStays(w: World, rq: Request, store: Store, s: NodeSpec, st: PlanState, spec: NodeSpec, p: NodePlan)
    requires KeyFits(w, rq, store, s, st) && s.id != spec.id
    ensures KeyFits(w, rq, store, s, PlanState(OutputRefs(spec.id, p.cls.outputs, p.h) + st.refs, st.plan[spec.id := p]))
  {
  }

  /** At planning time a node sees the fed ports and no others: its own placeholders are not there yet. */
  lemma ResolvedAreFed(w: World, rq: Request, before: seq<NodeSpec>, spec: NodeSpec, st: PlanState, p: string)
    requires DotFreeIds(before) && DotFree(spec.id) && spec.id !in Ids(before) && PlannedKeys(w, rq, before, st)
    requires spec.kind in w.registry && p in w.registry[spec.kind].inputs
    requires Resolve(spec, w.registry[spec.kind], st.refs).Some?
    ensures SourceKey(spec, p) in st.refs <==> Fed(rq.job, spec, p)
    ensures !Fed(rq.job, spec, p) ==> p in w.registry[spec.kind].optional
  {
    assert PortResolves(spec, w.registry[spec.kind], st.refs, p);
    ForeignKey(w, before, spec.id, p);
  }

  lemma NewOutputs(w: World, rq: Request, store: Store, before: seq<NodeSpec>, spec: NodeSpec, st: PlanState)
    requires DotFreeIds(before) && DotFree(spec.id) && spec.id !in Ids(before) && PlannedKeys(w, rq, before, st)
    requires PlanNode(w, rq, store, spec, st).Some?
    ensures OutputsPlanned(w, rq.job, spec, PlanNode(w, rq, store, spec, st).value)
  {
    var st' := PlanNode(w, rq, store, spec, st).value;
    forall q | q in OutputsOf(w, spec) && Key(spec.id, q) !in rq.job.inputs
      ensures Key(spec.id, q) in st'.refs && st'.refs[Key(spec.id, q)] == Output(st'.plan[spec.id].h, q)
    {
      ForeignKey(w, before, spec.id, q);
      assert PortIn(spec.id, Key(spec.id, q)) == q;
    }
  }

  lemma KeyNew(w: World, rq: Request, store: Store, before: seq<NodeSpec>, spec: NodeSpec, st: PlanState)
    requires DotFreeIds(before) && DotFree(spec.id) && spec.id !in Ids(before) && PlannedKeys(w, rq, before, st)
    requires PlanNode(w, rq, store, spec, st).Some?
    ensures KeyFits(w, rq, store, spec, PlanNode(w, rq, store, spec, st).value)
  {
    var st' := PlanNode(w, rq, store, spec, st).value;
    var h := st'.plan[spec.id].h;
    NewOutputs(w, rq, store, before, spec, st);
    forall p | p in w.registry[spec.kind].inputs
      ensures SourceKey(spec, p) in st.refs <==> Fed(rq.job, spec, p)
      ensures !Fed(rq.job, spec, p) ==> p in w.registry[spec.kind].optional
    {
      ResolvedAreFed(w, rq, before, spec, st, p);
    }
    assert InputsFit(w, rq.job, spec, h, st.refs);
    MoreRefs(w, rq.job, spec, h, st.refs, OutputRefs(spec.id, w.registry[spec.kind].outputs, h));
  }

  lemma MoreRefs(w: World, job: Job, s: NodeSpec, h: Hash, refs: map<string, Ref>, added: map<string, Ref>)
    requires s.kind in w.registry && InputsFit(w, job, s, h, refs)
    ensures InputsFit(w, job, s, h, added + refs)
  {
  }

  lemma {:induction false} PlanFitsKeys(w: World, rq: Request, store: Store, specs: seq<NodeSpec>)
    requires ProperIds(specs) && PlanAll(w, rq, store, specs).Some?
    ensures forall s :: s in specs ==> KeyFits(w, rq, store, s, PlanAll(w, rq, store, specs).value)
  {
    hide KeyFits, ProperIds;
    if |specs| > 0 {
      var n := |specs| - 1;
      ProperInit(specs, n);
      PlanFitsKeys(w, rq, store, specs[..n]);
      PlanHasKeys(w, rq, store, specs[..n]);
      forall s | s in specs ensures KeyFits(w, rq, store, s, PlanAll(w, rq, store, specs).value) {
        KeyFitsNext(w, rq, store, specs, n, PlanAll(w, rq, store, specs[..n]).value, s);
      }
    }
  }

  lemma KeyFitsNext(w: World, rq: Request, store: Store, specs: seq<NodeSpec>, n: nat, st: PlanState, s: NodeSpec)
    requires |specs| == n + 1 && ProperIds(specs) && PlannedKeys(w, rq, specs[..n], st) && s in specs
    requires forall t :: t in specs[..n] ==> KeyFits(w, rq, store, t, st)
    requires PlanNode(w, rq, store, specs[n], st).Some?
    ensures KeyFits(w, rq, store, s, PlanNode(w, rq, store, specs[n], st).value)
  {
    hide KeyFits, Resolve, NodeHash;
    ProperInit(specs, n);
    InitOf(specs, n);
    if s in specs[..n] {
      assert s.id in Ids(specs[..n]);
      KeyStays(w, rq, store, s, st, specs[n], PlanNode(w, rq, store, specs[n], st).value.plan[specs[n].id]);
    } else {
      KeyNew(w, rq, store, specs[..n], specs[n], st);
    }
  }

  // ---------------------------------------------------------------- wired ports

  /** A wired port enters the key as whatever the refs map holds under the edge's name. */
  lemma WiredEntersKey(w: World, rq: Request, store: Store, s: NodeSpec, st: PlanState, p: string)
    requires KeyFits(w, rq, store, s, st) && Wired(w, s, p)
    ensures s.edges[p] in st.refs && p in st.plan[s.id].h.inputs
    ensures st.plan[s.id].h.inputs[p] == KeyInputOf(st.refs[s.edges[p]])
  {
    assert Fed(rq.job, s, p);
  }

  /** The planned keys follow every edge if and only if no port is wired to a name that is at once
      an external input and a node's output. */
  lemma KeysFollowEdgesExactly(w: World, rq: Request, store: Store, specs: seq<NodeSpec>)
    requires ProperIds(specs) && PlanAll(w, rq, store, specs).Some?
    ensures KeysFollowEdges(w, specs, PlanAll(w, rq, store, specs).value.plan) <==> NoShadow(w, rq, specs)
  {
    hide KeyFits, EdgeInKey, PlanAll;
    PlanFitsKeys(w, rq, store, specs);
    PlanHasKeys(w, rq, store, specs);
    var st := PlanAll(w, rq, store, specs).value;
    if NoShadow(w, rq, specs) {
      forall s, t, p, q | s in specs && t in specs && Wired(w, s, p) && q in OutputsOf(w, t) && s.edges[p] == Key(t.id, q)
        ensures EdgeInKey(st.plan, s, p, t, q)
      {
        UnshadowedInKey(w, rq, store, specs, st, s, p, t, q);
      }
    }
    if KeysFollowEdges(w, specs, st.plan) {
      forall s, p | s in specs && Wired(w, s, p) && s.edges[p] in rq.job.inputs ensures s.edges[p] !in AllOutputKeys(w, specs) {
        if s.edges[p] in AllOutputKeys(w, specs) {
          ShadowInKey(w, rq, store, specs, st, s, p);
        }
      }
    }
  }

  /** A shadowed port's key names the file, not the producer. */
  lemma ShadowInKey(w: World, rq: Request, store: Store, specs: seq<NodeSpec>, st: PlanState, s: NodeSpec, p: string)
    requires PlannedKeys(w, rq, specs, st) && KeyFits(w, rq, store, s, st) && s in specs && Wired(w, s, p)
    requires s.edges[p] in rq.job.inputs && s.edges[p] in AllOutputKeys(w, specs)
    ensures !KeysFollowEdges(w, specs, st.plan)
  {
    hide KeyFits, Resolve, AllOutputKeys;
    var t, q := OutputKeyOwner(w, specs, s.edges[p]);
    WiredEntersKey(w, rq, store, s, st, p);
    assert !EdgeInKey(st.plan, s, p, t, q);
  }

  lemma UnshadowedInKey(w: World, rq: Request, store: Store, specs: seq<NodeSpec>, st: PlanState,
                        s: NodeSpec, p: string, t: NodeSpec, q: string)
    requires KeyFits(w, rq, store, s, st) && KeyFits(w, rq, store, t, st) && NoShadow(w, rq, specs) && s in specs && t in specs
    requires Wired(w, s, p) && q in OutputsOf(w, t) && s.edges[p] == Key(t.id, q)
    ensures EdgeInKey(st.plan, s, p, t, q)
  {
    OutputKeysOfMember(w, specs, t, q);
    assert Unshadowed(w, rq.job, s, AllOutputKeys(w, specs));
    WiredEntersKey(w, rq, store, s, st, p);
  }

  // ---------------------------------------------------------------- ports without a value

  /** The key that a node's inputs give when they are resolved from `refs`. */
  function KeyFrom(w: World, rq: Request, s: NodeSpec, refs: map<string, Ref>): Option<Hash>
    requires s.kind in w.registry
  {
    var inputs := Resolve(s, w.registry[s.kind], refs);
    if inputs.None? then None else Some(NodeHash(w, w.registry[s.kind], inputs.value, ResolvedParams(rq, s)))
  }

  /** Without a self-fed port, the ports that resolve after planning are the fed ones. */
  lemma ResolvedAfterwards(w: World, rq: Request, store: Store, specs: seq<NodeSpec>, s: NodeSpec, st: PlanState, p: string)
    requires ProperIds(specs) && s in specs && PlannedKeys(w, rq, specs, st) && KeyFits(w, rq, store, s, st)
    requires NoSelfFeed(w, rq.job, s) && p in w.registry[s.kind].inputs
    ensures SourceKey(s, p) in st.refs <==> Fed(rq.job, s, p)
  {
    if !Fed(rq.job, s, p) && Key(s.id, p) in AllOutputKeys(w, specs) {
      var t, q := OutputKeyOwner(w, specs, Key(s.id, p));
      KeyInjective(s.id, p, t.id, q);
      SameSpec(specs, s, t);
      assert Starved(w, rq.job, s, p);
    }
  }

  lemma SameSpec(specs: seq<NodeSpec>, s: NodeSpec, t: NodeSpec)
    requires ProperIds(specs) && s in specs && t in specs && s.id == t.id
    ensures s == t
  {
  }

  lemma KeyFromFed(w: World, rq: Request, store: Store, s: NodeSpec, st: PlanState)
    requires KeyFits(w, rq, store, s, st)
    requires forall p :: p in w.registry[s.kind].inputs ==> (SourceKey(s, p) in st.refs <==> Fed(rq.job, s, p))
    ensures KeyFrom(w, rq, s, st.refs) == Some(st.plan[s.id].h)
  {
    hide InputsFit, OutputsPlanned, PlanFits, SourceKey, Resolve;
    ResolveFed(w, rq, s, st.plan[s.id].h, st.refs);
  }

  lemma ResolveFed(w: World, rq: Request, s: NodeSpec, h: Hash, refs: map<string, Ref>)
    requires s.kind in w.registry && InputsFit(w, rq.job, s, h, refs)
    requires forall p :: p in w.registry[s.kind].inputs ==> (SourceKey(s, p) in refs <==> Fed(rq.job, s, p))
    ensures Resolve(s, w.registry[s.kind], refs).Some?
    ensures var inputs := Resolve(s, w.registry[s.kind], refs).value;
      (map p | p in inputs :: KeyInputOf(inputs[p])) == h.inputs
  {
    var cls := w.registry[s.kind];
    forall p | p in cls.inputs ensures PortResolves(s, cls, refs, p) {
      assert !Fed(rq.job, s, p) ==> p in cls.optional && p !in s.edges;
    }
    var inputs := Resolve(s, cls, refs).value;
    var keyed := map p | p in inputs :: KeyInputOf(inputs[p]);
    assert keyed.Keys == h.inputs.Keys;
  }

  /** A self-fed port resolves to the node's own placeholder, and the key did not count it. */
  lemma SelfFedDiffers(w: World, rq: Request, store: Store, s: NodeSpec, st: PlanState, p: string)
    requires KeyFits(w, rq, store, s, st) && Starved(w, rq.job, s, p) && p in OutputsOf(w, s)
    ensures KeyFrom(w, rq, s, st.refs) != Some(st.plan[s.id].h)
  {
    assert st.refs[Key(s.id, p)] == Output(st.plan[s.id].h, p);
    assert p !in st.plan[s.id].h.inputs;
    var inputs := Resolve(s, w.registry[s.kind], st.refs);
    if inputs.Some? {
      assert p in NodeHash(w, w.registry[s.kind], inputs.value, ResolvedParams(rq, s)).inputs;
    }
  }

  /** Recomputing a node's key once everything is planned gives the planned key if and only if no optional
      port without a value has the name of one of the node's outputs. */
  lemma SelfFeedExactly(w: World, rq: Request, store: Store, specs: seq<NodeSpec>, s: NodeSpec)
    requires ProperIds(specs) && s in specs && PlanAll(w, rq, store, specs).Some?
    ensures var st := PlanAll(w, rq, store, specs).value;
      && s.kind in w.registry && s.id in st.plan
      && (KeyFrom(w, rq, s, st.refs) == Some(st.plan[s.id].h) <==> NoSelfFeed(w, rq.job, s))
  {
    hide PlanAll, KeyFrom, SourceKey, OutputsOf, Key;
    PlanFitsKeys(w, rq, store, specs);
    PlanHasKeys(w, rq, store, specs);
    var st := PlanAll(w, rq, store, specs).value;
    assert KeyFits(w, rq, store, s, st);
    if NoSelfFeed(w, rq.job, s) {
      forall p | p in w.registry[s.kind].inputs ensures SourceKey(s, p) in st.refs <==> Fed(rq.job, s, p) {
        ResolvedAfterwards(w, rq, store, specs, s, st, p);
      }
      KeyFromFed(w, rq, store, s, st);
    } else {
      var p :| Starved(w, rq.job, s, p) && p in OutputsOf(w, s);
      SelfFedDiffers(w, rq, store, s, st, p);
    }
  }

  /** And a self-fed node whose turn comes always fails: it is handed its own placeholder, and there is
      nothing behind it yet. */
  lemma SelfFedFails(w: World, env: Env, rq: Request, store: Store, done: seq<NodeSpec>, s: NodeSpec, st: PlanState,
                     e: ExecState, p: string)
    requires KeyFits(w, rq, store, s, st) && Starved(w, rq.job, s, p) && p in OutputsOf(w, s)
    requires DotFreeIds(done) && DotFree(s.id) && s.id !in Ids(done)
    requires RefsAgree(rq.job, AllOutputKeys(w, done), st.refs, e.refs)
    requires st.plan[s.id].h !in Reserved(rq, st.plan[s.id], e)
    ensures RunMiss(w, env, rq, s, st.plan[s.id], e).Stop?
  {
    hide NodeHash, NoiseEvents, AllOutputKeys;
    ForeignKey(w, done, s.id, p);
    var k := Key(s.id, p);
    assert k in e.refs && e.refs[k] == st.refs[k] == Output(st.plan[s.id].h, p);
    if Resolve(s, w.registry[s.kind], e.refs).Some? {
      var inputs := Resolve(s, w.registry[s.kind], e.refs).value;
      assert p in inputs && Read(Reserved(rq, st.plan[s.id], e), inputs[p]).None?;
    }
  }

  // ---------------------------------------------------------------- a shadowed run poisons the cache

  const SOURCE := NodeClass("source", 1, [], {}, {"x"}, false)
  const READER := NodeClass("reader", 1, ["i"], {}, {"y"}, false)

  /** The reader reports whether it was fed a file or a node's output. */
  function Tell(id: string, inputs: map<string, Value>): Option<map<string, Content>> {
    if id == "source" then Some(map["x" := "made"])
    else if "i" in inputs && inputs["i"].File? then Some(map["y" := "file"])
    else Some(map["y" := "node"])
  }

  function ShadowWorld(): World {
    World(map["source" := SOURCE, "reader" := READER], "", (id, version, params, extra, inputs) => Tell(id, inputs))
  }

  const A := NodeSpec("a", "source", map[], map[])
  const B := NodeSpec("b", "reader", map[], map["i" := "a.x"])
  const FILE := ExtRef("x", "/f")

  /** The job hands in a file under the name of a's output, which b is wired to. */
  const SHADOWED := Request(
    Template([A, B], map["out" := "b.y"]), Job(map["a.x" := OneFile(FILE)], map[]), map[], false)

  const HASH_A := Hash("source", 1, map[], map[], map[])
  const HASH_B := Hash("reader", 1, map["i" := KFile(FILE)], map[], map[])
  const PLAN_A := NodePlan(SOURCE, HASH_A, false, map[])
  const PLAN_B := NodePlan(READER, HASH_B, false, map[])

  /** What one passes through in the two steps of the plan, and in the two steps of the execution. */
  const FROM_FILE: map<string, Ref> := map["i" := Outside(OneFile(FILE))]
  const FROM_NODE: map<string, Ref> := map["i" := Output(HASH_A, "x")]
  const NO_INPUTS: map<string, Ref> := map[]
  const EXTERNALS: map<string, Ref> := map["a.x" := Outside(OneFile(FILE))]

  lemma Keys()
    ensures Key("a", "x") == "a.x" && Key("b", "y") == "b.y"
    ensures OutputKeys("a", {"x"}) == {"a.x"} && PortIn("a", "a.x") == "x"
  {
    OneOutput("a", "x");
  }

  lemma OneOutput(nid: string, port: string)
    ensures OutputKeys(nid, {port}) == {Key(nid, port)}
  {
    assert port in {port};
  }

  lemma NoParams()
    ensures ResolvedParams(SHADOWED, A) == map[] && ResolvedParams(SHADOWED, B) == map[]
  {
  }

  lemma ResolveA(refs: map<string, Ref>)
    ensures Resolve(A, SOURCE, refs) == Some(NO_INPUTS)
  {
    assert Resolve(A, SOURCE, refs).value == NO_INPUTS;
  }

  lemma ResolveB(refs: map<string, Ref>)
    requires "a.x" in refs
    ensures Resolve(B, READER, refs) == Some(map["i" := refs["a.x"]])
  {
    assert PortResolves(B, READER, refs, "i");
    assert Resolve(B, READER, refs).value == map["i" := refs["a.x"]];
  }

  lemma HashA()
    ensures NodeHash(ShadowWorld(), SOURCE, NO_INPUTS, map[]) == HASH_A
  {
    assert (map p | p in NO_INPUTS :: KeyInputOf(NO_INPUTS[p])) == map[];
  }

  lemma HashB()
    ensures NodeHash(ShadowWorld(), READER, FROM_FILE, map[]) == HASH_B
  {
    assert (map p | p in FROM_FILE :: KeyInputOf(FROM_FILE[p])) == map["i" := KFile(FILE)];
  }

  lemma PlanA(st: PlanState)
    requires st == PlanState(EXTERNALS, map[])
    ensures PlanNode(ShadowWorld(), SHADOWED, map[], A, st) == Some(PlanState(EXTERNALS, map["a" := PLAN_A]))
  {
    hide Resolve, NodeHash, ResolvedParams, PortIn, Key, Tell;
    Keys();
    NoParams();
    ResolveA(st.refs);
    HashA();
    assert OutputRefs("a", {"x"}, HASH_A) + st.refs == EXTERNALS;
  }

  lemma PlanB(st: PlanState)
    requires st == PlanState(EXTERNALS, map["a" := PLAN_A])
    ensures PlanNode(ShadowWorld(), SHADOWED, map[], B, st) ==
            Some(PlanState(OutputRefs("b", {"y"}, HASH_B) + EXTERNALS, map["a" := PLAN_A, "b" := PLAN_B]))
  {
    hide Resolve, NodeHash, ResolvedParams, PortIn, Key, Tell, OutputRefs;
    NoParams();
    ResolveB(st.refs);
    HashB();
    assert st.plan["b" := PLAN_B] == map["a" := PLAN_A, "b" := PLAN_B];
  }

  lemma RunA(store: Store)
    ensures RunNode(ShadowWorld(), PLAN_A, HASH_A, store, NO_INPUTS) == Some(map["x" := "made"])
  {
  }

  lemma RunB(store: Store)
    requires HASH_A in store && store[HASH_A] == map["x" := "made"]
    ensures RunNode(ShadowWorld(), PLAN_B, HASH_B, store, FROM_NODE) == Some(map["y" := "node"])
  {
    var r := Read(store, FROM_NODE["i"]);
    assert r == Some(Made("made"));
    var values := map port | port in FROM_NODE :: Read(store, FROM_NODE[port]).value;
    assert values["i"] == Made("made");
  }

  lemma ExecA(env: Env, e: ExecState)
    requires !env.cancelBefore("a") && !env.cancelInside("a") && !env.noRoom("a") && !env.refused("a")
    ensures var r := RunMiss(ShadowWorld(), env, SHADOWED, A, PLAN_A, e);
      r.Go? && r.state.store == e.store[HASH_A := map["x" := "made"]] &&
      r.state.refs == e.refs + OutputRefs("a", {"x"}, HASH_A)
  {
    hide Resolve, RunNode, NodeHash, NoiseEvents, OutputRefs, Tell;
    ResolveA(e.refs);
    RunA(e.store);
    assert map["x" := "made"].Keys == {"x"};
  }

  lemma ExecB(env: Env, e: ExecState)
    requires !env.cancelBefore("b") && !env.cancelInside("b") && !env.noRoom("b") && !env.refused("b")
    requires "a.x" in e.refs && e.refs["a.x"] == Output(HASH_A, "x")
    requires HASH_A in e.store && e.store[HASH_A] == map["x" := "made"]
    ensures var r := RunMiss(ShadowWorld(), env, SHADOWED, B, PLAN_B, e);
      r.Go? && r.state.store == e.store[HASH_B := map["y" := "node"]]
  {
    hide Resolve, RunNode, NodeHash, NoiseEvents, OutputRefs, Tell;
    ResolveB(e.refs);
    RunB(e.store);
    assert map["y" := "node"].Keys == {"y"};
  }

  lemma DenoteB()
    ensures Denote(ShadowWorld(), HASH_B) == Some(map["y" := "file"])
  {
    assert DenoteInput(ShadowWorld(), HASH_B.inputs["i"]) == Some(File(FILE));
  }

  lemma ShadowOrder()
    ensures Deps([A, B]) == map["a" := {}, "b" := {"a"}]
    ensures IsTopoOrder(Deps([A, B]), ["a", "b"])
  {
    NodeOfKey("a", "x");
    assert Ids([A, B]) == {"a", "b"};
    assert DepsOf([A, B], {"a", "b"}, "a") == {};
    assert DepsOf([A, B], {"a", "b"}, "b") == {"a"} by {
      assert B in [A, B] && "i" in B.edges && NodeOf(B.edges["i"]) == "a";
    }
    var order := ["a", "b"];
    assert order[..1] == ["a"];
    assert "a" in Elements(order[..1]);
    assert Elements(order) == {"a", "b"};
  }

  lemma Externals()
    ensures ExternalRefs(SHADOWED.job) == EXTERNALS
  {
    assert ExternalRefs(SHADOWED.job).Keys == EXTERNALS.Keys;
  }

  lemma PlanTwo(w: World, rq: Request, store: Store, s: NodeSpec, t: NodeSpec)
    ensures PlanAll(w, rq, store, [s, t]) ==
            PlanNext(w, rq, store, t, PlanNext(w, rq, store, s, Some(PlanState(ExternalRefs(rq.job), map[]))))
  {
    hide PlanNext;
    assert [s, t][..1] == [s] && [s][..0] == [];
    assert PlanAll(w, rq, store, [s]) == PlanNext(w, rq, store, s, PlanAll(w, rq, store, []));
  }

  lemma ShadowPlan()
    ensures PlanAll(ShadowWorld(), SHADOWED, map[], [A, B]) ==
            Some(PlanState(OutputRefs("b", {"y"}, HASH_B) + EXTERNALS, map["a" := PLAN_A, "b" := PLAN_B]))
  {
    hide PlanNode, PlanAll, OutputRefs, ExternalRefs, ShadowWorld;
    Externals();
    PlanTwo(ShadowWorld(), SHADOWED, map[], A, B);
    PlanA(PlanState(EXTERNALS, map[]));
    PlanB(PlanState(EXTERNALS, map["a" := PLAN_A]));
  }

  lemma ShadowSources()
    ensures OutputSources(SHADOWED.template) == {"b"}
  {
    NodeOfKey("b", "y");
    assert SHADOWED.template.outputs.Keys == {"out"};
  }

  lemma ShadowMustRun(plan: map<string, NodePlan>)
    requires plan == map["a" := PLAN_A, "b" := PLAN_B]
    ensures MustRun(SHADOWED, plan, ["a", "b"]) == {"a", "b"}
  {
    var g, outs, order := Deps([A, B]), OutputSources(SHADOWED.template), ["a", "b"];
    ShadowSources();
    ShadowOrder();
    assert Feeds(g, "a", "b");
    hide NodeOf, OutputSources, Deps;
    assert MustRunFrom(g, outs, plan, order, 2) == {};
    assert MustRunFrom(g, outs, plan, order, 1) == {"b"};
    assert MustRunFrom(g, outs, plan, order, 0) == {"a", "b"};
  }

  lemma ExecTwo(w: World, env: Env, rq: Request, plan: map<string, NodePlan>, must: set<string>, s: NodeSpec, t: NodeSpec, e: ExecState)
    ensures ExecAll(w, env, rq, plan, must, [s, t], e) ==
            ExecNext(w, env, rq, plan, must, t, ExecNode(w, env, rq, plan, must, s, e))
  {
    hide ExecNode;
    assert [s, t][..1] == [s] && [s][..0] == [];
    assert ExecAll(w, env, rq, plan, must, [s], e) == ExecNext(w, env, rq, plan, must, s, ExecAll(w, env, rq, plan, must, [], e));
  }

  lemma ShadowExec(env: Env, must: set<string>, start: ExecState)
    requires forall nid :: !env.cancelBefore(nid) && !env.cancelInside(nid) && !env.noRoom(nid) && !env.refused(nid)
    requires must == {"a", "b"} && start.store == map[]
    ensures var r := ExecAll(ShadowWorld(), env, SHADOWED, map["a" := PLAN_A, "b" := PLAN_B], must, [A, B], start);
      r.Go? && HASH_B in r.state.store && r.state.store[HASH_B] == map["y" := "node"]
  {
    hide RunMiss, ExecAll, ShadowWorld, PortIn, Key;
    var w, plan := ShadowWorld(), map["a" := PLAN_A, "b" := PLAN_B];
    ExecTwo(w, env, SHADOWED, plan, must, A, B, start);
    ExecA(env, start);
    Keys();
    ExecB(env, RunMiss(w, env, SHADOWED, A, PLAN_A, start).state);
  }

  /** Under the shadow, the reader's key says "file" while it is run on the node's output: the entry it
      commits is not what the key denotes, and a later job that does hand in the file is served it. */
  lemma ShadowPoisonsCache(env: Env)
    requires forall nid :: !env.cancelBefore(nid) && !env.cancelInside(nid) && !env.noRoom(nid) && !env.refused(nid)
    ensures Sound(ShadowWorld(), map[]) && IsTopoOrder(Deps(SHADOWED.template.nodes), ["a", "b"])
    ensures PlanAll(ShadowWorld(), SHADOWED, map[], [A, B]).Some?
    ensures var w := ShadowWorld();
      var st := PlanAll(w, SHADOWED, map[], [A, B]).value;
      var r := ExecAll(w, env, SHADOWED, st.plan, MustRun(SHADOWED, st.plan, ["a", "b"]), [A, B], ExecState(st.refs, map[], [], []));
      r.Go? && !Sound(w, r.state.store)
  {
    hide PlanAll, ExecAll, MustRun, IsTopoOrder, Deps, Denote, ShadowWorld, OutputRefs;
    ShadowOrder();
    ShadowPlan();
    var st := PlanAll(ShadowWorld(), SHADOWED, map[], [A, B]).value;
    ShadowMustRun(st.plan);
    var start := ExecState(st.refs, map[], [], []);
    ShadowExec(env, {"a", "b"}, start);
    DenoteB();
    var store := ExecAll(ShadowWorld(), env, SHADOWED, st.plan, {"a", "b"}, [A, B], start).state.store;
    assert store[HASH_B]["y"] == "node" != "file" == Denote(ShadowWorld(), HASH_B).value["y"];
  }
}
