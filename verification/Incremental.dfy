/** The incremental runner computes what evaluating every node from scratch computes. */
module Incremental {
  import opened Models
  import opened Wrappers
  import opened Topology
  import opened Runtime

  // ---------------------------------------------------------------- what a key denotes

  /** The outputs a key stands for: the run of its node on what its inputs stand for. */
  function Denote(w: World, h: Hash): Option<map<string, Content>>
    decreases h, 2
  {
    if InputsDenote(w, h) then w.run(h.id, h.version, h.params, h.extra, DenotedInputs(w, h)) else None
  }

  predicate InputsDenote(w: World, h: Hash)
    decreases h, 0
  {
    forall p :: p in h.inputs ==> DenoteInput(w, h.inputs[p]).Some?
  }

  function DenotedInputs(w: World, h: Hash): map<string, Value>
    requires InputsDenote(w, h)
    decreases h, 1
  {
    map p | p in h.inputs :: DenoteInput(w, h.inputs[p]).value
  }

  function DenoteInput(w: World, v: KeyInput): Option<Value>
    decreases v
  {
    match v
    case KFile(f) => Some(File(f))
    case KFiles(fs) => Some(Files(fs))
    case KOutput(h, p) => PortValue(Denote(w, h), p)
  }

  function PortValue(r: Option<map<string, Content>>, port: string): Option<Value> {
    if r.Some? && port in r.value then Some(Made(r.value[port])) else None
  }

  /** Every committed entry holds what its key denotes. */
  ghost predicate Sound(w: World, store: Store) {
    forall h :: h in store ==> Denote(w, h) == Some(store[h])
  }

  // ---------------------------------------------------------------- evaluation from scratch

  /** Results by node, and the value behind each "<node>.<port>" output key. No keys, no cache. */
  datatype Scratch = Scratch(results: map<string, Option<map<string, Content>>>, made: map<string, Option<Value>>)

  predicate HasInput(job: Job, made: map<string, Option<Value>>, spec: NodeSpec, port: string) {
    if port in spec.edges then spec.edges[port] in made || spec.edges[port] in job.inputs
    else Key(spec.id, port) in job.inputs
  }

  function ExternalValue(v: ExtVal): Value {
    match v
    case OneFile(f) => File(f)
    case ManyFiles(fs) => Files(multiset(fs))
  }

  /** An edge reads the producer's output; only what no node produces comes from the job. */
  function InputValue(job: Job, made: map<string, Option<Value>>, spec: NodeSpec, port: string): Option<Value>
    requires HasInput(job, made, spec, port)
  {
    if port in spec.edges then
      if spec.edges[port] in made then made[spec.edges[port]] else Some(ExternalValue(job.inputs[spec.edges[port]]))
    else Some(ExternalValue(job.inputs[Key(spec.id, port)]))
  }

  predicate InputsReady(job: Job, made: map<string, Option<Value>>, spec: NodeSpec, cls: NodeClass) {
    forall p :: p in cls.inputs ==>
      if HasInput(job, made, spec, p) then InputValue(job, made, spec, p).Some?
      else p !in spec.edges && p in cls.optional
  }

  function FedInputs(job: Job, made: map<string, Option<Value>>, spec: NodeSpec, cls: NodeClass): map<string, Value>
    requires InputsReady(job, made, spec, cls)
  {
    map p | p in cls.inputs && HasInput(job, made, spec, p) :: InputValue(job, made, spec, p).value
  }

  function Extra(w: World, cls: NodeClass): map<string, string> {
    if cls.usesSiril then map["siril_version" := w.siril] else map[]
  }

  function ScratchNode(w: World, rq: Request, made: map<string, Option<Value>>, spec: NodeSpec): Option<map<string, Content>> {
    if spec.kind !in w.registry then None else
    var cls := w.registry[spec.kind];
    if InputsReady(rq.job, made, spec, cls) then
      w.run(cls.id, cls.version, ResolvedParams(rq, spec), Extra(w, cls), FedInputs(rq.job, made, spec, cls))
    else
      None
  }

  function OutputsOf(w: World, spec: NodeSpec): set<string> {
    if spec.kind in w.registry then w.registry[spec.kind].outputs else {}
  }

  function OutputValues(nid: string, ports: set<string>, r: Option<map<string, Content>>): map<string, Option<Value>> {
    map k | k in OutputKeys(nid, ports) :: PortValue(r, PortIn(nid, k))
  }

  function ScratchNext(w: World, rq: Request, spec: NodeSpec, sc: Scratch): Scratch {
    var r := ScratchNode(w, rq, sc.made, spec);
    Scratch(sc.results[spec.id := r], sc.made + OutputValues(spec.id, OutputsOf(w, spec), r))
  }

  /** Evaluates every node of `specs`, which are in a topological order. */
  function ScratchAll(w: World, rq: Request, specs: seq<NodeSpec>): Scratch {
    if |specs| == 0 then Scratch(map[], map[]) else
    ScratchNext(w, rq, specs[|specs| - 1], ScratchAll(w, rq, specs[..|specs| - 1]))
  }

  /** The value a template output stands for. */
  function ScratchValue(job: Job, sc: Scratch, internal: string): Option<Value> {
    if internal in sc.made then sc.made[internal]
    else if internal in job.inputs then Some(ExternalValue(job.inputs[internal]))
    else None
  }

  // ---------------------------------------------------------------- what a request must satisfy

  function AllOutputKeys(w: World, specs: seq<NodeSpec>): set<string> {
    if |specs| == 0 then {} else
    var n := |specs| - 1;
    AllOutputKeys(w, specs[..n]) + OutputKeys(specs[n].id, OutputsOf(w, specs[n]))
  }

  predicate DotFreeIds(specs: seq<NodeSpec>) {
    forall s :: s in specs ==> DotFree(s.id)
  }

  /** Distinct node ids without dots. */
  predicate ProperIds(specs: seq<NodeSpec>) {
    DotFreeIds(specs) && forall i, j :: 0 <= i < j < |specs| ==> specs[i].id != specs[j].id
  }

  /** Every in-template edge of `s` starts at one of `before`. */
  predicate ReadsBack(s: NodeSpec, ids: set<string>, before: set<string>) {
    forall p :: p in s.edges && NodeOf(s.edges[p]) in ids ==> NodeOf(s.edges[p]) in before
  }

  /** Producers come before their consumers. */
  predicate ProducersFirst(specs: seq<NodeSpec>, ids: set<string>) {
    forall i :: 0 <= i < |specs| ==> ReadsBack(specs[i], ids, Ids(specs[..i]))
  }

  predicate Wired(w: World, s: NodeSpec, p: string) {
    s.kind in w.registry && p in w.registry[s.kind].inputs && p in s.edges
  }

  /** No port of `s` is wired to a key that is at once an external input and a node's output. */
  ghost predicate Unshadowed(w: World, job: Job, s: NodeSpec, outputs: set<string>) {
    forall p :: Wired(w, s, p) && s.edges[p] in job.inputs ==> s.edges[p] !in outputs
  }

  ghost predicate NoShadow(w: World, rq: Request, specs: seq<NodeSpec>) {
    forall s :: s in specs ==> Unshadowed(w, rq.job, s, AllOutputKeys(w, specs))
  }

  /** An optional input port of `s` that gets no value. */
  predicate Starved(w: World, job: Job, s: NodeSpec, p: string) {
    && s.kind in w.registry && p in w.registry[s.kind].inputs && p in w.registry[s.kind].optional
    && p !in s.edges && Key(s.id, p) !in job.inputs
  }

  /** An optional port that gets no value does not carry the name of one of its node's outputs. */
  ghost predicate NoSelfFeed(w: World, job: Job, s: NodeSpec) {
    forall p :: Starved(w, job, s, p) ==> p !in OutputsOf(w, s)
  }

  // ---------------------------------------------------------------- keys

  lemma {:induction false} OutputKeyOwner(w: World, specs: seq<NodeSpec>, key: string) returns (s: NodeSpec, p: string)
    requires key in AllOutputKeys(w, specs)
    ensures s in specs && p in OutputsOf(w, s) && key == Key(s.id, p)
  {
    var n := |specs| - 1;
    if key in OutputKeys(specs[n].id, OutputsOf(w, specs[n])) {
      s := specs[n];
      p :| p in OutputsOf(w, s) && key == Key(s.id, p);
    } else {
      s, p := OutputKeyOwner(w, specs[..n], key);
    }
  }

  /** A key of a node that is not among `specs` is not an output key of `specs`. */
  lemma ForeignKey(w: World, specs: seq<NodeSpec>, nid: string, p: string)
    requires DotFreeIds(specs) && DotFree(nid) && nid !in Ids(specs)
    ensures Key(nid, p) !in AllOutputKeys(w, specs)
  {
    if Key(nid, p) in AllOutputKeys(w, specs) {
      var s, q := OutputKeyOwner(w, specs, Key(nid, p));
      KeyInjective(nid, p, s.id, q);
    }
  }

  lemma OwnKey(nid: string, ports: set<string>, p: string)
    requires Key(nid, p) in OutputKeys(nid, ports)
    ensures p in ports
  {
    var q :| q in ports && Key(nid, q) == Key(nid, p);
    assert PortIn(nid, Key(nid, q)) == q && PortIn(nid, Key(nid, p)) == p;
  }

  lemma OtherKey(m: string, ports: set<string>, nid: string, p: string)
    requires DotFree(m) && DotFree(nid) && m != nid
    ensures Key(nid, p) !in OutputKeys(m, ports)
  {
    if Key(nid, p) in OutputKeys(m, ports) {
      var q :| q in ports && Key(m, q) == Key(nid, p);
      KeyInjective(m, q, nid, p);
    }
  }

  lemma {:induction false} OutputKeysOfMember(w: World, specs: seq<NodeSpec>, s: NodeSpec, p: string)
    requires s in specs && p in OutputsOf(w, s)
    ensures Key(s.id, p) in AllOutputKeys(w, specs)
  {
    var n := |specs| - 1;
    if s != specs[n] {
      assert specs == specs[..n] + [specs[n]];
      OutputKeysOfMember(w, specs[..n], s, p);
    }
  }

  // ---------------------------------------------------------------- the plan

  /** What planning leaves behind for one node, stated on the final refs. */
  ghost predicate PlannedNode(w: World, rq: Request, store: Store, s: NodeSpec, st: PlanState) {
    && s.kind in w.registry
    && s.id in st.plan
    && PlanFits(w, rq, store, s, st.plan[s.id])
    && Resolve(s, st.plan[s.id].cls, st.refs).Some?
    && st.plan[s.id].h == NodeHash(w, st.plan[s.id].cls, Resolve(s, st.plan[s.id].cls, st.refs).value, st.plan[s.id].params)
    && OutputsPlanned(w, rq.job, s, st)
    && UnwiredFed(rq.job, s, w.registry[s.kind])
  }

  /** A required port without an edge has an external input. */
  ghost predicate UnwiredFed(job: Job, s: NodeSpec, cls: NodeClass) {
    forall p :: p in cls.inputs && p !in s.edges && Key(s.id, p) !in job.inputs ==> p in cls.optional
  }

  ghost predicate PlanFits(w: World, rq: Request, store: Store, s: NodeSpec, p: NodePlan)
    requires s.kind in w.registry
  {
    && p.cls == w.registry[s.kind]
    && p.params == ResolvedParams(rq, s)
    && p.isHit == (!rq.force && p.h in store)
  }

  ghost predicate OutputsPlanned(w: World, job: Job, s: NodeSpec, st: PlanState)
    requires s.id in st.plan
  {
    forall p :: p in OutputsOf(w, s) && Key(s.id, p) !in job.inputs ==>
      Key(s.id, p) in st.refs && st.refs[Key(s.id, p)] == Output(st.plan[s.id].h, p)
  }

  ghost predicate ExternalsKept(job: Job, refs: map<string, Ref>) {
    forall k :: k in job.inputs ==> k in refs && refs[k] == Outside(job.inputs[k])
  }

  /** Planning adds the output keys of the planned nodes and keeps the external inputs. */
  ghost predicate PlannedKeys(w: World, rq: Request, specs: seq<NodeSpec>, st: PlanState) {
    && st.plan.Keys == Ids(specs)
    && st.refs.Keys == rq.job.inputs.Keys + AllOutputKeys(w, specs)
    && ExternalsKept(rq.job, st.refs)
  }

  ghost predicate Planned(w: World, rq: Request, store: Store, specs: seq<NodeSpec>, st: PlanState) {
    && PlannedKeys(w, rq, specs, st)
    && (forall s :: s in specs ==> PlannedNode(w, rq, store, s, st))
  }

  /** Resolution only looks at the keys of the node's ports. */
  lemma ResolveAgrees(spec: NodeSpec, cls: NodeClass, r1: map<string, Ref>, r2: map<string, Ref>)
    requires forall p :: p in cls.inputs ==>
      (SourceKey(spec, p) in r1 <==> SourceKey(spec, p) in r2) &&
      (SourceKey(spec, p) in r1 ==> r1[SourceKey(spec, p)] == r2[SourceKey(spec, p)])
    ensures Resolve(spec, cls, r1) == Resolve(spec, cls, r2)
  {
    assert forall p :: p in cls.inputs ==> (PortResolves(spec, cls, r1, p) <==> PortResolves(spec, cls, r2, p));
    if Resolve(spec, cls, r1).Some? {
      assert Resolve(spec, cls, r1).value == Resolve(spec, cls, r2).value;
    }
  }

  /** A resolved node keeps its inputs when keys are added behind the existing ones. */
  lemma ResolveStable(w: World, job: Job, s: NodeSpec, refs: map<string, Ref>, added: map<string, Ref>)
    requires s.kind in w.registry && ExternalsKept(job, refs)
    requires Resolve(s, w.registry[s.kind], refs).Some?
    requires forall p :: Starved(w, job, s, p) ==> Key(s.id, p) !in added
    ensures Resolve(s, w.registry[s.kind], added + refs) == Resolve(s, w.registry[s.kind], refs)
  {
    var cls := w.registry[s.kind];
    forall p | p in cls.inputs
      ensures SourceKey(s, p) in added + refs <==> SourceKey(s, p) in refs
    {
      assert PortResolves(s, cls, refs, p);
      if SourceKey(s, p) !in refs {
        assert Starved(w, job, s, p);
      }
    }
    ResolveAgrees(s, cls, added + refs, refs);
  }

  /** Planning another node leaves a planned one as it is. */
  lemma PlannedNodeStays(w: World, rq: Request, store: Store, s: NodeSpec, st: PlanState, spec: NodeSpec, p: NodePlan)
    requires PlannedNode(w, rq, store, s, st) && ExternalsKept(rq.job, st.refs) && NoSelfFeed(w, rq.job, s)
    requires DotFree(s.id) && DotFree(spec.id) && s.id != spec.id
    ensures PlannedNode(w, rq, store, s,
      PlanState(OutputRefs(spec.id, p.cls.outputs, p.h) + st.refs, st.plan[spec.id := p]))
  {
    var added := OutputRefs(spec.id, p.cls.outputs, p.h);
    forall q | Starved(w, rq.job, s, q) ensures Key(s.id, q) !in added {
      OtherKey(spec.id, p.cls.outputs, s.id, q);
    }
    ResolveStable(w, rq.job, s, st.refs, added);
  }

  /** A freshly planned node is planned. */
  lemma PlannedNodeNew(w: World, rq: Request, store: Store, spec: NodeSpec, st: PlanState)
    requires PlanNode(w, rq, store, spec, st).Some? && ExternalsKept(rq.job, st.refs) && NoSelfFeed(w, rq.job, spec)
    requires forall q :: Key(spec.id, q) in st.refs ==> Key(spec.id, q) in rq.job.inputs
    ensures PlannedNode(w, rq, store, spec, PlanNode(w, rq, store, spec, st).value)
  {
    var st' := PlanNode(w, rq, store, spec, st).value;
    var p := st'.plan[spec.id];
    var added := OutputRefs(spec.id, p.cls.outputs, p.h);
    forall q | Starved(w, rq.job, spec, q) ensures Key(spec.id, q) !in added {
      if Key(spec.id, q) in added {
        OwnKey(spec.id, p.cls.outputs, q);
      }
    }
    ResolveStable(w, rq.job, spec, st.refs, added);
    forall q | q in p.cls.inputs && q !in spec.edges && Key(spec.id, q) !in rq.job.inputs ensures q in p.cls.optional {
      assert PortResolves(spec, p.cls, st.refs, q);
    }
    forall q | q in OutputsOf(w, spec) && Key(spec.id, q) !in rq.job.inputs
      ensures Key(spec.id, q) in st'.refs && st'.refs[Key(spec.id, q)] == Output(p.h, q)
    {
      assert PortIn(spec.id, Key(spec.id, q)) == q;
      assert Key(spec.id, q) in added;
    }
  }

  /** The nodes planned before stay planned, and the last one becomes planned. */
  lemma PlanStepNodes(w: World, rq: Request, store: Store, before: seq<NodeSpec>, spec: NodeSpec, st: PlanState, s: NodeSpec)
    requires DotFreeIds(before) && DotFree(spec.id) && spec.id !in Ids(before)
    requires NoSelfFeed(w, rq.job, s)
    requires Planned(w, rq, store, before, st)
    requires PlanNode(w, rq, store, spec, st).Some?
    requires s in before || s == spec
    ensures PlannedNode(w, rq, store, s, PlanNode(w, rq, store, spec, st).value)
  {
    if s in before {
      assert s.id in Ids(before);
      PlannedNodeStays(w, rq, store, s, st, spec, PlanNode(w, rq, store, spec, st).value.plan[spec.id]);
    } else {
      forall q | Key(spec.id, q) in st.refs ensures Key(spec.id, q) in rq.job.inputs {
        ForeignKey(w, before, spec.id, q);
      }
      PlannedNodeNew(w, rq, store, spec, st);
    }
  }

  lemma IdsOfInit(specs: seq<NodeSpec>, n: nat)
    requires |specs| == n + 1
    ensures Ids(specs) == Ids(specs[..n]) + {specs[n].id}
  {
    InitOf(specs, n);
  }

  lemma ProperInit(specs: seq<NodeSpec>, n: nat)
    requires |specs| == n + 1 && ProperIds(specs)
    ensures ProperIds(specs[..n]) && DotFree(specs[n].id) && specs[n].id !in Ids(specs[..n])
    ensures Ids(specs) == Ids(specs[..n]) + {specs[n].id}
  {
    InitOf(specs, n);
  }

  lemma PlanNodeKeys(w: World, rq: Request, store: Store, spec: NodeSpec, st: PlanState)
    requires PlanNode(w, rq, store, spec, st).Some?
    ensures var st' := PlanNode(w, rq, store, spec, st).value;
      && st'.plan.Keys == st.plan.Keys + {spec.id}
      && st'.refs.Keys == st.refs.Keys + OutputKeys(spec.id, OutputsOf(w, spec))
      && (ExternalsKept(rq.job, st.refs) ==> ExternalsKept(rq.job, st'.refs))
  {
    hide Resolve, NodeHash;
  }

  lemma {:induction false} PlanHasKeys(w: World, rq: Request, store: Store, specs: seq<NodeSpec>)
    requires PlanAll(w, rq, store, specs).Some?
    ensures PlannedKeys(w, rq, specs, PlanAll(w, rq, store, specs).value)
  {
    if |specs| > 0 {
      var n := |specs| - 1;
      PlanHasKeys(w, rq, store, specs[..n]);
      PlanNodeKeys(w, rq, store, specs[n], PlanAll(w, rq, store, specs[..n]).value);
      IdsOfInit(specs, n);
    }
  }

  lemma {:induction false} PlanIsPlanned(w: World, rq: Request, store: Store, specs: seq<NodeSpec>)
    requires ProperIds(specs) && forall s :: s in specs ==> NoSelfFeed(w, rq.job, s)
    requires PlanAll(w, rq, store, specs).Some?
    ensures Planned(w, rq, store, specs, PlanAll(w, rq, store, specs).value)
  {
    PlanHasKeys(w, rq, store, specs);
    if |specs| > 0 {
      var n := |specs| - 1;
      InitOf(specs, n);
      ProperInit(specs, n);
      PlanIsPlanned(w, rq, store, specs[..n]);
      forall s | s in specs ensures PlannedNode(w, rq, store, s, PlanAll(w, rq, store, specs).value) {
        PlanStepNodes(w, rq, store, specs[..n], specs[n], PlanAll(w, rq, store, specs[..n]).value, s);
      }
    }
  }

  // ---------------------------------------------------------------- planned keys denote scratch results

  /** The planned key of `s` denotes the result that scratch evaluation gives it. */
  ghost predicate NodeMatches(w: World, s: NodeSpec, plan: map<string, NodePlan>, sc: Scratch) {
    && s.id in plan && s.id in sc.results
    && Denote(w, plan[s.id].h) == sc.results[s.id]
    && (forall p :: p in OutputsOf(w, s) ==>
          Key(s.id, p) in sc.made && sc.made[Key(s.id, p)] == PortValue(sc.results[s.id], p))
  }

  lemma {:induction false} ScratchHasKeys(w: World, rq: Request, specs: seq<NodeSpec>)
    ensures ScratchAll(w, rq, specs).made.Keys == AllOutputKeys(w, specs)
  {
    if |specs| > 0 {
      ScratchHasKeys(w, rq, specs[..|specs| - 1]);
    }
  }

  lemma {:induction false} OutputKeysGrow(w: World, specs: seq<NodeSpec>, n: nat)
    requires n <= |specs|
    ensures AllOutputKeys(w, specs[..n]) <= AllOutputKeys(w, specs)
  {
    if n < |specs| {
      var m := |specs| - 1;
      assert specs[..m][..n] == specs[..n];
      OutputKeysGrow(w, specs[..m], n);
    } else {
      assert specs[..n] == specs;
    }
  }

  /** A planned input denotes the value that scratch evaluation feeds to the port. */
  lemma InputMatches(w: World, rq: Request, store: Store, before: seq<NodeSpec>, spec: NodeSpec, st: PlanState, sc: Scratch, p: string)
    requires DotFreeIds(before) && DotFree(spec.id) && spec.id !in Ids(before)
    requires Planned(w, rq, store, before, st)
    requires sc.made.Keys == AllOutputKeys(w, before)
    requires forall s :: s in before ==> NodeMatches(w, s, st.plan, sc)
    requires Unshadowed(w, rq.job, spec, AllOutputKeys(w, before))
    requires spec.kind in w.registry && p in w.registry[spec.kind].inputs
    ensures HasInput(rq.job, sc.made, spec, p) <==> SourceKey(spec, p) in st.refs
    ensures HasInput(rq.job, sc.made, spec, p) ==>
      DenoteInput(w, KeyInputOf(st.refs[SourceKey(spec, p)])) == InputValue(rq.job, sc.made, spec, p)
  {
    var k := SourceKey(spec, p);
    if p in spec.edges {
      if k in sc.made {
        var s, q := OutputKeyOwner(w, before, k);
        assert NodeMatches(w, s, st.plan, sc) && PlannedNode(w, rq, store, s, st);
        assert Wired(w, spec, p);
      }
    } else {
      ForeignKey(w, before, spec.id, p);
    }
  }

  /** Equal inputs, port by port, make the planned key denote the scratch result. */
  lemma NewNodeMatches(w: World, rq: Request, store: Store, before: seq<NodeSpec>, spec: NodeSpec, st: PlanState, sc: Scratch)
    requires DotFreeIds(before) && DotFree(spec.id) && spec.id !in Ids(before)
    requires Planned(w, rq, store, before, st)
    requires sc.made.Keys == AllOutputKeys(w, before)
    requires forall s :: s in before ==> NodeMatches(w, s, st.plan, sc)
    requires Unshadowed(w, rq.job, spec, AllOutputKeys(w, before))
    requires PlanNode(w, rq, store, spec, st).Some?
    ensures Denote(w, PlanNode(w, rq, store, spec, st).value.plan[spec.id].h) == ScratchNode(w, rq, sc.made, spec)
  {
    var cls := w.registry[spec.kind];
    var h := PlanNode(w, rq, store, spec, st).value.plan[spec.id].h;
    forall p | p in cls.inputs
      ensures HasInput(rq.job, sc.made, spec, p) <==> SourceKey(spec, p) in st.refs
      ensures HasInput(rq.job, sc.made, spec, p) ==>
        DenoteInput(w, KeyInputOf(st.refs[SourceKey(spec, p)])) == InputValue(rq.job, sc.made, spec, p)
      ensures PortResolves(spec, cls, st.refs, p)
    {
      InputMatches(w, rq, store, before, spec, st, sc, p);
    }
    DenoteByInputs(w, rq, spec, cls, st.refs, sc.made, h);
  }

  lemma KeyedInputs(w: World, rq: Request, spec: NodeSpec, cls: NodeClass, refs: map<string, Ref>,
                       made: map<string, Option<Value>>, h: Hash)
    requires spec.kind in w.registry && cls == w.registry[spec.kind]
    requires Resolve(spec, cls, refs).Some?
    requires h == NodeHash(w, cls, Resolve(spec, cls, refs).value, ResolvedParams(rq, spec))
    requires forall p :: p in cls.inputs ==>
      (HasInput(rq.job, made, spec, p) <==> SourceKey(spec, p) in refs)
    requires forall p :: p in cls.inputs && HasInput(rq.job, made, spec, p) ==>
      DenoteInput(w, KeyInputOf(refs[SourceKey(spec, p)])) == InputValue(rq.job, made, spec, p)
    ensures forall p :: p in h.inputs <==> p in cls.inputs && HasInput(rq.job, made, spec, p)
    ensures forall p :: p in h.inputs ==> DenoteInput(w, h.inputs[p]) == InputValue(rq.job, made, spec, p)
    ensures InputsReady(rq.job, made, spec, cls) <==> InputsDenote(w, h)
  {
    forall p | p in cls.inputs && !HasInput(rq.job, made, spec, p)
      ensures p !in spec.edges && p in cls.optional
    {
      assert PortResolves(spec, cls, refs, p);
    }
  }

  lemma SameInputs(w: World, job: Job, made: map<string, Option<Value>>, spec: NodeSpec, cls: NodeClass, h: Hash)
    requires InputsReady(job, made, spec, cls) && InputsDenote(w, h)
    requires forall p :: p in h.inputs <==> p in cls.inputs && HasInput(job, made, spec, p)
    requires forall p :: p in h.inputs ==> DenoteInput(w, h.inputs[p]) == InputValue(job, made, spec, p)
    ensures DenotedInputs(w, h) == FedInputs(job, made, spec, cls)
  {
    var denoted, fed := DenotedInputs(w, h), FedInputs(job, made, spec, cls);
    assert denoted.Keys == fed.Keys;
    forall p | p in denoted ensures denoted[p] == fed[p] {
    }
  }

  lemma DenoteByInputs(w: World, rq: Request, spec: NodeSpec, cls: NodeClass, refs: map<string, Ref>,
                       made: map<string, Option<Value>>, h: Hash)
    requires spec.kind in w.registry && cls == w.registry[spec.kind]
    requires Resolve(spec, cls, refs).Some?
    requires h == NodeHash(w, cls, Resolve(spec, cls, refs).value, ResolvedParams(rq, spec))
    requires forall p :: p in cls.inputs ==>
      (HasInput(rq.job, made, spec, p) <==> SourceKey(spec, p) in refs)
    requires forall p :: p in cls.inputs && HasInput(rq.job, made, spec, p) ==>
      DenoteInput(w, KeyInputOf(refs[SourceKey(spec, p)])) == InputValue(rq.job, made, spec, p)
    ensures Denote(w, h) == ScratchNode(w, rq, made, spec)
  {
    KeyedInputs(w, rq, spec, cls, refs, made, h);
    if InputsReady(rq.job, made, spec, cls) {
      SameInputs(w, rq.job, made, spec, cls, h);
    }
  }

  /** Another node's evaluation does not disturb a match. */
  lemma MatchStays(w: World, s: NodeSpec, plan: map<string, NodePlan>, sc: Scratch, spec: NodeSpec, p: NodePlan,
                   r: Option<map<string, Content>>)
    requires NodeMatches(w, s, plan, sc) && DotFree(s.id) && DotFree(spec.id) && s.id != spec.id
    ensures NodeMatches(w, s, plan[spec.id := p],
      Scratch(sc.results[spec.id := r], sc.made + OutputValues(spec.id, OutputsOf(w, spec), r)))
  {
    forall q | q in OutputsOf(w, s) ensures Key(s.id, q) !in OutputValues(spec.id, OutputsOf(w, spec), r) {
      OtherKey(spec.id, OutputsOf(w, spec), s.id, q);
    }
  }

  lemma MatchNew(w: World, plan: map<string, NodePlan>, sc: Scratch, spec: NodeSpec, p: NodePlan,
                 r: Option<map<string, Content>>)
    requires Denote(w, p.h) == r
    ensures NodeMatches(w, spec, plan[spec.id := p],
      Scratch(sc.results[spec.id := r], sc.made + OutputValues(spec.id, OutputsOf(w, spec), r)))
  {
    forall q | q in OutputsOf(w, spec)
      ensures Key(spec.id, q) in OutputKeys(spec.id, OutputsOf(w, spec)) && PortIn(spec.id, Key(spec.id, q)) == q
    {
    }
  }

  lemma {:induction false} PlanMatchesScratch(w: World, rq: Request, store: Store, specs: seq<NodeSpec>, all: set<string>)
    requires ProperIds(specs) && forall s :: s in specs ==> NoSelfFeed(w, rq.job, s)
    requires AllOutputKeys(w, specs) <= all && forall s :: s in specs ==> Unshadowed(w, rq.job, s, all)
    requires PlanAll(w, rq, store, specs).Some?
    ensures forall s :: s in specs ==> NodeMatches(w, s, PlanAll(w, rq, store, specs).value.plan, ScratchAll(w, rq, specs))
  {
    if |specs| > 0 {
      var n := |specs| - 1;
      var before, spec := specs[..n], specs[n];
      InitOf(specs, n);
      ProperInit(specs, n);
      PlanMatchesScratch(w, rq, store, before, all);
      PlanIsPlanned(w, rq, store, before);
      ScratchHasKeys(w, rq, before);
      var st, sc := PlanAll(w, rq, store, before).value, ScratchAll(w, rq, before);
      NewNodeMatches(w, rq, store, before, spec, st, sc);
      forall s | s in specs
        ensures NodeMatches(w, s, PlanAll(w, rq, store, specs).value.plan, ScratchAll(w, rq, specs))
      {
        var p, r := PlanNode(w, rq, store, spec, st).value.plan[spec.id], ScratchNode(w, rq, sc.made, spec);
        if s in before {
          assert s.id in Ids(before);
          MatchStays(w, s, st.plan, sc, spec, p, r);
        } else {
          MatchNew(w, st.plan, sc, spec, p, r);
        }
      }
    }
  }
}
