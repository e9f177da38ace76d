/** The incremental DAG runner (server/runtime.py): plan the keys, decide what must run,
    then execute, skip or rehydrate each node in order. */
module Runtime {
  import opened Models
  import opened Wrappers
  import opened Topology
  import opened Events

  type Content = string

  /** A node implementation as the registry knows it. */
  datatype NodeClass = NodeClass(
    id: string, version: int, inputs: seq<string>, optional: set<string>, outputs: set<string>, usesSiril: bool)

  /** What a node finds behind an input port. The list of a list-typed port is a multiset:
      the cache key forgets its order, so a node must not depend on it either. */
  datatype Value = File(file: ExtRef) | Files(files: multiset<ExtRef>) | Made(content: Content)

  /** One input inside a cache key. */
  datatype KeyInput = KFile(file: ExtRef) | KFiles(files: multiset<ExtRef>) | KOutput(hash: Hash, port: string)

  /** A cache key. The digest is injective, so it is represented by what it digests. */
  datatype Hash = Hash(
    id: string, version: int, inputs: map<string, KeyInput>, params: Params, extra: map<string, string>)

  /** The work of a node: a deterministic function of class id, version, parameters, extra keys and inputs.
      `None` is a raised exception. */
  type RunFn = (string, int, Params, map<string, string>, map<string, Value>) -> Option<map<string, Content>>

  datatype World = World(registry: map<string, NodeClass>, siril: string, run: RunFn)

  /** What the outside does during a run: cancellation before and inside a node, a node's own events, the
      warnings stored beside a cached entry, nodes whose output the disk has no room for even after a sweep, and
      outputs that the commit refuses (a path outside the entry, or a file that is not there). */
  datatype Env = Env(
    cancelBefore: string -> bool, cancelInside: string -> bool, chatter: string -> seq<Noise>,
    stored: Hash -> seq<string>, noRoom: string -> bool, refused: string -> bool)

  datatype Noise = Progress(fraction: real) | Warning(message: string)

  datatype Request = Request(template: Template, job: Job, profile: map<string, Params>, force: bool)

  /** A value of the runner's `refs` map. An `Output` of an uncommitted key is a placeholder. */
  datatype Ref = Outside(value: ExtVal) | Output(hash: Hash, port: string)

  /** The committed cache entries: the outputs of each, by port. */
  type Store = map<Hash, map<string, Content>>

  // ---------------------------------------------------------------- parameters and keys

  function GetParams(m: map<string, Params>, k: string): Params {
    if k in m then m[k] else map[]
  }

  /** Later layers win: profile by kind, profile by node, template, job. */
  function ResolvedParams(rq: Request, spec: NodeSpec): Params {
    GetParams(rq.profile, spec.kind) + GetParams(rq.profile, spec.id) + spec.params + GetParams(rq.job.overrides, spec.id)
  }

  /** The value of a parameter: the job's override if there is one, else the template's value, else the
      profile's default for the node, else its default for the kind. */
  lemma ParamsPrecedence(rq: Request, spec: NodeSpec, k: string)
    ensures var params := ResolvedParams(rq, spec);
      var job, node, kind := GetParams(rq.job.overrides, spec.id), GetParams(rq.profile, spec.id), GetParams(rq.profile, spec.kind);
      && (k in params <==> k in job || k in spec.params || k in node || k in kind)
      && (k in params ==> params[k] == if k in job then job[k] else if k in spec.params then spec.params[k]
                                       else if k in node then node[k] else kind[k])
  {
  }

  function KeyInputOf(r: Ref): KeyInput {
    match r
    case Outside(OneFile(f)) => KFile(f)
    case Outside(ManyFiles(fs)) => KFiles(multiset(fs))
    case Output(h, p) => KOutput(h, p)
  }

  function NodeHash(w: World, cls: NodeClass, inputs: map<string, Ref>, params: Params): Hash {
    Hash(cls.id, cls.version, map p | p in inputs :: KeyInputOf(inputs[p]), params,
         if cls.usesSiril then map["siril_version" := w.siril] else map[])
  }

  // ---------------------------------------------------------------- inputs

  /** The key a port is read from: its edge, or else the job's external input of that name. */
  function SourceKey(spec: NodeSpec, port: string): string {
    if port in spec.edges then spec.edges[port] else Key(spec.id, port)
  }

  predicate PortResolves<T>(spec: NodeSpec, cls: NodeClass, refs: map<string, T>, port: string) {
    SourceKey(spec, port) in refs || (port !in spec.edges && port in cls.optional)
  }

  /** The inputs a node sees; `None` when a required port has no value. */
  function Resolve(spec: NodeSpec, cls: NodeClass, refs: map<string, Ref>): Option<map<string, Ref>> {
    if forall p :: p in cls.inputs ==> PortResolves(spec, cls, refs, p) then
      Some(map p | p in cls.inputs && SourceKey(spec, p) in refs :: refs[SourceKey(spec, p)])
    else
      None
  }

  method ResolveInputs(spec: NodeSpec, cls: NodeClass, refs: map<string, Ref>) returns (r: Option<map<string, Ref>>)
    ensures r == Resolve(spec, cls, refs)
  {
    var resolved := map[];
    for i := 0 to |cls.inputs|
      invariant forall p :: p in cls.inputs[..i] ==> PortResolves(spec, cls, refs, p)
      invariant resolved == map p | p in cls.inputs[..i] && SourceKey(spec, p) in refs :: refs[SourceKey(spec, p)]
    {
      var port := cls.inputs[i];
      assert forall p :: p in cls.inputs[..i + 1] <==> p in cls.inputs[..i] || p == port;
      var key := SourceKey(spec, port);
      if key in refs {
        resolved := resolved[port := refs[key]];
      } else if port in spec.edges || port !in cls.optional {
        assert port in cls.inputs && !PortResolves(spec, cls, refs, port);
        return None;
      }
    }
    assert cls.inputs[..|cls.inputs|] == cls.inputs;
    return Some(resolved);
  }

  function OutputKeys(nid: string, ports: set<string>): set<string> {
    set p | p in ports :: Key(nid, p)
  }

  function PortIn(nid: string, key: string): string {
    if |key| > |nid| then key[|nid| + 1..] else ""
  }

  /** The refs to the outputs `ports` of node `nid` under key `h`. */
  function OutputRefs(nid: string, ports: set<string>, h: Hash): map<string, Ref> {
    map k | k in OutputKeys(nid, ports) :: Output(h, PortIn(nid, k))
  }

  // ---------------------------------------------------------------- pass 1: plan

  datatype NodePlan = NodePlan(cls: NodeClass, h: Hash, isHit: bool, params: Params)

  datatype PlanState = PlanState(refs: map<string, Ref>, plan: map<string, NodePlan>)

  function ExternalRefs(job: Job): map<string, Ref> {
    map k | k in job.inputs :: Outside(job.inputs[k])
  }

  /** Plans one node; its placeholders do not replace keys that are already there. */
  function PlanNode(w: World, rq: Request, store: Store, spec: NodeSpec, st: PlanState): Option<PlanState> {
    if spec.kind !in w.registry then None else
    var cls := w.registry[spec.kind];
    match Resolve(spec, cls, st.refs)
    case None => None
    case Some(inputs) =>
      var params := ResolvedParams(rq, spec);
      var h := NodeHash(w, cls, inputs, params);
      Some(PlanState(OutputRefs(spec.id, cls.outputs, h) + st.refs,
                     st.plan[spec.id := NodePlan(cls, h, !rq.force && h in store, params)]))
  }

  function PlanNext(w: World, rq: Request, store: Store, spec: NodeSpec, st: Option<PlanState>): Option<PlanState> {
    if st.None? then None else PlanNode(w, rq, store, spec, st.value)
  }

  /** The plan of `specs`, which are in execution order. */
  function PlanAll(w: World, rq: Request, store: Store, specs: seq<NodeSpec>): Option<PlanState> {
    if |specs| == 0 then Some(PlanState(ExternalRefs(rq.job), map[])) else
    PlanNext(w, rq, store, specs[|specs| - 1], PlanAll(w, rq, store, specs[..|specs| - 1]))
  }

  // ---------------------------------------------------------------- pass 2: must-run

  function OutputSources(t: Template): set<string> {
    set name | name in t.outputs :: NodeOf(t.outputs[name])
  }

  predicate IsHit(plan: map<string, NodePlan>, nid: string) {
    nid in plan && plan[nid].isHit
  }

  predicate Feeds(g: Graph, nid: string, consumer: string) {
    consumer in g && nid in g[consumer]
  }

  /** The must-run nodes among `order[i..]`, decided from the back. */
  function MustRunFrom(g: Graph, outs: set<string>, plan: map<string, NodePlan>, order: seq<string>, i: nat): set<string>
    requires i <= |order|
    decreases |order| - i
  {
    if i == |order| then {} else
    var later := MustRunFrom(g, outs, plan, order, i + 1);
    if !IsHit(plan, order[i]) && (order[i] in outs || exists c :: c in later && Feeds(g, order[i], c))
    then later + {order[i]} else later
  }

  // ---------------------------------------------------------------- pass 3: execute

  datatype Outcome =
    | Returned(outputs: map<string, Ref>)
    | Failed(nid: string)
    | Cancelled(nid: string)

  /** `executed` lists the nodes whose work was started, with the key recomputed from their real inputs. */
  datatype ExecState = ExecState(
    refs: map<string, Ref>, store: Store, events: seq<Event>, executed: seq<(string, Hash)>)

  datatype Step = Go(state: ExecState) | Stop(outcome: Outcome, state: ExecState)

  /** The value a ref gives access to; `None` when its entry does not hold it. */
  function Read(store: Store, r: Ref): Option<Value> {
    match r
    case Outside(OneFile(f)) => Some(File(f))
    case Outside(ManyFiles(fs)) => Some(Files(multiset(fs)))
    case Output(h, p) => if h in store && p in store[h] then Some(Made(store[h][p])) else None
  }

  function RunNode(w: World, p: NodePlan, h: Hash, store: Store, inputs: map<string, Ref>): Option<map<string, Content>> {
    if forall port :: port in inputs ==> Read(store, inputs[port]).Some? then
      w.run(p.cls.id, p.cls.version, p.params, h.extra, map port | port in inputs :: Read(store, inputs[port]).value)
    else
      None
  }

  function NoiseEvents(nid: string, noise: seq<Noise>): seq<Event> {
    seq(|noise|, i requires 0 <= i < |noise| =>
      match noise[i]
      case Progress(f) => NodeProgress(nid, f)
      case Warning(m) => NodeWarning(nid, m))
  }

  function StoredWarnings(nid: string, messages: seq<string>): seq<Event> {
    seq(|messages|, i requires 0 <= i < |messages| => NodeWarning(nid, messages[i]))
  }

  /** A cached entry is rehydrated, after its stored warnings are replayed; every declared output must be there. */
  function HitNode(env: Env, nid: string, p: NodePlan, st: ExecState): Step {
    var st' := st.(events := st.events + [NodeStarted(nid), NodeCached(nid)] + StoredWarnings(nid, env.stored(p.h)));
    if p.h in st.store && p.cls.outputs <= st.store[p.h].Keys then
      Go(st'.(refs := st.refs + OutputRefs(nid, p.cls.outputs, p.h)))
    else
      Stop(Failed(nid), st')
  }

  /** Check that the output fits the disk, reserve the entry, run on the live refs, check the produced ports, commit. A refused commit leaves the entry uncommitted. */
  function RunMiss(w: World, env: Env, rq: Request, spec: NodeSpec, p: NodePlan, st: ExecState): Step {
    var nid := spec.id;
    var started := st.(events := st.events + [NodeStarted(nid)]);
    match Resolve(spec, p.cls, st.refs)
    case None => Stop(Failed(nid), started)
    case Some(inputs) =>
      if env.noRoom(nid) then Stop(Failed(nid), started.(events := started.events + [NodeFailed(nid)])) else
      var reserved := if rq.force then st.store - {p.h} else st.store;
      var running := ExecState(st.refs, reserved, started.events + NoiseEvents(nid, env.chatter(nid)),
                               st.executed + [(nid, NodeHash(w, p.cls, inputs, p.params))]);
      var wiped := running.(store := reserved - {p.h}, events := running.events + [NodeFailed(nid)]);
      if env.cancelInside(nid) then Stop(Cancelled(nid), wiped) else
      match RunNode(w, p, p.h, reserved, inputs)
      case None => Stop(Failed(nid), wiped)
      case Some(produced) =>
        if produced.Keys != p.cls.outputs || env.refused(nid) then Stop(Failed(nid), running) else
        Go(running.(store := reserved[p.h := produced],
                    refs := st.refs + OutputRefs(nid, p.cls.outputs, p.h),
                    events := running.events + [NodeCompleted(nid)]))
  }

  function ExecNode(w: World, env: Env, rq: Request, plan: map<string, NodePlan>, must: set<string>,
                    spec: NodeSpec, st: ExecState): Step {
    if spec.id !in plan then Stop(Failed(spec.id), st) else
    var p := plan[spec.id];
    if env.cancelBefore(spec.id) then Stop(Cancelled(spec.id), st)
    else if p.isHit then HitNode(env, spec.id, p, st)
    else if spec.id !in must then Go(st.(events := st.events + [NodeStarted(spec.id), NodeSkipped(spec.id)]))
    else RunMiss(w, env, rq, spec, p, st)
  }

  function ExecNext(w: World, env: Env, rq: Request, plan: map<string, NodePlan>, must: set<string>,
                    spec: NodeSpec, r: Step): Step {
    if r.Stop? then r else ExecNode(w, env, rq, plan, must, spec, r.state)
  }

  /** Pass 3 over `specs`, from the state `st`. */
  function ExecAll(w: World, env: Env, rq: Request, plan: map<string, NodePlan>, must: set<string>,
                   specs: seq<NodeSpec>, st: ExecState): Step {
    if |specs| == 0 then Go(st) else
    ExecNext(w, env, rq, plan, must, specs[|specs| - 1], ExecAll(w, env, rq, plan, must, specs[..|specs| - 1], st))
  }

  /** A declared output is usable if it resolves to a single ref of a node that was not skipped. */
  predicate PublicOk(refs: map<string, Ref>, plan: map<string, NodePlan>, must: set<string>, internal: string) {
    && internal in refs
    && (NodeOf(internal) in plan ==> IsHit(plan, NodeOf(internal)) || NodeOf(internal) in must)
    && !(refs[internal].Outside? && refs[internal].value.ManyFiles?)
  }

  predicate AllPublicOk(outputs: map<string, string>, refs: map<string, Ref>, plan: map<string, NodePlan>, must: set<string>) {
    forall name :: name in outputs ==> PublicOk(refs, plan, must, outputs[name])
  }

  function PublicRefs(outputs: map<string, string>, refs: map<string, Ref>): map<string, Ref> {
    map name | name in outputs && outputs[name] in refs :: refs[outputs[name]]
  }

  // ---------------------------------------------------------------- the runner

  /** The node with id `nid` (the last one, as a dict keyed by id keeps it). */
  function SpecOf(nodes: seq<NodeSpec>, nid: string): NodeSpec
    requires nid in Ids(nodes)
  {
    var n := |nodes| - 1;
    if nodes[n].id == nid then nodes[n] else
      assert nodes == nodes[..n] + [nodes[n]];
      SpecOf(nodes[..n], nid)
  }

  function SpecsIn(nodes: seq<NodeSpec>, order: seq<string>): seq<NodeSpec>
    requires Elements(order) <= Ids(nodes)
  {
    seq(|order|, i requires 0 <= i < |order| => assert order[i] in Elements(order); SpecOf(nodes, order[i]))
  }

  /** Everything a run leaves behind. */
  datatype Report = Report(outcome: Outcome, store: Store, events: seq<Event>, executed: seq<(string, Hash)>)

  function MustRun(rq: Request, plan: map<string, NodePlan>, order: seq<string>): set<string> {
    MustRunFrom(Deps(rq.template.nodes), OutputSources(rq.template), plan, order, 0)
  }

  ghost predicate GoodReport(rq: Request, st: ExecState, plan: map<string, NodePlan>, must: set<string>, rep: Report) {
    && rep.store == st.store && rep.events == st.events && rep.executed == st.executed
    && (if AllPublicOk(rq.template.outputs, st.refs, plan, must)
        then rep.outcome == Returned(PublicRefs(rq.template.outputs, st.refs))
        else rep.outcome.Failed?)
  }

  /** `rep` is what a run over the given execution order reports. */
  ghost predicate IsRun(w: World, env: Env, rq: Request, order: seq<string>, store: Store, rep: Report)
    requires Elements(order) <= Ids(rq.template.nodes)
  {
    var specs := SpecsIn(rq.template.nodes, order);
    match PlanAll(w, rq, store, specs)
    case None => rep.outcome.Failed? && rep.store == store && rep.events == [] && rep.executed == []
    case Some(st) =>
      var must := MustRun(rq, st.plan, order);
      match ExecAll(w, env, rq, st.plan, must, specs, ExecState(st.refs, store, [], []))
      case Stop(o, e) => rep == Report(o, e.store, e.events, e.executed)
      case Go(e) => GoodReport(rq, e, st.plan, must, rep)
  }

  predicate ReadsFrom(node: NodeSpec, ports: set<string>, nid: string) {
    exists port :: port in ports && port in node.edges && NodeOf(node.edges[port]) == nid
  }

  /** Enters `node` as a consumer of every node it reads from. */
  method AddConsumer(out: map<string, set<string>>, node: NodeSpec) returns (out': map<string, set<string>>)
    ensures out'.Keys == out.Keys
    ensures forall nid :: nid in out ==>
      out'[nid] == out[nid] + if ReadsFrom(node, node.edges.Keys, nid) then {node.id} else {}
  {
    var ports := node.edges.Keys;
    out' := out;
    while ports != {}
      invariant ports <= node.edges.Keys && out'.Keys == out.Keys
      invariant forall nid :: nid in out ==>
        out'[nid] == out[nid] + if ReadsFrom(node, node.edges.Keys - ports, nid) then {node.id} else {}
      decreases ports
    {
      var port :| port in ports;
      var src := NodeOf(node.edges[port]);
      var rest := ports - {port};
      assert node.edges.Keys - rest == node.edges.Keys - ports + {port};
      assert forall nid :: ReadsFrom(node, node.edges.Keys - rest, nid) <==>
                           (ReadsFrom(node, node.edges.Keys - ports, nid) || nid == src);
      if src in out' {
        out' := out'[src := out'[src] + {node.id}];
      }
      ports := rest;
    }
    assert node.edges.Keys - {} == node.edges.Keys;
  }

  /** Reverse adjacency. */
  method Successors(nodes: seq<NodeSpec>) returns (out: map<string, set<string>>)
    ensures out.Keys == Ids(nodes)
    ensures forall nid, c :: nid in out ==> (c in out[nid] <==> Feeds(Deps(nodes), nid, c))
  {
    var ids := Ids(nodes);
    out := map id | id in ids :: {};
    for i := 0 to |nodes|
      invariant out.Keys == ids
      invariant forall nid, c :: nid in ids ==> (c in out[nid] <==> c in ids && nid in DepsOf(nodes[..i], ids, c))
    {
      ghost var before := out;
      out := AddConsumer(out, nodes[i]);
      forall nid, c | nid in ids
        ensures c in out[nid] <==> c in ids && nid in DepsOf(nodes[..i + 1], ids, c)
      {
        DepsOfExtend(nodes, i, ids, c);
      }
    }
    assert nodes[..|nodes|] == nodes;
  }

  /** Pass 1. */
  method Plan(w: World, rq: Request, store: Store, specs: seq<NodeSpec>) returns (r: Option<PlanState>)
    ensures r == PlanAll(w, rq, store, specs)
  {
    var refs, plan := ExternalRefs(rq.job), map[];
    for i := 0 to |specs|
      invariant PlanAll(w, rq, store, specs[..i]) == Some(PlanState(refs, plan))
    {
      var spec := specs[i];
      PlanUnfold(w, rq, store, specs, i);
      if spec.kind !in w.registry {
        PlanStaysNone(w, rq, store, specs, i + 1);
        return None;
      }
      var cls := w.registry[spec.kind];
      var inputs := ResolveInputs(spec, cls, refs);
      if inputs.None? {
        PlanStaysNone(w, rq, store, specs, i + 1);
        return None;
      }
      var params := ResolvedParams(rq, spec);
      var h := NodeHash(w, cls, inputs.value, params);
      plan := plan[spec.id := NodePlan(cls, h, !rq.force && h in store, params)];
      refs := OutputRefs(spec.id, cls.outputs, h) + refs;
    }
    assert specs[..|specs|] == specs;
    return Some(PlanState(refs, plan));
  }

  lemma PlanUnfold(w: World, rq: Request, store: Store, specs: seq<NodeSpec>, n: nat)
    requires n < |specs|
    ensures PlanAll(w, rq, store, specs[..n + 1]) == PlanNext(w, rq, store, specs[n], PlanAll(w, rq, store, specs[..n]))
  {
    TakeNext(specs, n);
  }

  lemma {:induction false} PlanStaysNone(w: World, rq: Request, store: Store, specs: seq<NodeSpec>, i: nat)
    requires i <= |specs| && PlanAll(w, rq, store, specs[..i]).None?
    ensures PlanAll(w, rq, store, specs).None?
    decreases |specs| - i
  {
    if i == |specs| {
      assert specs[..i] == specs;
    } else {
      PlanUnfold(w, rq, store, specs, i);
      PlanStaysNone(w, rq, store, specs, i + 1);
    }
  }

  /** Pass 2, walking the order backwards. */
  method SelectMustRun(g: Graph, successors: map<string, set<string>>, outs: set<string>,
                       plan: map<string, NodePlan>, order: seq<string>) returns (must: set<string>)
    requires Elements(order) <= successors.Keys
    requires forall nid, c :: nid in successors ==> (c in successors[nid] <==> Feeds(g, nid, c))
    ensures must == MustRunFrom(g, outs, plan, order, 0)
  {
    must := {};
    for i := |order| downto 0
      invariant must == MustRunFrom(g, outs, plan, order, i)
    {
      var nid := order[i];
      assert nid in Elements(order);
      if !IsHit(plan, nid) {
        if nid in outs {
          must := must + {nid};
        } else if exists c :: c in successors[nid] && c in must {
          must := must + {nid};
        }
      }
    }
  }

  lemma ExecUnfold(w: World, env: Env, rq: Request, plan: map<string, NodePlan>, must: set<string>,
                   specs: seq<NodeSpec>, st: ExecState, n: nat)
    requires n < |specs|
    ensures ExecAll(w, env, rq, plan, must, specs[..n + 1], st) ==
            ExecNext(w, env, rq, plan, must, specs[n], ExecAll(w, env, rq, plan, must, specs[..n], st))
  {
    TakeNext(specs, n);
  }

  lemma {:induction false} ExecStaysStopped(w: World, env: Env, rq: Request, plan: map<string, NodePlan>, must: set<string>,
                                            specs: seq<NodeSpec>, st: ExecState, i: nat)
    requires i <= |specs|
    requires ExecAll(w, env, rq, plan, must, specs[..i], st).Stop?
    ensures ExecAll(w, env, rq, plan, must, specs, st) == ExecAll(w, env, rq, plan, must, specs[..i], st)
    decreases |specs| - i
  {
    if i == |specs| {
      assert specs[..i] == specs;
    } else {
      ExecUnfold(w, env, rq, plan, must, specs, st, i);
      ExecStaysStopped(w, env, rq, plan, must, specs, st, i + 1);
    }
  }

  /** Pass 3. */
  method Execute(w: World, env: Env, rq: Request, plan: map<string, NodePlan>, must: set<string>,
                 specs: seq<NodeSpec>, st: ExecState) returns (r: Step)
    ensures r == ExecAll(w, env, rq, plan, must, specs, st)
  {
    var refs, store, events, executed := st.refs, st.store, st.events, st.executed;
    for i := 0 to |specs|
      invariant ExecAll(w, env, rq, plan, must, specs[..i], st) == Go(ExecState(refs, store, events, executed))
    {
      var spec := specs[i];
      ghost var s := ExecState(refs, store, events, executed);
      ExecUnfold(w, env, rq, plan, must, specs, st, i);
      assert ExecAll(w, env, rq, plan, must, specs[..i + 1], st) == ExecNode(w, env, rq, plan, must, spec, s);
      var nid := spec.id;
      if nid !in plan {
        ExecStaysStopped(w, env, rq, plan, must, specs, st, i + 1);
        return Stop(Failed(nid), ExecState(refs, store, events, executed));
      }
      var p := plan[nid];
      if env.cancelBefore(nid) {
        ExecStaysStopped(w, env, rq, plan, must, specs, st, i + 1);
        return Stop(Cancelled(nid), ExecState(refs, store, events, executed));
      }
      events := events + [NodeStarted(nid)];
      if p.isHit {
        events := events + [NodeCached(nid)];
        assert events == s.events + [NodeStarted(nid), NodeCached(nid)];
        events := events + StoredWarnings(nid, env.stored(p.h));
        if p.h !in store || !(p.cls.outputs <= store[p.h].Keys) {
          ExecStaysStopped(w, env, rq, plan, must, specs, st, i + 1);
          return Stop(Failed(nid), ExecState(refs, store, events, executed));
        }
        refs := refs + OutputRefs(nid, p.cls.outputs, p.h);
        continue;
      }
      if nid !in must {
        events := events + [NodeSkipped(nid)];
        assert events == s.events + [NodeStarted(nid), NodeSkipped(nid)];
        continue;
      }
      var inputs := ResolveInputs(spec, p.cls, refs);
      if inputs.None? {
        ExecStaysStopped(w, env, rq, plan, must, specs, st, i + 1);
        return Stop(Failed(nid), ExecState(refs, store, events, executed));
      }
      if env.noRoom(nid) {
        ExecStaysStopped(w, env, rq, plan, must, specs, st, i + 1);
        return Stop(Failed(nid), ExecState(refs, store, events + [NodeFailed(nid)], executed));
      }
      if rq.force {
        store := store - {p.h};
      }
      events := events + NoiseEvents(nid, env.chatter(nid));
      executed := executed + [(nid, NodeHash(w, p.cls, inputs.value, p.params))];
      var produced := RunNode(w, p, p.h, store, inputs.value);
      if env.cancelInside(nid) {
        ExecStaysStopped(w, env, rq, plan, must, specs, st, i + 1);
        return Stop(Cancelled(nid), ExecState(refs, store - {p.h}, events + [NodeFailed(nid)], executed));
      }
      if produced.None? {
        ExecStaysStopped(w, env, rq, plan, must, specs, st, i + 1);
        return Stop(Failed(nid), ExecState(refs, store - {p.h}, events + [NodeFailed(nid)], executed));
      }
      if produced.value.Keys != p.cls.outputs || env.refused(nid) {
        ExecStaysStopped(w, env, rq, plan, must, specs, st, i + 1);
        return Stop(Failed(nid), ExecState(refs, store, events, executed));
      }
      store := store[p.h := produced.value];
      refs := refs + OutputRefs(nid, p.cls.outputs, p.h);
      events := events + [NodeCompleted(nid)];
    }
    assert specs[..|specs|] == specs;
    return Go(ExecState(refs, store, events, executed));
  }

  /** Collects the declared outputs; the first unusable one fails the run. */
  method PublishOutputs(t: Template, refs: map<string, Ref>, plan: map<string, NodePlan>, must: set<string>)
    returns (r: Outcome)
    ensures if AllPublicOk(t.outputs, refs, plan, must) then r == Returned(PublicRefs(t.outputs, refs)) else r.Failed?
  {
    var names, public := t.outputs.Keys, map[];
    while names != {}
      invariant names <= t.outputs.Keys
      invariant public.Keys == t.outputs.Keys - names
      invariant forall name :: name in public ==>
        PublicOk(refs, plan, must, t.outputs[name]) && public[name] == refs[t.outputs[name]]
      decreases names
    {
      var name :| name in names;
      if !PublicOk(refs, plan, must, t.outputs[name]) {
        return Failed("<template>");
      }
      public := public[name := refs[t.outputs[name]]];
      names := names - {name};
    }
    assert public == PublicRefs(t.outputs, refs);
    return Returned(public);
  }

  /** Runs a job. A cyclic template is refused; otherwise the report is that of a run over
      some topological order. */
  method RunJob(w: World, env: Env, rq: Request, store: Store) returns (rep: Report, ghost order: seq<string>)
    ensures Cyclic(Deps(rq.template.nodes)) ==> rep.outcome.Failed? && rep.store == store && rep.events == []
    ensures !Cyclic(Deps(rq.template.nodes)) ==>
      IsTopoOrder(Deps(rq.template.nodes), order) && IsRun(w, env, rq, order, store, rep)
  {
    var sorted := TopoOrder(rq.template.nodes);
    order := [];
    if sorted.Err? {
      return Report(Failed(sorted.error), store, [], []), [];
    }
    order := sorted.value;
    var successors := Successors(rq.template.nodes);
    var specs := SpecsIn(rq.template.nodes, sorted.value);
    var planned := Plan(w, rq, store, specs);
    if planned.None? {
      rep := Report(Failed("<plan>"), store, [], []);
      return;
    }
    var plan := planned.value.plan;
    var must := SelectMustRun(Deps(rq.template.nodes), successors, OutputSources(rq.template), plan, sorted.value);
    var step := Execute(w, env, rq, plan, must, specs, ExecState(planned.value.refs, store, [], []));
    match step
    case Stop(o, e) =>
      rep := Report(o, e.store, e.events, e.executed);
    case Go(e) =>
      var out := PublishOutputs(rq.template, e.refs, plan, must);
      rep := Report(out, e.store, e.events, e.executed);
  }
}
