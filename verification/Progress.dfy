/** Progress of a job derived from its event log (server/system_metrics.py). */
module Progress {
  import opened Wrappers
  import opened Events
  import opened Topology
  import opened Runtime
  import opened Incremental

  /** The state the fold carries along the log. */
  datatype Track = Track(completed: set<string>, last: Option<string>, fractions: map<string, real>)

  function Clamp(prev: real, f: real): real {
    var low := if f < 1.0 then f else 1.0;
    if prev < low then low else prev
  }

  function FractionOf(t: Track, nid: string): real {
    if nid in t.fractions then t.fractions[nid] else 0.0
  }

  function Next(t: Track, e: Event): Track {
    match e
    case NodeCompleted(nid) => Finished(t, nid)
    case NodeCached(nid) => Finished(t, nid)
    case NodeStarted(nid) =>
      if nid in t.completed then t
      else t.(last := Some(nid), fractions := t.fractions[nid := FractionOf(t, nid)])
    case NodeProgress(nid, f) =>
      if nid in t.completed then t
      else t.(fractions := t.fractions[nid := Clamp(FractionOf(t, nid), f)])
    case _ => t
  }

  function Finished(t: Track, nid: string): Track {
    Track(t.completed + {nid}, if t.last == Some(nid) then None else t.last, t.fractions - {nid})
  }

  function TrackOf(events: seq<Event>): Track {
    if |events| == 0 then Track({}, None, map[]) else Next(TrackOf(events[..|events| - 1]), events[|events| - 1])
  }

  /** The fraction of the node in flight. */
  function InFlight(t: Track): real {
    if t.last.Some? && t.last.value !in t.completed then FractionOf(t, t.last.value) else 0.0
  }

  function ProgressOf(t: Track, total: nat): real {
    if total == 0 then 0.0 else
    var p := (|t.completed| as real + InFlight(t)) / total as real;
    if p < 1.0 then p else 1.0
  }

  method JobStepState(events: seq<Event>, total: nat) returns (progress: real, current: Option<string>)
    ensures progress == ProgressOf(TrackOf(events), total)
    ensures total > 0 ==> current == (if TrackOf(events).last.Some? && TrackOf(events).last.value !in TrackOf(events).completed
                                      then TrackOf(events).last else None)
  {
    if total == 0 {
      return 0.0, None;
    }
    var completed: set<string>, last: Option<string>, fractions: map<string, real> := {}, None, map[];
    for i := 0 to |events|
      invariant TrackOf(events[..i]) == Track(completed, last, fractions)
    {
      assert events[..i + 1][..i] == events[..i];
      match events[i]
      case NodeCompleted(nid) =>
        completed, fractions := completed + {nid}, fractions - {nid};
        if last == Some(nid) { last := None; }
      case NodeCached(nid) =>
        completed, fractions := completed + {nid}, fractions - {nid};
        if last == Some(nid) { last := None; }
      case NodeStarted(nid) =>
        if nid !in completed {
          last := Some(nid);
          if nid !in fractions { fractions := fractions[nid := 0.0]; }
        }
      case NodeProgress(nid, f) =>
        if nid !in completed {
          var prev := if nid in fractions then fractions[nid] else 0.0;
          fractions := fractions[nid := Clamp(prev, f)];
        }
      case _ =>
    }
    assert events[..|events|] == events;
    var inFlight := 0.0;
    current := None;
    if last.Some? && last.value !in completed {
      inFlight := if last.value in fractions then fractions[last.value] else 0.0;
      current := last;
    }
    var p := (|completed| as real + inFlight) / total as real;
    progress := if p < 1.0 then p else 1.0;
  }

  // ---------------------------------------------------------------- logs of the runner

  /** Where a log of the runner stands: the node that is open, the nodes that were started, whether the open
      node has reported anything, and whether a node failed. */
  datatype Stage = Stage(open: Option<string>, seen: set<string>, reported: bool, ended: bool) | Disorder

  function Advance(q: Stage, e: Event): Stage {
    if q.Disorder? then q else
    match e
    case NodeStarted(nid) =>
      if q.open.None? && nid !in q.seen && !q.ended then Stage(Some(nid), q.seen + {nid}, false, false) else Disorder
    case NodeCached(nid) => if q.open == Some(nid) then q.(open := None) else Disorder
    case NodeSkipped(nid) => if q.open == Some(nid) && !q.reported then q.(open := None) else Disorder
    case NodeCompleted(nid) => if q.open == Some(nid) then q.(open := None) else Disorder
    case NodeProgress(nid, _) => if q.open == Some(nid) then q.(reported := true) else Disorder
    case NodeWarning(nid, _) => if nid in q.seen then q else Disorder
    case NodeFailed(nid) => if q.open == Some(nid) then q.(ended := true) else Disorder
    case _ => q
  }

  function StageOf(events: seq<Event>): Stage {
    if |events| == 0 then Stage(None, {}, false, false) else Advance(StageOf(events[..|events| - 1]), events[|events| - 1])
  }

  /** One node at a time, each started once, a skipped one without reports, no start after a failure, and
      warnings only of nodes that were started: a cached node's stored warnings follow its end. */
  predicate Orderly(events: seq<Event>) {
    !StageOf(events).Disorder?
  }

  lemma OrderlyBefore(events: seq<Event>, n: nat)
    requires Orderly(events) && n <= |events|
    ensures Orderly(events[..n])
    decreases |events|
  {
    if n < |events| {
      OrderlyBefore(events[..|events| - 1], n);
      assert events[..|events| - 1][..n] == events[..n];
    } else {
      assert events[..n] == events;
    }
  }

  /** What the fold knows about an orderly log. */
  predicate InStep(t: Track, q: Stage) {
    && q.Stage? && t.completed <= q.seen && t.fractions.Keys <= q.seen
    && (forall nid :: nid in t.fractions ==> 0.0 <= t.fractions[nid] <= 1.0)
    && (q.open.Some? ==> t.last == q.open && q.open.value in q.seen && q.open.value !in t.completed)
    && (q.open.Some? && !q.reported ==> FractionOf(t, q.open.value) == 0.0)
    && (q.open.None? ==> InFlight(t) == 0.0)
    && 0.0 <= InFlight(t) <= 1.0
  }

  function Done(t: Track): real {
    |t.completed| as real + InFlight(t)
  }

  lemma OneMore(s: set<string>, nid: string)
    requires nid !in s
    ensures |s + {nid}| as real == |s| as real + 1.0
  {
  }

  lemma FinishInStep(t: Track, q: Stage, nid: string)
    requires InStep(t, q) && q.open == Some(nid)
    ensures InStep(Finished(t, nid), q.(open := None)) && Done(t) <= Done(Finished(t, nid))
  {
    OneMore(t.completed, nid);
  }

  lemma StartInStep(t: Track, q: Stage, nid: string)
    requires InStep(t, q) && q.open.None? && nid !in q.seen
    ensures InStep(Next(t, NodeStarted(nid)), Stage(Some(nid), q.seen + {nid}, false, false))
    ensures Done(t) <= Done(Next(t, NodeStarted(nid)))
  {
    assert nid !in t.completed && nid !in t.fractions;
  }

  lemma ReportInStep(t: Track, q: Stage, nid: string, f: real)
    requires InStep(t, q) && q.open == Some(nid)
    ensures InStep(Next(t, NodeProgress(nid, f)), q.(reported := true))
    ensures Done(t) <= Done(Next(t, NodeProgress(nid, f)))
  {
  }

  lemma StepInStep(t: Track, q: Stage, e: Event)
    requires InStep(t, q) && !Advance(q, e).Disorder?
    ensures InStep(Next(t, e), Advance(q, e)) && Done(t) <= Done(Next(t, e))
  {
    match e
    case NodeCached(nid) => FinishInStep(t, q, nid);
    case NodeCompleted(nid) => FinishInStep(t, q, nid);
    case NodeStarted(nid) => StartInStep(t, q, nid);
    case NodeProgress(nid, f) => ReportInStep(t, q, nid, f);
    case _ =>
  }

  lemma {:induction false} FoldInStep(events: seq<Event>)
    requires Orderly(events)
    ensures InStep(TrackOf(events), StageOf(events))
  {
    if |events| > 0 {
      var n := |events| - 1;
      FoldInStep(events[..n]);
      StepInStep(TrackOf(events[..n]), StageOf(events[..n]), events[n]);
    }
  }

  lemma DividedMonotone(a: real, b: real, total: nat)
    requires 0.0 <= a <= b && total > 0
    ensures 0.0 <= a / total as real <= b / total as real
  {
    var n := total as real;
    assert a / n * n == a && b / n * n == b && 0.0 * n == 0.0;
    QuotientOrder(0.0, a / n, n);
    QuotientOrder(a / n, b / n, n);
  }

  lemma QuotientOrder(x: real, y: real, n: real)
    requires n > 0.0 && x * n <= y * n
    ensures x <= y
  {
    if y < x {
      NegativeProduct(y - x, n);
    }
  }

  lemma NegativeProduct(x: real, n: real)
    requires x < 0.0 && n > 0.0
    ensures x * n < 0.0
  {
  }

  lemma DoneStep(events: seq<Event>, j: nat)
    requires Orderly(events) && j < |events|
    ensures 0.0 <= Done(TrackOf(events[..j])) <= Done(TrackOf(events[..j + 1]))
  {
    OrderlyBefore(events, j);
    OrderlyBefore(events, j + 1);
    FoldInStep(events[..j]);
    assert events[..j + 1][..j] == events[..j];
    StepInStep(TrackOf(events[..j]), StageOf(events[..j]), events[j]);
  }

  lemma ProgressStep(a: Track, b: Track, total: nat)
    requires 0.0 <= Done(a) <= Done(b)
    ensures 0.0 <= ProgressOf(a, total) <= ProgressOf(b, total) <= 1.0
  {
    if total > 0 {
      DividedMonotone(Done(a), Done(b), total);
    }
  }

  /** Along an orderly log the progress stays between 0 and 1 and never goes back. */
  lemma {:induction false} ProgressMonotone(events: seq<Event>, total: nat, i: nat, j: nat)
    requires Orderly(events) && i <= j <= |events|
    ensures 0.0 <= ProgressOf(TrackOf(events[..i]), total) <= ProgressOf(TrackOf(events[..j]), total) <= 1.0
    decreases j
  {
    hide Orderly, TrackOf, ProgressOf, Done;
    if i == j {
      OrderlyDone(events, i);
      ProgressStep(TrackOf(events[..i]), TrackOf(events[..i]), total);
    } else {
      ProgressMonotone(events, total, i, j - 1);
      DoneStep(events, j - 1);
      ProgressStep(TrackOf(events[..j - 1]), TrackOf(events[..j]), total);
    }
  }

  lemma OrderlyDone(events: seq<Event>, i: nat)
    requires Orderly(events) && i <= |events|
    ensures 0.0 <= Done(TrackOf(events[..i]))
  {
    OrderlyBefore(events, i);
    FoldInStep(events[..i]);
  }

  /** On other logs it can go back: a node that starts while another is half done takes its place. */
  lemma ProgressCanDrop(total: nat)
    requires total > 0
    ensures var events := [NodeStarted("a"), NodeProgress("a", 0.5), NodeStarted("b")];
      ProgressOf(TrackOf(events), total) < ProgressOf(TrackOf(events[..2]), total) && !Orderly(events)
  {
    var events := [NodeStarted("a"), NodeProgress("a", 0.5), NodeStarted("b")];
    assert events[..2] == [NodeStarted("a"), NodeProgress("a", 0.5)];
    assert events[..2][..1] == [NodeStarted("a")];
    assert [NodeStarted("a")][..0] == [];
    assert TrackOf([NodeStarted("a")]) == Track({}, Some("a"), map["a" := 0.0]);
    assert TrackOf(events[..2]) == Track({}, Some("a"), map["a" := 0.5]);
    assert InFlight(TrackOf(events)) == 0.0;
    assert "b" != "a";
    assert StageOf([NodeStarted("a")]) == Stage(Some("a"), {"a"}, false, false);
    assert StageOf(events[..2]) == Stage(Some("a"), {"a"}, true, false);
    var n := total as real;
    assert 0.5 / n * n == 0.5;
  }

  // ---------------------------------------------------------------- the runner's logs are orderly

  lemma StageAppend(events: seq<Event>, e: Event)
    ensures StageOf(events + [e]) == Advance(StageOf(events), e)
  {
    assert (events + [e])[..|events|] == events;
  }

  lemma StageAppendTwo(events: seq<Event>, d: Event, e: Event)
    ensures StageOf(events + [d, e]) == Advance(Advance(StageOf(events), d), e)
  {
    assert events + [d, e] == (events + [d]) + [e];
    StageAppend(events, d);
    StageAppend(events + [d], e);
  }

  lemma NoiseNext(nid: string, noise: seq<Noise>, n: nat)
    requires |noise| == n + 1
    ensures NoiseEvents(nid, noise) == NoiseEvents(nid, noise[..n]) + [NoiseEvents(nid, noise)[n]]
    ensures NoiseEvents(nid, noise)[n].NodeProgress? || NoiseEvents(nid, noise)[n].NodeWarning?
    ensures NoiseEvents(nid, noise)[n].nid == nid
  {
  }

  /** The one open node of a log. */
  predicate OpenAt(events: seq<Event>, nid: string, seen: set<string>) {
    var q := StageOf(events);
    q.Stage? && q.open == Some(nid) && q.seen == seen && nid in seen && !q.ended
  }

  lemma {:induction false} NoiseKeepsOpen(events: seq<Event>, nid: string, noise: seq<Noise>, seen: set<string>)
    requires OpenAt(events, nid, seen)
    ensures OpenAt(events + NoiseEvents(nid, noise), nid, seen)
    decreases |noise|
  {
    hide StageOf;
    if |noise| == 0 {
      assert events + NoiseEvents(nid, noise) == events;
    } else {
      var n := |noise| - 1;
      var before, e := events + NoiseEvents(nid, noise[..n]), NoiseEvents(nid, noise)[n];
      NoiseKeepsOpen(events, nid, noise[..n], seen);
      NoiseNext(nid, noise, n);
      assert events + NoiseEvents(nid, noise) == before + [e];
      StageAppend(before, e);
    }
  }

  /** Between nodes. */
  predicate Resting(events: seq<Event>, seen: set<string>) {
    var q := StageOf(events);
    q.Stage? && q.open.None? && q.seen == seen && !q.ended
  }

  lemma {:induction false} WarningsKeepResting(events: seq<Event>, nid: string, messages: seq<string>, seen: set<string>)
    requires Resting(events, seen) && nid in seen
    ensures Resting(events + StoredWarnings(nid, messages), seen)
    decreases |messages|
  {
    hide StageOf;
    if |messages| == 0 {
      assert events + StoredWarnings(nid, messages) == events;
    } else {
      var n := |messages| - 1;
      var before := events + StoredWarnings(nid, messages[..n]);
      WarningsKeepResting(events, nid, messages[..n], seen);
      assert events + StoredWarnings(nid, messages) == before + [NodeWarning(nid, messages[n])];
      StageAppend(before, NodeWarning(nid, messages[n]));
    }
  }

  /** What one node appends keeps the log orderly; if the run goes on, the log rests again. */
  lemma NodeOrderly(w: World, env: Env, rq: Request, plan: map<string, NodePlan>, must: set<string>,
                    s: Models.NodeSpec, e: ExecState, seen: set<string>)
    requires Resting(e.events, seen) && s.id !in seen
    ensures var r := ExecNode(w, env, rq, plan, must, s, e);
      Orderly(r.state.events) && (r.Go? ==> Resting(r.state.events, seen + {s.id}))
  {
    hide StageOf, NoiseEvents, StoredWarnings, Resolve, RunNode;
    var started := e.events + [NodeStarted(s.id)];
    StageAppend(e.events, NodeStarted(s.id));
    StageAppendTwo(e.events, NodeStarted(s.id), NodeCached(s.id));
    StageAppendTwo(e.events, NodeStarted(s.id), NodeSkipped(s.id));
    StageAppendTwo(e.events, NodeStarted(s.id), NodeFailed(s.id));
    assert started + [NodeFailed(s.id)] == e.events + [NodeStarted(s.id), NodeFailed(s.id)];
    if s.id in plan {
      WarningsKeepResting(e.events + [NodeStarted(s.id), NodeCached(s.id)], s.id, env.stored(plan[s.id].h), seen + {s.id});
    }
    NoiseKeepsOpen(started, s.id, env.chatter(s.id), seen + {s.id});
    var noisy := started + NoiseEvents(s.id, env.chatter(s.id));
    StageAppend(noisy, NodeFailed(s.id));
    StageAppend(noisy, NodeCompleted(s.id));
  }

  lemma {:induction false} RunIsOrderly(w: World, env: Env, rq: Request, plan: map<string, NodePlan>, must: set<string>,
                                        specs: seq<Models.NodeSpec>, start: ExecState)
    requires ProperIds(specs) && start.events == []
    ensures var r := ExecAll(w, env, rq, plan, must, specs, start);
      Orderly(r.state.events) && (r.Go? ==> Resting(r.state.events, Ids(specs)))
  {
    if |specs| > 0 {
      var n := |specs| - 1;
      ProperInit(specs, n);
      RunIsOrderly(w, env, rq, plan, must, specs[..n], start);
      var r := ExecAll(w, env, rq, plan, must, specs[..n], start);
      if r.Go? {
        NodeOrderly(w, env, rq, plan, must, specs[n], r.state, Ids(specs[..n]));
      }
    }
  }

  /** So for every run of the runner, whatever hits, skips, failures and reported fractions it brings, the
      progress shown along its log is monotone and within bounds. */
  lemma RunProgressMonotone(w: World, env: Env, rq: Request, plan: map<string, NodePlan>, must: set<string>,
                            specs: seq<Models.NodeSpec>, start: ExecState, total: nat, i: nat, j: nat)
    requires ProperIds(specs) && start.events == []
    requires i <= j <= |ExecAll(w, env, rq, plan, must, specs, start).state.events|
    ensures var events := ExecAll(w, env, rq, plan, must, specs, start).state.events;
      0.0 <= ProgressOf(TrackOf(events[..i]), total) <= ProgressOf(TrackOf(events[..j]), total) <= 1.0
  {
    RunIsOrderly(w, env, rq, plan, must, specs, start);
    ProgressMonotone(ExecAll(w, env, rq, plan, must, specs, start).state.events, total, i, j);
  }
}
