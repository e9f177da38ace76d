/** Any number of workers, reclaimers and clients on one job table, interleaved step by step. */
module JobRuns {
  import opened Wrappers
  import opened Events
  import opened Jobs

  /** What a worker is doing with the job it holds. */
  datatype Phase =
    | Idle
    | Selected(id: string)
    | Claimed(id: string)
    | InRun(id: string)
    | Ending(id: string, result: Status)

  /** `snapshots` holds, for each reclaimer, the rows it found stale and has not yet handled. */
  datatype State = State(db: Db, workers: map<nat, Phase>, snapshots: map<nat, set<string>>)

  datatype Step =
    | Submit(id: string, time: nat)
    | Cancel(id: string)
    | Select(w: nat, id: string)
    | TryClaim(w: nat)
    | ReadCancel(w: nat)
    | Emit(w: nat, event: Event)
    | EndRun(w: nat, result: Status)
    | Terminate(w: nat)
    | Crash(w: nat)
    | Snapshot(r: nat, ids: set<string>)
    | Reclaim(r: nat, id: string)

  function PhaseOf(s: State, w: nat): Phase {
    if w in s.workers then s.workers[w] else Idle
  }

  predicate Holds(p: Phase, id: string) {
    (p.Claimed? || p.InRun? || p.Ending?) && p.id == id
  }

  function Pending(s: State, r: nat): set<string> {
    if r in s.snapshots then s.snapshots[r] else {}
  }

  predicate Enabled(s: State, a: Step) {
    match a
    case Submit(id, _) => id !in s.db.jobs
    case Cancel(_) => true
    case Select(w, id) => PhaseOf(s, w).Idle? && OldestQueued(s.db, id)
    case TryClaim(w) => PhaseOf(s, w).Selected?
    case ReadCancel(w) => PhaseOf(s, w).Claimed? && PhaseOf(s, w).id in s.db.jobs
    case Emit(w, e) => PhaseOf(s, w).InRun? && FromNode(e)
    case EndRun(w, result) => PhaseOf(s, w).InRun? && IsTerminal(result)
    case Terminate(w) => PhaseOf(s, w).Ending?
    case Crash(_) => true
    case Snapshot(_, ids) => forall id :: id in ids ==> id in s.db.jobs && s.db.jobs[id].status == Running
    case Reclaim(r, id) => id in Pending(s, r)
  }

  function Take(s: State, a: Step): State
    requires Enabled(s, a)
  {
    match a
    case Submit(id, time) => s.(db := SubmitTx(s.db, id, time))
    case Cancel(id) => s.(db := CancelTx(s.db, id))
    case Select(w, id) => s.(workers := s.workers[w := Selected(id)])
    case TryClaim(w) =>
      var id := PhaseOf(s, w).id;
      s.(db := ClaimTx(s.db, id), workers := s.workers[w := if Claimable(s.db, id) then Claimed(id) else Idle])
    case ReadCancel(w) =>
      var id := PhaseOf(s, w).id;
      s.(workers := s.workers[w := if s.db.jobs[id].cancel then Ending(id, Interrupted) else InRun(id)])
    case Emit(w, e) => s.(db := EmitTx(s.db, PhaseOf(s, w).id, e))
    case EndRun(w, result) => s.(workers := s.workers[w := Ending(PhaseOf(s, w).id, result)])
    case Terminate(w) =>
      s.(db := TerminateTx(s.db, PhaseOf(s, w).id, PhaseOf(s, w).result), workers := s.workers[w := Idle])
    case Crash(w) => s.(workers := s.workers[w := Idle])
    case Snapshot(r, ids) => s.(snapshots := s.snapshots[r := ids])
    case Reclaim(r, id) => s.(db := ReclaimTx(s.db, id), snapshots := s.snapshots[r := Pending(s, r) - {id}])
  }

  const START := State(Db(map[], []), map[], map[])

  /** A run: states[0] is the start, and each next state is reached by the step in between. */
  ghost predicate IsRun(states: seq<State>, steps: seq<Step>) {
    && |states| == |steps| + 1 && states[0] == START
    && forall i :: 0 <= i < |steps| ==> Enabled(states[i], steps[i]) && states[i + 1] == Take(states[i], steps[i])
  }

  // ---------------------------------------------------------------- what every run keeps

  function Count(events: seq<Event>, e: Event): nat {
    multiset(events)[e]
  }

  /** A job is in the log only if it is in the table, first queued; it has been started once it is no
      longer queued, and then exactly once. */
  ghost predicate LogFits(db: Db, id: string) {
    var events := EventsOf(db.log, id);
    if id in db.jobs then
      && |events| > 0 && events[0] == JobQueued
      && Count(events, JobStarted) == (if db.jobs[id].status == Queued then 0 else 1)
    else events == []
  }

  /** A held job has been claimed, and by one worker only. */
  ghost predicate WorkersFit(s: State) {
    && (forall w, id :: Holds(PhaseOf(s, w), id) ==> id in s.db.jobs && s.db.jobs[id].status != Queued)
    && (forall v, w, id :: Holds(PhaseOf(s, v), id) && Holds(PhaseOf(s, w), id) ==> v == w)
    && (forall w :: PhaseOf(s, w).Selected? ==> PhaseOf(s, w).id in s.db.jobs)
    && (forall w :: PhaseOf(s, w).Ending? ==> IsTerminal(PhaseOf(s, w).result))
    && (forall r, id :: id in Pending(s, r) ==> id in s.db.jobs && s.db.jobs[id].status != Queued)
  }

  ghost predicate Inv(s: State) {
    Numbered(s.db.log) && WorkersFit(s) && forall id :: LogFits(s.db, id)
  }

  /** The log after one more row. */
  lemma LogGrows(db: Db, jobs: map<string, Row>, job: string, e: Event, id: string)
    requires LogFits(db, id) && job in db.jobs
    requires jobs.Keys == db.jobs.Keys && (id != job ==> id in jobs ==> jobs[id] == db.jobs[id])
    requires id == job && id in jobs ==>
      (if e == JobStarted then db.jobs[id].status == Queued && jobs[id].status != Queued
       else (jobs[id].status == Queued <==> db.jobs[id].status == Queued))
    ensures LogFits(Db(jobs, Appended(db.log, job, e)), id)
  {
    EventsAppended(db.log, LogRow(job, MaxSeq(db.log, job) + 1, e), id);
    var events := EventsOf(db.log, id);
    assert events + [] == events;
  }

  lemma SubmitFits(db: Db, id: string, time: nat, k: string)
    requires id !in db.jobs && LogFits(db, id) && LogFits(db, k)
    ensures LogFits(SubmitTx(db, id, time), k)
  {
    EventsAppended(db.log, LogRow(id, 0, JobQueued), k);
    assert EventsOf(db.log, k) + [] == EventsOf(db.log, k);
  }

  lemma SubmitNumbered(db: Db, id: string, time: nat)
    requires id !in db.jobs && LogFits(db, id) && Numbered(db.log)
    ensures Numbered(SubmitTx(db, id, time).log)
  {
    MaxIsLast(db.log, id);
    AppendNumbered(db.log, id, JobQueued);
  }

  lemma StepNumbered(s: State, a: Step)
    requires Inv(s) && Enabled(s, a)
    ensures Numbered(Take(s, a).db.log)
  {
    match a
    case Submit(id, time) =>
      assert LogFits(s.db, id);
      SubmitNumbered(s.db, id, time);
    case TryClaim(w) => AppendNumbered(s.db.log, PhaseOf(s, w).id, JobStarted);
    case Emit(w, e) => AppendNumbered(s.db.log, PhaseOf(s, w).id, e);
    case Terminate(w) => AppendNumbered(s.db.log, PhaseOf(s, w).id, TerminalEvent(PhaseOf(s, w).result));
    case Reclaim(r, id) => AppendNumbered(s.db.log, id, JobInterrupted);
    case _ =>
  }

  lemma CancelFits(db: Db, k: string, id: string)
    requires LogFits(db, id)
    ensures LogFits(CancelTx(db, k), id)
  {
  }

  lemma ClaimFits(db: Db, k: string, id: string)
    requires LogFits(db, id)
    ensures LogFits(ClaimTx(db, k), id)
  {
    if Claimable(db, k) {
      LogGrows(db, ClaimTx(db, k).jobs, k, JobStarted, id);
    }
  }

  /** An event of a job that is no longer queued, with a new status or none. */
  lemma HeldFits(db: Db, db': Db, k: string, e: Event, id: string)
    requires LogFits(db, id) && k in db.jobs && db.jobs[k].status != Queued && e != JobStarted
    requires db'.log == Appended(db.log, k, e) && db'.jobs.Keys == db.jobs.Keys && db'.jobs[k].status != Queued
    requires forall j :: j in db.jobs && j != k ==> db'.jobs[j] == db.jobs[j]
    ensures LogFits(db', id)
  {
    LogGrows(db, db'.jobs, k, e, id);
  }

  lemma StepLogFits(s: State, a: Step, id: string)
    requires Inv(s) && Enabled(s, a)
    ensures LogFits(Take(s, a).db, id)
  {
    hide Numbered, OldestQueued, LogFits, Appended, EventsOf;
    assert LogFits(s.db, id);
    var db' := Take(s, a).db;
    match a
    case Submit(k, time) =>
      assert LogFits(s.db, k);
      SubmitFits(s.db, k, time, id);
    case Cancel(k) => CancelFits(s.db, k, id);
    case TryClaim(w) => ClaimFits(s.db, PhaseOf(s, w).id, id);
    case Emit(w, e) =>
      assert Holds(PhaseOf(s, w), PhaseOf(s, w).id);
      HeldFits(s.db, db', PhaseOf(s, w).id, e, id);
    case Terminate(w) =>
      assert Holds(PhaseOf(s, w), PhaseOf(s, w).id);
      HeldFits(s.db, db', PhaseOf(s, w).id, TerminalEvent(PhaseOf(s, w).result), id);
    case Reclaim(r, k) => HeldFits(s.db, db', k, JobInterrupted, id);
    case _ =>
  }

  /** Statuses only move from queued to running to terminal; a terminal row may be overwritten by another
      terminal status, but never goes back. */
  function Rank(s: Status): nat {
    match s
    case Queued => 0
    case Running => 1
    case _ => 2
  }

  lemma StatusNeverGoesBack(s: State, a: Step, id: string)
    requires Inv(s) && Enabled(s, a) && id in s.db.jobs
    ensures id in Take(s, a).db.jobs && Rank(s.db.jobs[id].status) <= Rank(Take(s, a).db.jobs[id].status)
    ensures s.db.jobs[id].status == Queued && Take(s, a).db.jobs[id].status != Queued ==> Take(s, a).db.jobs[id].status == Running
  {
    match a
    case TryClaim(w) => assert PhaseOf(s, w).id in s.db.jobs;
    case Emit(w, e) => assert Holds(PhaseOf(s, w), PhaseOf(s, w).id);
    case Terminate(w) => assert Holds(PhaseOf(s, w), PhaseOf(s, w).id);
    case Reclaim(r, k) => assert k in Pending(s, r);
    case _ =>
  }

  /** The worker whose phase a step changes. */
  function Actor(a: Step): Option<nat> {
    match a
    case Select(w, _) => Some(w)
    case TryClaim(w) => Some(w)
    case ReadCancel(w) => Some(w)
    case EndRun(w, _) => Some(w)
    case Terminate(w) => Some(w)
    case Crash(w) => Some(w)
    case _ => None
  }

  lemma OthersKeep(s: State, a: Step)
    requires Enabled(s, a)
    ensures forall w: nat :: Actor(a) != Some(w) ==> PhaseOf(Take(s, a), w) == PhaseOf(s, w)
    ensures !a.Snapshot? && !a.Reclaim? ==> forall r: nat :: Pending(Take(s, a), r) == Pending(s, r)
    ensures a.Reclaim? ==> forall r: nat :: Pending(Take(s, a), r) <= Pending(s, r)
    ensures a.Snapshot? ==> forall r: nat :: Pending(Take(s, a), r) == if r == a.r then a.ids else Pending(s, r)
  {
  }

  lemma StepWorkersFit(s: State, a: Step)
    requires Inv(s) && Enabled(s, a)
    ensures WorkersFit(Take(s, a))
  {
    hide Numbered, LogFits, Appended;
    var s' := Take(s, a);
    forall id | id in s.db.jobs && s.db.jobs[id].status != Queued
      ensures id in s'.db.jobs && s'.db.jobs[id].status != Queued
    {
      StatusNeverGoesBack(s, a, id);
    }
    OthersKeep(s, a);
    forall w, id | Holds(PhaseOf(s', w), id) ensures id in s'.db.jobs && s'.db.jobs[id].status != Queued {
      HeldBefore(s, a, w, id);
    }
    forall v, w, id | Holds(PhaseOf(s', v), id) && Holds(PhaseOf(s', w), id) ensures v == w {
      HeldBefore(s, a, v, id);
      HeldBefore(s, a, w, id);
    }
    PhasesFit(s, a);
  }

  /** Who holds a job after a step held it before, or has just claimed it. */
  lemma HeldBefore(s: State, a: Step, w: nat, id: string)
    requires Inv(s) && Enabled(s, a) && Holds(PhaseOf(Take(s, a), w), id)
    ensures Holds(PhaseOf(s, w), id) || (a == TryClaim(w) && Claimable(s.db, id) && Take(s, a).db.jobs[id].status == Running)
  {
    OthersKeep(s, a);
  }

  lemma PhasesFit(s: State, a: Step)
    requires Inv(s) && Enabled(s, a)
    ensures forall w :: PhaseOf(Take(s, a), w).Selected? ==> PhaseOf(Take(s, a), w).id in Take(s, a).db.jobs
    ensures forall w :: PhaseOf(Take(s, a), w).Ending? ==> IsTerminal(PhaseOf(Take(s, a), w).result)
    ensures forall r, id :: id in Pending(Take(s, a), r) ==> id in s.db.jobs && s.db.jobs[id].status != Queued
  {
    hide Numbered, LogFits, Appended;
    OthersKeep(s, a);
  }

  lemma StepKeepsInv(s: State, a: Step)
    requires Inv(s) && Enabled(s, a)
    ensures Inv(Take(s, a))
  {
    StepNumbered(s, a);
    StepWorkersFit(s, a);
    forall id ensures LogFits(Take(s, a).db, id) {
      StepLogFits(s, a, id);
    }
  }

  lemma {:induction false} RunsKeepInv(states: seq<State>, steps: seq<Step>, i: nat)
    requires IsRun(states, steps) && i <= |steps|
    ensures Inv(states[i])
  {
    if i > 0 {
      RunsKeepInv(states, steps, i - 1);
      StepKeepsInv(states[i - 1], steps[i - 1]);
    }
  }

  /** In every run, whatever the interleaving, a job is started at most once, no two workers ever hold it,
      and the log numbers of every job are 0, 1, 2, ... in order. */
  lemma ClaimedAtMostOnce(states: seq<State>, steps: seq<Step>, i: nat, id: string)
    requires IsRun(states, steps) && i <= |steps|
    ensures Count(EventsOf(states[i].db.log, id), JobStarted) <= 1
    ensures forall v, w :: Holds(PhaseOf(states[i], v), id) && Holds(PhaseOf(states[i], w), id) ==> v == w
    ensures Numbered(states[i].db.log)
  {
    RunsKeepInv(states, steps, i);
    assert LogFits(states[i].db, id);
  }

  /** Over every run a job's status moves only from queued to running to terminal: what it has left it
      never comes back to, and what was still queued did not finish without being claimed. */
  lemma {:induction false} StatusMonotone(states: seq<State>, steps: seq<Step>, i: nat, j: nat, id: string)
    requires IsRun(states, steps) && i <= j <= |steps| && id in states[i].db.jobs
    ensures id in states[j].db.jobs && Rank(states[i].db.jobs[id].status) <= Rank(states[j].db.jobs[id].status)
    ensures Count(EventsOf(states[j].db.log, id), JobStarted) == 0 <==> states[j].db.jobs[id].status == Queued
    decreases j
  {
    hide Take, Rank, Count;
    RunsKeepInv(states, steps, j);
    assert LogFits(states[j].db, id);
    if i < j {
      StatusMonotone(states, steps, i, j - 1, id);
      RunsKeepInv(states, steps, j - 1);
      StatusNeverGoesBack(states[j - 1], steps[j - 1], id);
    }
  }

  // ---------------------------------------------------------------- the end of a job

  predicate NoTerminal(events: seq<Event>) {
    forall i :: 0 <= i < |events| ==> !Terminal(events[i])
  }

  /** A finished job's log ends in its one terminal event; an unfinished job's log has none. */
  ghost predicate WellEnded(db: Db, id: string) {
    id in db.jobs ==>
      var events := EventsOf(db.log, id);
      if IsTerminal(db.jobs[id].status) then
        |events| > 0 && events[|events| - 1] == TerminalEvent(db.jobs[id].status) && NoTerminal(events[..|events| - 1])
      else NoTerminal(events)
  }

  ghost predicate AllWellEnded(db: Db) {
    forall id :: WellEnded(db, id)
  }

  /** The job that a step writes an event for, beyond queueing and starting it. */
  function Writes(s: State, a: Step): Option<string> {
    match a
    case Emit(w, _) => if PhaseOf(s, w).InRun? then Some(PhaseOf(s, w).id) else None
    case Terminate(w) => if PhaseOf(s, w).Ending? then Some(PhaseOf(s, w).id) else None
    case Reclaim(_, id) => Some(id)
    case _ => None
  }

  /** Whoever writes to a job finds its row running: a worker whose job was reclaimed writes nothing more,
      and no two reclaimers handle the same row. */
  predicate FindsRunning(s: State, a: Step) {
    var id := Writes(s, a);
    id.Some? ==> id.value in s.db.jobs && s.db.jobs[id.value].status == Running
  }

  lemma EventAdded(db: Db, job: string, e: Event, id: string)
    ensures EventsOf(Appended(db.log, job, e), id) == EventsOf(db.log, id) + if job == id then [e] else []
  {
    EventsAppended(db.log, LogRow(job, MaxSeq(db.log, job) + 1, e), id);
  }

  lemma OtherWellEnded(db: Db, jobs: map<string, Row>, job: string, e: Event, id: string)
    requires WellEnded(db, id) && id != job && (id in jobs ==> id in db.jobs && jobs[id] == db.jobs[id])
    ensures WellEnded(Db(jobs, Appended(db.log, job, e)), id)
  {
    EventAdded(db, job, e, id);
    assert EventsOf(db.log, id) + [] == EventsOf(db.log, id);
  }

  /** Exactly when the row is running does another event leave the log well ended. */
  lemma WriteWellEnded(db: Db, jobs: map<string, Row>, id: string, e: Event)
    requires WellEnded(db, id) && id in db.jobs && id in jobs && db.jobs[id].status != Queued
    requires if Terminal(e) then (db.jobs[id].status == Running ==> IsTerminal(jobs[id].status) && e == TerminalEvent(jobs[id].status))
             else jobs[id].status == db.jobs[id].status
    requires IsTerminal(db.jobs[id].status) ==> IsTerminal(jobs[id].status)
    ensures WellEnded(Db(jobs, Appended(db.log, id, e)), id) <==> db.jobs[id].status == Running
  {
    EventAdded(db, id, e, id);
    var events := EventsOf(db.log, id);
    var events' := events + [e];
    assert events'[..|events'| - 1] == events;
    if IsTerminal(db.jobs[id].status) {
      assert Terminal(events[|events| - 1]);
    } else if !Terminal(e) {
      assert forall i :: 0 <= i < |events| ==> events'[i] == events[i];
    }
  }

  lemma WriterKeepsEnds(s: State, a: Step)
    requires Inv(s) && Enabled(s, a) && AllWellEnded(s.db) && Writes(s, a).Some?
    ensures AllWellEnded(Take(s, a).db) <==> FindsRunning(s, a)
  {
    hide Numbered, LogFits, Appended, WellEnded;
    var db' := Take(s, a).db;
    var job := Writes(s, a).value;
    var e := match a case Emit(_, e) => e case Terminate(w) => TerminalEvent(PhaseOf(s, w).result) case _ => JobInterrupted;
    assert job in s.db.jobs && s.db.jobs[job].status != Queued by {
      match a
      case Emit(w, _) => assert Holds(PhaseOf(s, w), job);
      case Terminate(w) => assert Holds(PhaseOf(s, w), job);
      case Reclaim(r, _) => assert job in Pending(s, r);
    }
    assert WellEnded(s.db, job);
    WriteWellEnded(s.db, db'.jobs, job, e);
    forall id | id != job ensures WellEnded(db', id) {
      assert WellEnded(s.db, id);
      OtherWellEnded(s.db, db'.jobs, job, e, id);
    }
  }

  lemma QuietKeepsEnds(s: State, a: Step)
    requires Inv(s) && Enabled(s, a) && AllWellEnded(s.db) && Writes(s, a).None?
    ensures AllWellEnded(Take(s, a).db)
  {
    hide Numbered, Appended;
    forall id ensures WellEnded(Take(s, a).db, id) {
      QuietKeepsEnd(s, a, id);
    }
  }

  lemma SubmitKeepsEnd(db: Db, k: string, time: nat, id: string)
    requires k !in db.jobs && EventsOf(db.log, k) == [] && WellEnded(db, id)
    ensures WellEnded(SubmitTx(db, k, time), id)
  {
    EventsAppended(db.log, LogRow(k, 0, JobQueued), id);
    assert EventsOf(db.log, id) + [] == EventsOf(db.log, id);
  }

  lemma ClaimKeepsEnd(db: Db, k: string, id: string)
    requires WellEnded(db, id)
    ensures WellEnded(ClaimTx(db, k), id)
  {
    hide Appended;
    EventAdded(db, k, JobStarted, id);
    assert EventsOf(db.log, id) + [] == EventsOf(db.log, id);
  }

  lemma QuietKeepsEnd(s: State, a: Step, id: string)
    requires Inv(s) && Enabled(s, a) && WellEnded(s.db, id) && Writes(s, a).None?
    ensures WellEnded(Take(s, a).db, id)
  {
    hide Numbered, Appended, OldestQueued, ClaimTx, SubmitTx;
    match a
    case Submit(k, time) =>
      assert LogFits(s.db, k);
      SubmitKeepsEnd(s.db, k, time, id);
    case TryClaim(w) => ClaimKeepsEnd(s.db, PhaseOf(s, w).id, id);
    case _ =>
  }

  /** One step keeps all logs well ended exactly when whoever writes finds the row running. */
  lemma StepKeepsEnds(s: State, a: Step)
    requires Inv(s) && Enabled(s, a) && AllWellEnded(s.db)
    ensures AllWellEnded(Take(s, a).db) <==> FindsRunning(s, a)
  {
    if Writes(s, a).Some? {
      WriterKeepsEnds(s, a);
    } else {
      QuietKeepsEnds(s, a);
    }
  }

  ghost predicate EndsWellUpTo(states: seq<State>, n: nat) {
    forall i :: 0 <= i <= n && i < |states| ==> AllWellEnded(states[i].db)
  }

  ghost predicate WritesRunningUpTo(states: seq<State>, steps: seq<Step>, n: nat) {
    forall i :: 0 <= i < n && i < |steps| && i < |states| ==> FindsRunning(states[i], steps[i])
  }

  /** Terminal is final, exactly: the logs of a run are well ended at every point if and only if every write
      finds its row running. */
  lemma {:induction false} TerminalIsFinal(states: seq<State>, steps: seq<Step>, n: nat)
    requires IsRun(states, steps) && n <= |steps|
    ensures EndsWellUpTo(states, n) <==> WritesRunningUpTo(states, steps, n)
    decreases n
  {
    hide AllWellEnded, FindsRunning, Take, Inv;
    if n == 0 {
      StartWellEnded();
      assert AllWellEnded(states[0].db);
    } else {
      TerminalIsFinal(states, steps, n - 1);
      RunsKeepInv(states, steps, n - 1);
      if AllWellEnded(states[n - 1].db) {
        StepKeepsEnds(states[n - 1], steps[n - 1]);
      }
      if WritesRunningUpTo(states, steps, n) {
        assert WritesRunningUpTo(states, steps, n - 1);
        assert AllWellEnded(states[n - 1].db) && FindsRunning(states[n - 1], steps[n - 1]);
        assert AllWellEnded(states[n].db);
      }
      if EndsWellUpTo(states, n) {
        assert EndsWellUpTo(states, n - 1);
        assert AllWellEnded(states[n - 1].db) && AllWellEnded(states[n].db);
      }
    }
  }

  lemma StartWellEnded()
    ensures AllWellEnded(START.db)
  {
  }

  /** A discipline that is enough: a row is reclaimed only while it is running and no worker holds it. */
  predicate ReclaimsDeadOnly(s: State, a: Step) {
    a.Reclaim? ==> a.id in s.db.jobs && s.db.jobs[a.id].status == Running && forall w :: w in s.workers ==> !Holds(s.workers[w], a.id)
  }

  ghost predicate HeldIsRunning(s: State) {
    forall w, id :: Holds(PhaseOf(s, w), id) ==> id in s.db.jobs && s.db.jobs[id].status == Running
  }

  lemma StepHeldIsRunning(s: State, a: Step)
    requires Inv(s) && HeldIsRunning(s) && Enabled(s, a) && ReclaimsDeadOnly(s, a)
    ensures HeldIsRunning(Take(s, a)) && FindsRunning(s, a)
  {
    hide Numbered, LogFits, Appended;
    var s' := Take(s, a);
    forall w, id | Holds(PhaseOf(s', w), id) ensures id in s'.db.jobs && s'.db.jobs[id].status == Running {
      HeldBefore(s, a, w, id);
      if a.Terminate? {
        assert Holds(PhaseOf(s, a.w), PhaseOf(s, a.w).id);
        OthersKeep(s, a);
      }
    }
    if a.Emit? || a.Terminate? {
      assert Holds(PhaseOf(s, a.w), PhaseOf(s, a.w).id);
    }
  }

  /** Under that discipline every finished job's log ends in exactly one terminal event that nothing follows. */
  lemma {:induction false} DeadReclaimsEndWell(states: seq<State>, steps: seq<Step>, n: nat)
    requires IsRun(states, steps) && n <= |steps|
    requires forall i :: 0 <= i < |steps| ==> ReclaimsDeadOnly(states[i], steps[i])
    ensures HeldIsRunning(states[n]) && WritesRunningUpTo(states, steps, n) && EndsWellUpTo(states, n)
    decreases n
  {
    hide AllWellEnded, FindsRunning, Take, Inv, ReclaimsDeadOnly;
    if n > 0 {
      DeadReclaimsEndWell(states, steps, n - 1);
      RunsKeepInv(states, steps, n - 1);
      StepHeldIsRunning(states[n - 1], steps[n - 1]);
    }
    TerminalIsFinal(states, steps, n);
  }

  /** Without it there can be two ends: two reclaimers that both took their snapshot before either acted. */
  lemma TwoReclaimersTwoEnds(s: State, q: nat, r: nat, id: string)
    requires Inv(s) && AllWellEnded(s.db) && q != r && id in Pending(s, q) && id in Pending(s, r)
    requires s.db.jobs[id].status == Running
    ensures var t := Take(Take(s, Reclaim(q, id)), Reclaim(r, id));
      var events := EventsOf(t.db.log, id);
      && |events| >= 2 && events[|events| - 1] == events[|events| - 2] == JobInterrupted && !AllWellEnded(t.db)
  {
    var mid := Take(s, Reclaim(q, id));
    StepKeepsInv(s, Reclaim(q, id));
    StepKeepsEnds(s, Reclaim(q, id));
    StepKeepsEnds(mid, Reclaim(r, id));
    EventAdded(s.db, id, JobInterrupted, id);
    EventAdded(mid.db, id, JobInterrupted, id);
  }

  lemma RunExtends(states: seq<State>, steps: seq<Step>, a: Step)
    requires IsRun(states, steps) && Enabled(states[|steps|], a)
    ensures IsRun(states + [Take(states[|steps|], a)], steps + [a])
  {
    hide Enabled, Take;
  }

  /** The log of a job that was claimed once, and nothing after. */
  function StartedLog(id: string): seq<LogRow> {
    [LogRow(id, 0, JobQueued), LogRow(id, 1, JobStarted)]
  }

  lemma FirstClaim(id: string, time: nat)
    ensures SubmitTx(Db(map[], []), id, time) == Db(map[id := Row(Queued, false, time)], [LogRow(id, 0, JobQueued)])
    ensures OldestQueued(SubmitTx(Db(map[], []), id, time), id)
    ensures ClaimTx(SubmitTx(Db(map[], []), id, time), id) == Db(map[id := Row(Running, false, time)], StartedLog(id))
  {
    var log := [LogRow(id, 0, JobQueued)];
    assert log[..0] == [];
    assert MaxSeq([], id) == -1;
    assert MaxSeq(log, id) == 0;
  }

  /** A run up to a worker's crash after its claim. */
  lemma CrashedRun(id: string, time: nat, w: nat) returns (states: seq<State>, steps: seq<Step>)
    ensures IsRun(states, steps) && steps == [Submit(id, time), Select(w, id), TryClaim(w), Crash(w)]
    ensures states[4].snapshots == map[] && states[4].db == Db(map[id := Row(Running, false, time)], StartedLog(id))
  {
    hide SubmitTx, ClaimTx, OldestQueued, StartedLog;
    FirstClaim(id, time);
    states, steps := [START], [];
    RunExtends(states, steps, Submit(id, time));
    var s1 := Take(START, Submit(id, time));
    states, steps := states + [s1], steps + [Submit(id, time)];
    RunExtends(states, steps, Select(w, id));
    var s2 := Take(s1, Select(w, id));
    states, steps := states + [s2], steps + [Select(w, id)];
    RunExtends(states, steps, TryClaim(w));
    var s3 := Take(s2, TryClaim(w));
    states, steps := states + [s3], steps + [TryClaim(w)];
    RunExtends(states, steps, Crash(w));
    states, steps := states + [Take(s3, Crash(w))], steps + [Crash(w)];
  }

  lemma StartedEndsWell(id: string, time: nat)
    ensures AllWellEnded(Db(map[id := Row(Running, false, time)], StartedLog(id)))
  {
    var log := StartedLog(id);
    assert log[..1] == [LogRow(id, 0, JobQueued)] && log[..1][..0] == [];
    assert EventsOf([], id) == [];
    assert EventsOf(log[..1], id) == [JobQueued];
    assert EventsOf(log, id) == [JobQueued, JobStarted];
  }

  /** And such a state is reached from the start: a worker claims a job and dies, two reclaimers list it, and each
      writes an end. */
  lemma TwoEndsFromTheStart(id: string, time: nat, w: nat, q: nat, r: nat) returns (states: seq<State>, steps: seq<Step>)
    requires q != r
    ensures IsRun(states, steps)
    ensures steps == [Submit(id, time), Select(w, id), TryClaim(w), Crash(w),
                      Snapshot(q, {id}), Snapshot(r, {id}), Reclaim(q, id), Reclaim(r, id)]
    ensures var events := EventsOf(states[8].db.log, id);
      && |events| >= 2 && events[|events| - 1] == events[|events| - 2] == JobInterrupted && !AllWellEnded(states[8].db)
  {
    hide AllWellEnded, WorkersFit, LogFits, Numbered, EventsOf, StartedLog;
    states, steps := CrashedRun(id, time, w);
    var s4 := states[4];
    StartedEndsWell(id, time);
    RunExtends(states, steps, Snapshot(q, {id}));
    var s5 := Take(s4, Snapshot(q, {id}));
    states, steps := states + [s5], steps + [Snapshot(q, {id})];
    RunExtends(states, steps, Snapshot(r, {id}));
    var s6 := Take(s5, Snapshot(r, {id}));
    states, steps := states + [s6], steps + [Snapshot(r, {id})];
    RunsKeepInv(states, steps, 6);
    TwoReclaimersTwoEnds(s6, q, r, id);
    RunExtends(states, steps, Reclaim(q, id));
    var s7 := Take(s6, Reclaim(q, id));
    states, steps := states + [s7], steps + [Reclaim(q, id)];
    RunExtends(states, steps, Reclaim(r, id));
    states, steps := states + [Take(s7, Reclaim(r, id))], steps + [Reclaim(r, id)];
  }

  // ---------------------------------------------------------------- cancelled while queued

  predicate NoNodeEvents(events: seq<Event>) {
    forall i :: 0 <= i < |events| ==> !FromNode(events[i])
  }

  /** The flag was set before anyone started the job: from here it can only be interrupted. */
  ghost predicate CancelledInTime(s: State, id: string) {
    && id in s.db.jobs && s.db.jobs[id].cancel
    && NoNodeEvents(EventsOf(s.db.log, id))
    && (s.db.jobs[id].status in {Queued, Running, Interrupted})
    && (forall w :: PhaseOf(s, w) != InRun(id))
    && (forall w :: PhaseOf(s, w).Ending? && PhaseOf(s, w).id == id ==> PhaseOf(s, w).result == Interrupted)
  }

  lemma CancelBeforeStart(s: State, id: string)
    requires Inv(s) && id in s.db.jobs && s.db.jobs[id].status == Queued
    requires NoNodeEvents(EventsOf(s.db.log, id))
    ensures CancelledInTime(Take(s, Cancel(id)), id)
  {
    var s' := Take(s, Cancel(id));
    forall w ensures !Holds(PhaseOf(s', w), id) {
      assert PhaseOf(s', w) == PhaseOf(s, w);
    }
    assert forall w :: PhaseOf(s', w) == InRun(id) ==> Holds(PhaseOf(s', w), id);
    assert forall w :: PhaseOf(s', w).Ending? && PhaseOf(s', w).id == id ==> Holds(PhaseOf(s', w), id);
  }

  lemma QuietEvent(db: Db, job: string, e: Event, id: string)
    requires NoNodeEvents(EventsOf(db.log, id)) && (job == id ==> !FromNode(e))
    ensures NoNodeEvents(EventsOf(Appended(db.log, job, e), id))
  {
    EventAdded(db, job, e, id);
  }

  lemma SubmitQuiet(s: State, k: string, time: nat, id: string)
    ensures NoNodeEvents(EventsOf(s.db.log, id)) ==> NoNodeEvents(EventsOf(SubmitTx(s.db, k, time).log, id))
  {
    EventsAppended(s.db.log, LogRow(k, 0, JobQueued), id);
  }

  lemma QuietWrite(s: State, job: string, e: Event, id: string)
    requires job == id ==> !FromNode(e)
    ensures NoNodeEvents(EventsOf(s.db.log, id)) ==> NoNodeEvents(EventsOf(Appended(s.db.log, job, e), id))
  {
    if NoNodeEvents(EventsOf(s.db.log, id)) {
      QuietEvent(s.db, job, e, id);
    }
  }

  /** A step that does not emit for the job adds no node event to its log. */
  lemma StepQuiet(s: State, a: Step, id: string)
    requires Enabled(s, a) && (a.Emit? ==> PhaseOf(s, a.w).id != id)
    ensures NoNodeEvents(EventsOf(s.db.log, id)) ==> NoNodeEvents(EventsOf(Take(s, a).db.log, id))
  {
    hide Appended, NoNodeEvents, OldestQueued;
    match a
    case Submit(k, time) => SubmitQuiet(s, k, time, id);
    case TryClaim(w) => QuietWrite(s, PhaseOf(s, w).id, JobStarted, id);
    case Emit(w, e) => QuietWrite(s, PhaseOf(s, w).id, e, id);
    case Terminate(w) => QuietWrite(s, PhaseOf(s, w).id, TerminalEvent(PhaseOf(s, w).result), id);
    case Reclaim(_, k) => QuietWrite(s, k, JobInterrupted, id);
    case _ =>
  }

  lemma StepStaysCancelled(s: State, a: Step, id: string)
    requires Inv(s) && Enabled(s, a) && CancelledInTime(s, id)
    ensures CancelledInTime(Take(s, a), id)
  {
    hide Numbered, LogFits, Appended, NoNodeEvents, OldestQueued;
    OthersKeep(s, a);
    if a.Emit? {
      assert PhaseOf(s, a.w) != InRun(id);
    }
    StepQuiet(s, a, id);
    CancelledPhases(s, a, id);
    CancelledRow(s, a, id);
  }

  lemma CancelledPhases(s: State, a: Step, id: string)
    requires Inv(s) && Enabled(s, a) && CancelledInTime(s, id)
    ensures forall w :: PhaseOf(Take(s, a), w) != InRun(id)
    ensures forall w :: PhaseOf(Take(s, a), w).Ending? && PhaseOf(Take(s, a), w).id == id ==> PhaseOf(Take(s, a), w).result == Interrupted
  {
    hide Numbered, LogFits, Appended, NoNodeEvents, OldestQueued;
    OthersKeep(s, a);
  }

  lemma CancelledRow(s: State, a: Step, id: string)
    requires Inv(s) && Enabled(s, a) && CancelledInTime(s, id)
    ensures var jobs := Take(s, a).db.jobs;
      id in jobs && jobs[id].cancel && jobs[id].status in {Queued, Running, Interrupted}
  {
    hide Numbered, LogFits, Appended, NoNodeEvents, OldestQueued;
    match a
    case Terminate(w) => assert PhaseOf(s, w).Ending?;
    case _ =>
  }

  lemma QueuedHasNoNodeEvents(states: seq<State>, steps: seq<Step>, i: nat, id: string)
    requires IsRun(states, steps) && i <= |steps| && id in states[i].db.jobs && states[i].db.jobs[id].status == Queued
    ensures NoNodeEvents(EventsOf(states[i].db.log, id))
  {
    RunNodeEvents(states, steps, i, id);
  }

  /** Node events are written only for jobs that were started. */
  lemma {:induction false} RunNodeEvents(states: seq<State>, steps: seq<Step>, i: nat, id: string)
    requires IsRun(states, steps) && i <= |steps|
    ensures id !in states[i].db.jobs || states[i].db.jobs[id].status == Queued ==> NoNodeEvents(EventsOf(states[i].db.log, id))
    decreases i
  {
    if i > 0 {
      RunNodeEvents(states, steps, i - 1, id);
      RunsKeepInv(states, steps, i - 1);
      QueuedStaysQuiet(states[i - 1], steps[i - 1], id);
    }
  }

  lemma QueuedStaysQuiet(s: State, a: Step, id: string)
    requires Inv(s) && Enabled(s, a)
    requires id !in s.db.jobs || s.db.jobs[id].status == Queued ==> NoNodeEvents(EventsOf(s.db.log, id))
    ensures id !in Take(s, a).db.jobs || Take(s, a).db.jobs[id].status == Queued ==>
      NoNodeEvents(EventsOf(Take(s, a).db.log, id))
  {
    hide Numbered, LogFits, NoNodeEvents, OldestQueued;
    if id in s.db.jobs {
      StatusNeverGoesBack(s, a, id);
    }
    if a.Emit? {
      assert Holds(PhaseOf(s, a.w), PhaseOf(s, a.w).id);
    }
    if !a.Emit? || PhaseOf(s, a.w).id != id {
      StepQuiet(s, a, id);
    }
  }

  /** A job cancelled while it is queued never gets a node event, and if it ends it ends interrupted,
      in every continuation of every run. */
  lemma {:induction false} CancelledWhileQueued(states: seq<State>, steps: seq<Step>, c: nat, n: nat, id: string)
    requires IsRun(states, steps) && c < n <= |steps| && steps[c] == Cancel(id)
    requires id in states[c].db.jobs && states[c].db.jobs[id].status == Queued
    ensures CancelledInTime(states[n], id)
    decreases n
  {
    hide Inv, Take, CancelledInTime;
    RunsKeepInv(states, steps, n - 1);
    if c == n - 1 {
      QueuedHasNoNodeEvents(states, steps, c, id);
      CancelBeforeStart(states[c], id);
    } else {
      CancelledWhileQueued(states, steps, c, n - 1, id);
      StepStaysCancelled(states[n - 1], steps[n - 1], id);
    }
  }
}
