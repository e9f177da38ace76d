/** What the entry that a patch overwrites stands for: the project's history (server/projects.py) beside the life of
    its jobs (server/jobs.py). */
module Overwriting {
  import opened Wrappers
  import opened Jobs
  import opened JobRuns
  import P = Projects

  function StatusAt(s: State, id: string): Option<Status> {
    if id in s.db.jobs then Some(s.db.jobs[id].status) else None
  }

  predicate Live(s: State, id: string) {
    id in s.db.jobs && !IsTerminal(s.db.jobs[id].status)
  }

  predicate Finished(s: State, id: string) {
    StatusAt(s, id) == Some(Completed) || StatusAt(s, id) == Some(Failed)
  }

  /** The patch read the status of the current entry's job at point `i` of a run, and cancelled the job by step `j`. */
  ghost predicate Answered(states: seq<State>, steps: seq<Step>, i: nat, j: nat, p: P.State, op: P.Op)
    requires IsRun(states, steps) && P.Valid(p)
  {
    var id := P.Current(p).job;
    && op.Patch? && i <= j < |steps| && steps[j] == Cancel(id)
    && op.status == StatusAt(states[i], id) && op.cancelled == Live(states[j], id)
  }

  // ---------------------------------------------------------------- before the patch

  lemma TerminalStays(s: State, a: Step, id: string)
    requires Inv(s) && Enabled(s, a) && FindsRunning(s, a)
    requires id in s.db.jobs && IsTerminal(s.db.jobs[id].status)
    ensures StatusAt(Take(s, a), id) == StatusAt(s, id)
  {
    hide Numbered, LogFits, Appended, OldestQueued;
  }

  lemma {:induction false} TerminalStaysOn(states: seq<State>, steps: seq<Step>, i: nat, j: nat, id: string)
    requires IsRun(states, steps) && i <= j <= |steps| && WritesRunningUpTo(states, steps, j)
    requires id in states[i].db.jobs && IsTerminal(states[i].db.jobs[id].status)
    ensures StatusAt(states[j], id) == StatusAt(states[i], id)
    decreases j
  {
    hide Take, Enabled, FindsRunning, Inv;
    if i < j {
      TerminalStaysOn(states, steps, i, j - 1, id);
      RunsKeepInv(states, steps, j - 1);
      assert FindsRunning(states[j - 1], steps[j - 1]);
      assert Enabled(states[j - 1], steps[j - 1]) && states[j - 1 + 1] == Take(states[j - 1], steps[j - 1]);
      TerminalStays(states[j - 1], steps[j - 1], id);
    }
  }

  lemma LiveWasLive(states: seq<State>, steps: seq<Step>, k: nat, j: nat, id: string)
    requires IsRun(states, steps) && k <= j <= |steps| && Live(states[j], id)
    ensures !Finished(states[k], id)
  {
    hide Take, Enabled;
    if id in states[k].db.jobs {
      StatusMonotone(states, steps, k, j, id);
    }
  }

  /** A patch overwrites only an entry whose job has at no point before completed or failed; and it appends only after
      an entry whose job was over when the cancel reached it, completed, failed, or interrupted since it was looked
      at. */
  lemma OverwritesUnfinished(states: seq<State>, steps: seq<Step>, i: nat, j: nat, p: P.State, op: P.Op)
    requires IsRun(states, steps) && P.Valid(p) && Answered(states, steps, i, j, p, op)
    requires WritesRunningUpTo(states, steps, j) && P.Current(p).job in states[i].db.jobs
    ensures P.Collapses(op) ==> forall k :: 0 <= k <= j ==> !Finished(states[k], P.Current(p).job)
    ensures !P.Collapses(op) ==>
      var id := P.Current(p).job;
      Finished(states[j], id) || (StatusAt(states[j], id) == Some(Interrupted) && Live(states[i], id))
  {
    hide Take, Enabled;
    var id := P.Current(p).job;
    StatusMonotone(states, steps, i, j, id);
    if P.Collapses(op) {
      forall k | 0 <= k <= j ensures !Finished(states[k], id) {
        NotFinishedBefore(states, steps, i, j, k, id);
      }
    } else if IsTerminal(states[i].db.jobs[id].status) {
      TerminalStaysOn(states, steps, i, j, id);
    }
  }

  lemma NotFinishedBefore(states: seq<State>, steps: seq<Step>, i: nat, j: nat, k: nat, id: string)
    requires IsRun(states, steps) && i <= j <= |steps| && k <= j && WritesRunningUpTo(states, steps, j)
    requires Live(states[j], id) || StatusAt(states[i], id) == Some(Interrupted)
    ensures !Finished(states[k], id)
  {
    hide Take, Enabled, FindsRunning;
    if Live(states[j], id) {
      LiveWasLive(states, steps, k, j, id);
    } else if k <= i {
      if Finished(states[k], id) {
        assert WritesRunningUpTo(states, steps, i);
        TerminalStaysOn(states, steps, k, i, id);
      }
    } else {
      assert WritesRunningUpTo(states, steps, k);
      TerminalStaysOn(states, steps, i, k, id);
    }
  }

  // ---------------------------------------------------------------- after the patch

  /** The state after some steps, if each of them is possible. */
  function After(s: State, steps: seq<Step>): Option<State> {
    if |steps| == 0 then Some(s) else
    var r := After(s, steps[..|steps| - 1]);
    if r.Some? && Enabled(r.value, steps[|steps| - 1]) then Some(Take(r.value, steps[|steps| - 1])) else None
  }

  ghost predicate CanComplete(s: State, id: string) {
    exists steps :: After(s, steps).Some? && StatusAt(After(s, steps).value, id) == Some(Completed)
  }

  /** A worker is past the point where it looks at the flag before it runs the job. */
  predicate PastItsCheck(s: State, w: nat, id: string) {
    PhaseOf(s, w) == InRun(id) || PhaseOf(s, w) == Ending(id, Completed)
  }

  /** Cancelled, and nobody is left who could complete the job. */
  ghost predicate Doomed(s: State, id: string) {
    && id in s.db.jobs && s.db.jobs[id].cancel && s.db.jobs[id].status != Completed
    && forall w: nat :: !PastItsCheck(s, w, id)
  }

  lemma StepStaysDoomed(s: State, a: Step, id: string)
    requires Doomed(s, id) && Enabled(s, a)
    ensures Doomed(Take(s, a), id)
  {
    hide Appended, OldestQueued;
    OthersKeep(s, a);
    forall w: nat ensures !PastItsCheck(Take(s, a), w, id) {
      assert !PastItsCheck(s, w, id);
      if Actor(a) != Some(w) {
        assert PhaseOf(Take(s, a), w) == PhaseOf(s, w);
      }
    }
    match a
    case Terminate(w) => assert !PastItsCheck(s, w, id);
    case _ =>
  }

  lemma {:induction false} StaysDoomed(s: State, steps: seq<Step>, id: string)
    requires Doomed(s, id) && After(s, steps).Some?
    ensures Doomed(After(s, steps).value, id)
  {
    hide Take, Enabled, Doomed;
    if |steps| > 0 {
      var n := |steps| - 1;
      StaysDoomed(s, steps[..n], id);
      StepStaysDoomed(After(s, steps[..n]).value, steps[n], id);
    }
  }

  lemma OneAfter(s: State, a: Step)
    requires Enabled(s, a)
    ensures After(s, [a]) == Some(Take(s, a))
  {
    hide Enabled, Take;
    assert [a][..0] == [] && After(s, []) == Some(s);
  }

  lemma TwoAfter(s: State, a: Step, b: Step)
    requires Enabled(s, a) && Enabled(Take(s, a), b)
    ensures After(s, [a, b]) == Some(Take(Take(s, a), b))
  {
    hide Enabled, Take;
    OneAfter(s, a);
    assert [a, b][..1] == [a];
  }

  lemma PastItsCheckCompletes(s: State, w: nat, id: string)
    requires id in s.db.jobs && PastItsCheck(s, w, id)
    ensures CanComplete(s, id)
  {
    hide Appended, After;
    if PhaseOf(s, w) == InRun(id) {
      TwoAfter(s, EndRun(w, Completed), Terminate(w));
      assert StatusAt(Take(Take(s, EndRun(w, Completed)), Terminate(w)), id) == Some(Completed);
    } else {
      OneAfter(s, Terminate(w));
      assert StatusAt(Take(s, Terminate(w)), id) == Some(Completed);
    }
  }

  /** A live job that a patch cancels can still complete if and only if a worker is past its check of the flag. */
  lemma CompletesAnywayExactly(s: State, id: string)
    requires Live(s, id)
    ensures CanComplete(Take(s, Cancel(id)), id) <==> exists w: nat :: PastItsCheck(s, w, id)
  {
    hide After, Appended;
    var t := Take(s, Cancel(id));
    assert forall w: nat :: PastItsCheck(t, w, id) <==> PastItsCheck(s, w, id);
    if exists w: nat :: PastItsCheck(s, w, id) {
      var w: nat :| PastItsCheck(s, w, id);
      PastItsCheckCompletes(t, w, id);
    } else {
      forall steps | After(t, steps).Some? ensures StatusAt(After(t, steps).value, id) != Some(Completed) {
        StaysDoomed(t, steps, id);
      }
    }
  }

  // ---------------------------------------------------------------- a completed render in no entry

  /** A run from the start in which a worker takes a job past its check. */
  lemma TakenPastItsCheck(id: string, time: nat, w: nat) returns (states: seq<State>, steps: seq<Step>)
    ensures IsRun(states, steps) && steps == [Submit(id, time), Select(w, id), TryClaim(w), ReadCancel(w)]
    ensures PhaseOf(states[4], w) == InRun(id) && StatusAt(states[4], id) == Some(Running)
  {
    hide SubmitTx, ClaimTx, OldestQueued, StartedLog;
    FirstClaim(id, time);
    states, steps := [START], [];
    RunExtends(states, steps, Submit(id, time));
    var s1 := Take(START, Submit(id, time));
    states, steps := states + [s1], steps + [Submit(id, time)];
    RunExtends(states, steps, Select(w, id));
    var s2 := Take(s1, Select(w, id));
    states, steps := states + [s2], steps + [Select(w, id)];
    RunExtends(states, steps, TryClaim(w));
    var s3 := Take(s2, TryClaim(w));
    states, steps := states + [s3], steps + [TryClaim(w)];
    RunExtends(states, steps, ReadCancel(w));
    states, steps := states + [Take(s3, ReadCancel(w))], steps + [ReadCancel(w)];
  }

  /** The patch that follows while the worker is in the run: it overwrites the project's only entry, the job completes
      after all, and no entry of the history names it. */
  lemma CompletedInNoEntry(template: P.TemplateId, base: P.BaseJob, sessions: seq<string>, id: string, time: nat, now: string,
                           w: nat, op: P.Op)
    returns (states: seq<State>, steps: seq<Step>)
    requires op.Patch? && op.status == Some(Running) && op.cancelled && op.job != id
    ensures IsRun(states, steps) && |steps| == 7 && steps[4] == Cancel(id)
    ensures var p := P.Created(template, base, sessions, id, now);
      && P.Valid(p) && Answered(states, steps, 4, 4, p, op)
      && StatusAt(states[7], id) == Some(Completed)
      && forall k :: 0 <= k < |P.Apply(p, op).history| ==> P.Apply(p, op).history[k].job != id
  {
    hide Appended, P.PatchedOverrides;
    states, steps := TakenPastItsCheck(id, time, w);
    var s4 := states[4];
    CancelledRun(states, steps, id, w);
    var s5 := Take(s4, Cancel(id));
    var s6 := Take(s5, EndRun(w, Completed));
    states, steps := states + [s5, s6, Take(s6, Terminate(w))], steps + [Cancel(id), EndRun(w, Completed), Terminate(w)];
  }

  lemma CancelledRun(states: seq<State>, steps: seq<Step>, id: string, w: nat)
    requires IsRun(states, steps) && |steps| == 4
    requires PhaseOf(states[4], w) == InRun(id) && StatusAt(states[4], id) == Some(Running)
    ensures var s5 := Take(states[4], Cancel(id));
      && Enabled(s5, EndRun(w, Completed))
      && var s6 := Take(s5, EndRun(w, Completed));
      && Enabled(s6, Terminate(w))
      && var s7 := Take(s6, Terminate(w));
      && IsRun(states + [s5, s6, s7], steps + [Cancel(id), EndRun(w, Completed), Terminate(w)])
      && StatusAt(s7, id) == Some(Completed)
  {
    hide Appended;
    var s5 := Take(states[4], Cancel(id));
    var s6 := Take(s5, EndRun(w, Completed));
    var s7 := Take(s6, Terminate(w));
    RunExtends(states, steps, Cancel(id));
    RunExtends(states + [s5], steps + [Cancel(id)], EndRun(w, Completed));
    RunExtends(states + [s5] + [s6], steps + [Cancel(id)] + [EndRun(w, Completed)], Terminate(w));
    assert states + [s5] + [s6] + [s7] == states + [s5, s6, s7];
    assert steps + [Cancel(id)] + [EndRun(w, Completed)] + [Terminate(w)] ==
      steps + [Cancel(id), EndRun(w, Completed), Terminate(w)];
  }
}
