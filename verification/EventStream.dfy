/** Tailing a job's event log by a cursor (server/api.py, stream_job_events). */
module EventStream {
  import opened Events
  import opened Jobs
  import opened JobRuns

  predicate HasTerminal(events: seq<Event>) {
    exists i :: 0 <= i < |events| && Terminal(events[i])
  }

  /** The events up to the first terminal one, which is included. */
  function UpToTerminal(events: seq<Event>): seq<Event> {
    if |events| == 0 then [] else
    var before := events[..|events| - 1];
    if HasTerminal(before) then UpToTerminal(before) else events
  }

  lemma {:induction false} UpToTerminalOf(events: seq<Event>, n: nat)
    requires n < |events| && Terminal(events[n]) && !HasTerminal(events[..n])
    ensures UpToTerminal(events) == events[..n + 1]
  {
    var m := |events| - 1;
    if n == m {
      assert events[..n + 1] == events;
    } else {
      assert events[..m][n] == events[n];
      assert events[..m][..n] == events[..n];
      UpToTerminalOf(events[..m], n);
      assert events[..m][..n + 1] == events[..n + 1];
    }
  }

  lemma QuietUpTo(events: seq<Event>)
    requires !HasTerminal(events)
    ensures UpToTerminal(events) == events
  {
    if |events| > 0 {
      assert forall i :: 0 <= i < |events| - 1 ==> events[..|events| - 1][i] == events[i];
    }
  }

  /** What has been sent is the log so far, up to its first terminal event, or the beginning of it. */
  ghost predicate SentFrom(sent: seq<Event>, closed: bool, events: seq<Event>) {
    sent <= events && closed == HasTerminal(sent) && sent == UpToTerminal(sent)
  }

  class Streamer {
    const job: string
    var sent: seq<Event>
    var lastSeq: int
    var closed: bool

    constructor (job: string)
      ensures this.job == job && sent == [] && lastSeq == -1 && !closed
    {
      this.job := job;
      sent, lastSeq, closed := [], -1, false;
    }

    ghost predicate Valid(log: seq<LogRow>)
      reads this
    {
      SentFrom(sent, closed, EventsOf(log, job)) && lastSeq == |sent| - 1
    }

    /** Sends the events that are still missing from `all`, up to the first terminal one. */
    method Send(events: seq<Event>, ghost all: seq<Event>)
      requires !closed && !HasTerminal(sent) && sent + events == all && lastSeq == |sent| - 1
      modifies this`sent, this`lastSeq, this`closed
      ensures old(sent) <= sent && lastSeq == |sent| - 1
      ensures sent == UpToTerminal(all) && closed == HasTerminal(all) && SentFrom(sent, closed, all)
    {
      hide HasTerminal, UpToTerminal;
      ghost var start := sent;
      for i := 0 to |events|
        invariant !closed && lastSeq == |sent| - 1
        invariant sent == start + events[..i] && !HasTerminal(sent)
      {
        SplitAt(start, events, all, i);
        sent := sent + [events[i]];
        lastSeq := lastSeq + 1;
        if Terminal(events[i]) {
          closed := true;
          StopsHere(all, |start| + i);
          return;
        }
        StillQuiet(start + events[..i], events[i]);
      }
      assert events[..|events|] == events;
      QuietUpTo(sent);
    }

    /** One poll of a log that may have grown since the last one: everything new is sent in order, each event
        once, and nothing after the first terminal event. */
    method Poll(db: Database, ghost before: seq<LogRow>)
      requires before <= db.log && Numbered(db.log)
      requires Valid(before) && !closed
      modifies this`sent, this`lastSeq, this`closed
      ensures Valid(db.log) && old(sent) <= sent
      ensures sent == UpToTerminal(EventsOf(db.log, job))
      ensures closed == HasTerminal(EventsOf(db.log, job))
    {
      hide HasTerminal, UpToTerminal, Numbered, EventsOf, EventsAfter;
      LogPrefix(before, db.log, job);
      AfterIsTail(db.log, job, lastSeq);
      var events := db.GetEvents(job, lastSeq);
      Send(events, EventsOf(db.log, job));
    }
  }

  lemma SplitAt(start: seq<Event>, events: seq<Event>, all: seq<Event>, i: nat)
    requires start + events == all && i < |events|
    ensures start + events[..i + 1] == start + events[..i] + [events[i]] == all[..|start| + i + 1]
    ensures all[|start| + i] == events[i] && all[..|start| + i] == start + events[..i]
  {
  }

  lemma StillQuiet(sent: seq<Event>, ev: Event)
    requires !HasTerminal(sent) && !Terminal(ev)
    ensures !HasTerminal(sent + [ev])
  {
  }

  /** At the first terminal event everything owed has been sent. */
  lemma StopsHere(all: seq<Event>, n: nat)
    requires n < |all| && Terminal(all[n]) && !HasTerminal(all[..n])
    ensures HasTerminal(all) && HasTerminal(all[..n + 1])
    ensures UpToTerminal(all) == all[..n + 1] == UpToTerminal(all[..n + 1])
  {
    UpToTerminalOf(all, n);
    assert all[..n + 1][..n] == all[..n] && all[..n + 1][n] == all[n];
    UpToTerminalOf(all[..n + 1], n);
    assert all[..n + 1][..n + 1] == all[..n + 1];
  }

  /** A grown log keeps the events it had. */
  lemma {:induction false} LogPrefix(before: seq<LogRow>, after: seq<LogRow>, job: string)
    requires before <= after
    ensures EventsOf(before, job) <= EventsOf(after, job)
    decreases |after|
  {
    if |before| < |after| {
      LogPrefix(before, after[..|after| - 1], job);
    } else {
      assert before == after;
    }
  }

  /** Logs only grow in a run, so polls between its steps are polls of growing, numbered logs. */
  lemma {:induction false} LogsGrow(states: seq<State>, steps: seq<Step>, i: nat, j: nat)
    requires IsRun(states, steps) && i <= j <= |steps|
    ensures states[i].db.log <= states[j].db.log && Numbered(states[j].db.log)
    decreases j
  {
    hide Take, Enabled, Numbered, WorkersFit, LogFits;
    RunsKeepInv(states, steps, j);
    if i < j {
      LogsGrow(states, steps, i, j - 1);
      StepLogGrows(states[j - 1], steps[j - 1]);
    }
  }

  lemma StepLogGrows(s: State, a: Step)
    requires Enabled(s, a)
    ensures s.db.log <= Take(s, a).db.log
  {
  }

  /** When the log of a finished job is well ended, the stream sends all of it. */
  lemma WholeLogSent(db: Db, job: string)
    requires WellEnded(db, job) && job in db.jobs && IsTerminal(db.jobs[job].status)
    ensures UpToTerminal(EventsOf(db.log, job)) == EventsOf(db.log, job)
    ensures HasTerminal(EventsOf(db.log, job))
  {
    var events := EventsOf(db.log, job);
    UpToTerminalOf(events, |events| - 1);
  }
}
