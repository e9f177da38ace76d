/** The job table and the event log (server/jobs.py). Each transaction is one atomic step. */
module Jobs {
  import opened Wrappers
  import opened CacheStore
  import opened Events

  datatype Status = Queued | Running | Completed | Failed | Interrupted

  predicate IsTerminal(s: Status) {
    s.Completed? || s.Failed? || s.Interrupted?
  }

  datatype Row = Row(status: Status, cancel: bool, submitted: nat)

  /** One row of the event table. */
  datatype LogRow = LogRow(job: string, seqno: nat, event: Event)

  /** The rows of the event table stand in the order of insertion. */
  datatype Db = Db(jobs: map<string, Row>, log: seq<LogRow>)

  // ---------------------------------------------------------------- the event log

  /** MAX(seq) over the job's rows, or -1. */
  function MaxSeq(log: seq<LogRow>, job: string): (m: int)
    ensures m >= -1
  {
    if |log| == 0 then -1 else
    var rest, row := MaxSeq(log[..|log| - 1], job), log[|log| - 1];
    if row.job == job && row.seqno > rest then row.seqno else rest
  }

  function Appended(log: seq<LogRow>, job: string, e: Event): seq<LogRow> {
    log + [LogRow(job, MaxSeq(log, job) + 1, e)]
  }

  /** The events of a job, in the order of insertion. */
  function EventsOf(log: seq<LogRow>, job: string): seq<Event> {
    if |log| == 0 then [] else
    var row := log[|log| - 1];
    EventsOf(log[..|log| - 1], job) + if row.job == job then [row.event] else []
  }

  /** The events of a job with a sequence number above `after`. */
  function EventsAfter(log: seq<LogRow>, job: string, after: int): seq<Event> {
    if |log| == 0 then [] else
    var row := log[|log| - 1];
    EventsAfter(log[..|log| - 1], job, after) + if row.job == job && row.seqno > after then [row.event] else []
  }

  /** Every row's number is its position among the rows of its job: no gap, no repeat. */
  ghost predicate Numbered(log: seq<LogRow>) {
    forall i :: 0 <= i < |log| ==> log[i].seqno == |EventsOf(log[..i], log[i].job)|
  }

  lemma InitNumbered(log: seq<LogRow>, n: nat)
    requires n <= |log| && Numbered(log)
    ensures Numbered(log[..n])
  {
    forall i | 0 <= i < n ensures log[..n][i].seqno == |EventsOf(log[..n][..i], log[..n][i].job)| {
      assert log[..n][..i] == log[..i];
    }
  }

  lemma {:induction false} MaxIsLast(log: seq<LogRow>, job: string)
    requires Numbered(log)
    ensures MaxSeq(log, job) == |EventsOf(log, job)| - 1
  {
    if |log| > 0 {
      InitNumbered(log, |log| - 1);
      MaxIsLast(log[..|log| - 1], job);
    }
  }

  lemma AppendNumbered(log: seq<LogRow>, job: string, e: Event)
    requires Numbered(log)
    ensures Numbered(Appended(log, job, e))
  {
    var log' := Appended(log, job, e);
    MaxIsLast(log, job);
    forall i | 0 <= i < |log'| ensures log'[i].seqno == |EventsOf(log'[..i], log'[i].job)| {
      assert log'[..i] == log[..i];
      assert log[..|log|] == log;
    }
  }

  lemma EventsAppended(log: seq<LogRow>, row: LogRow, job: string)
    ensures EventsOf(log + [row], job) == EventsOf(log, job) + if row.job == job then [row.event] else []
  {
    assert (log + [row])[..|log|] == log;
  }

  /** With numbered rows, the events above a number are the events from the next position on. */
  lemma {:induction false} AfterIsTail(log: seq<LogRow>, job: string, after: int)
    requires Numbered(log) && -1 <= after
    ensures EventsAfter(log, job, after) ==
      if after + 1 <= |EventsOf(log, job)| then EventsOf(log, job)[after + 1..] else []
  {
    if |log| > 0 {
      var n := |log| - 1;
      InitNumbered(log, n);
      AfterIsTail(log[..n], job, after);
      var events := EventsOf(log[..n], job);
      if log[n].job == job {
        assert log[n].seqno == |events|;
        if after + 1 <= |events| {
          assert (events + [log[n].event])[after + 1..] == events[after + 1..] + [log[n].event];
        }
      } else {
        assert events + [] == events;
      }
    }
  }

  // ---------------------------------------------------------------- transactions

  function SubmitTx(db: Db, id: string, time: nat): Db {
    Db(db.jobs[id := Row(Queued, false, time)], db.log + [LogRow(id, 0, JobQueued)])
  }

  /** Sets the flag of a live job. */
  function CancelTx(db: Db, id: string): Db {
    if id in db.jobs && !IsTerminal(db.jobs[id].status) then db.(jobs := db.jobs[id := db.jobs[id].(cancel := true)]) else db
  }

  /** A queued row that no other queued row precedes. */
  predicate OldestQueued(db: Db, id: string) {
    && id in db.jobs && db.jobs[id].status == Queued
    && forall k :: k in db.jobs && db.jobs[k].status == Queued ==> db.jobs[id].submitted <= db.jobs[k].submitted
  }

  predicate Claimable(db: Db, id: string) {
    id in db.jobs && db.jobs[id].status == Queued
  }

  /** The guarded update of a claim; it has an effect only on a queued row. */
  function ClaimTx(db: Db, id: string): Db {
    if Claimable(db, id) then
      Db(db.jobs[id := db.jobs[id].(status := Running)], Appended(db.log, id, JobStarted))
    else db
  }

  function EmitTx(db: Db, id: string, e: Event): Db {
    db.(log := Appended(db.log, id, e))
  }

  function TerminalEvent(s: Status): Event {
    match s
    case Completed => JobCompleted
    case Interrupted => JobInterrupted
    case _ => JobFailed
  }

  /** The end of a run. The update is not guarded by the row's status. */
  function TerminateTx(db: Db, id: string, s: Status): Db {
    var jobs := if id in db.jobs then db.jobs[id := db.jobs[id].(status := s)] else db.jobs;
    Db(jobs, Appended(db.log, id, TerminalEvent(s)))
  }

  /** Reclaiming one row of a snapshot. The update is guarded, the event is not. */
  function ReclaimTx(db: Db, id: string): Db {
    var jobs := if id in db.jobs && db.jobs[id].status == Running then db.jobs[id := db.jobs[id].(status := Interrupted)] else db.jobs;
    Db(jobs, Appended(db.log, id, JobInterrupted))
  }

  function Members(ids: seq<string>): set<string> {
    set id | id in ids
  }

  lemma MembersNext(ids: seq<string>, i: nat)
    requires i < |ids|
    ensures Members(ids[..i + 1]) == Members(ids[..i]) + {ids[i]}
  {
  }

  /** The job table and the event table behind one connection. */
  class Database {
    var jobs: map<string, Row>
    var log: seq<LogRow>

    ghost function State(): Db
      reads this
    {
      Db(jobs, log)
    }

    constructor ()
      ensures State() == Db(map[], [])
    {
      jobs, log := map[], [];
    }

    method PersistEvent(job: string, e: Event) returns (seqno: nat)
      modifies this`log
      ensures log == Appended(old(log), job, e) && seqno == MaxSeq(old(log), job) + 1
    {
      var max: int := -1;
      for i := 0 to |log|
        invariant max == MaxSeq(log[..i], job)
        invariant log == old(log)
      {
        assert log[..i + 1][..i] == log[..i];
        if log[i].job == job && log[i].seqno > max {
          max := log[i].seqno;
        }
      }
      assert log[..|log|] == log;
      seqno := max + 1;
      log := log + [LogRow(job, seqno, e)];
    }

    method Submit(id: string, time: nat)
      requires id !in jobs
      modifies this
      ensures State() == SubmitTx(old(State()), id, time)
    {
      jobs := jobs[id := Row(Queued, false, time)];
      log := log + [LogRow(id, 0, JobQueued)];
    }

    method Cancel(id: string) returns (live: bool)
      modifies this
      ensures State() == CancelTx(old(State()), id)
      ensures live == (id in old(jobs) && !IsTerminal(old(jobs)[id].status))
    {
      live := id in jobs && !IsTerminal(jobs[id].status);
      if live {
        jobs := jobs[id := jobs[id].(cancel := true)];
      }
    }

    /** SELECT ... WHERE status = 'queued' ORDER BY submitted_at LIMIT 1. */
    method SelectOldestQueued() returns (r: Option<string>)
      ensures r.None? ==> forall k :: k in jobs ==> jobs[k].status != Queued
      ensures r.Some? ==> OldestQueued(State(), r.value)
    {
      r := None;
      var todo := jobs.Keys;
      while todo != {}
        invariant todo <= jobs.Keys
        invariant r.None? ==> forall k :: k in jobs && k !in todo ==> jobs[k].status != Queued
        invariant r.Some? ==> r.value in jobs && jobs[r.value].status == Queued
        invariant r.Some? ==> forall k :: k in jobs && k !in todo && jobs[k].status == Queued ==>
          jobs[r.value].submitted <= jobs[k].submitted
        decreases todo
      {
        var k :| k in todo;
        if jobs[k].status == Queued && (r.None? || jobs[k].submitted < jobs[r.value].submitted) {
          r := Some(k);
        }
        todo := todo - {k};
      }
    }

    /** UPDATE ... WHERE id = ? AND status = 'queued', and the start event if it took. */
    method Claim(id: string) returns (claimed: bool)
      modifies this
      ensures State() == ClaimTx(old(State()), id) && claimed == old(Claimable(State(), id))
    {
      claimed := id in jobs && jobs[id].status == Queued;
      if claimed {
        jobs := jobs[id := jobs[id].(status := Running)];
        var _ := PersistEvent(id, JobStarted);
      }
    }

    method Terminate(id: string, s: Status)
      modifies this
      ensures State() == TerminateTx(old(State()), id, s)
    {
      if id in jobs {
        jobs := jobs[id := jobs[id].(status := s)];
      }
      var _ := PersistEvent(id, TerminalEvent(s));
    }

    /** One pass over the rows that looked stale in the snapshot; the marks that a dead worker left in the cache go
        with its row. */
    method ReclaimStale(snapshot: seq<string>, cache: ContentCache) returns (reclaimed: nat)
      modifies this, cache
      ensures State() == ReclaimAll(old(State()), snapshot) && reclaimed == |snapshot|
      ensures cache.root == WithoutMarks(old(cache.root), Members(snapshot))
    {
      hide WithoutMarks;
      reclaimed := 0;
      WithoutMoreMarks(cache.root, {}, "");
      assert Members(snapshot[..0]) == {};
      for i := 0 to |snapshot|
        invariant State() == ReclaimAll(old(State()), snapshot[..i]) && reclaimed == i
        invariant cache.root == WithoutMarks(old(cache.root), Members(snapshot[..i]))
      {
        assert snapshot[..i + 1][..i] == snapshot[..i];
        var id := snapshot[i];
        if id in jobs && jobs[id].status == Running {
          jobs := jobs[id := jobs[id].(status := Interrupted)];
        }
        var _ := PersistEvent(id, JobInterrupted);
        reclaimed := reclaimed + 1;
        WithoutMoreMarks(old(cache.root), Members(snapshot[..i]), id);
        MembersNext(snapshot, i);
        var _ := cache.ReleaseJobMarks(id);
      }
      assert snapshot[..|snapshot|] == snapshot;
    }

    method GetEvents(job: string, after: int) returns (r: seq<Event>)
      ensures r == EventsAfter(log, job, after)
    {
      r := [];
      for i := 0 to |log|
        invariant r == EventsAfter(log[..i], job, after)
      {
        assert log[..i + 1][..i] == log[..i];
        if log[i].job == job && log[i].seqno > after {
          r := r + [log[i].event];
        }
      }
      assert log[..|log|] == log;
    }
  }

  function ReclaimAll(db: Db, snapshot: seq<string>): Db {
    if |snapshot| == 0 then db else
    ReclaimTx(ReclaimAll(db, snapshot[..|snapshot| - 1]), snapshot[|snapshot| - 1])
  }
}
