/** In-use marks against concurrent sweeps (server/cache.py, server/storage.py). A sweep lists committed entries,
    takes a snapshot of the live jobs, and then goes through its list once: it checks an entry and removes it in
    two separate steps. */
module InUse {
  import opened Wrappers
  import opened CacheStore

  /** `alive` is the snapshot, once it is taken; `todo` is what is still to be looked at; `pending` is the entry
      that passed the check and is about to be removed. */
  datatype Sweep = Sweep(alive: Option<set<string>>, todo: seq<string>, pending: Option<string>)

  /** `alive` are the queued and running jobs. */
  datatype State = State(root: map<string, Dir>, alive: set<string>, sweeps: map<nat, Sweep>)

  /** A reservation either creates a missing entry or resets one, an uncommitted or a forced one. A sweep may end
      at any point, as it does when it has freed enough. */
  datatype Step =
    | Submit(job: string)
    | Finish(job: string)
    | Release(job: string)
    | Create(h: string)
    | Reset(h: string)
    | Commit(h: string)
    | Mark(job: string, h: string)
    | Begin(sweep: nat, listing: seq<string>)
    | Snapshot(sweep: nat)
    | Check(sweep: nat)
    | Remove(sweep: nat)
    | End(sweep: nat)

  /** Committed entries, each once: all of them in the order of eviction, or the candidates of a purge. */
  predicate Listing(root: map<string, Dir>, listing: seq<string>) {
    && (forall i :: 0 <= i < |listing| ==> listing[i] in root && root[listing[i]].done)
    && forall i, j :: 0 <= i < j < |listing| ==> listing[i] != listing[j]
  }

  /** The entry that comes next is checked: stale marks go, and without a live one it is to be removed. An entry
      that is no longer there holds no marks. */
  function Checked(s: State, w: nat): State
    requires w in s.sweeps && s.sweeps[w].alive.Some? && |s.sweeps[w].todo| > 0
  {
    var Sweep(Some(alive), todo, _) := s.sweeps[w];
    var h := todo[0];
    if h in s.root then
      State(s.root[h := KeepLive(s.root[h], alive)], s.alive,
            s.sweeps[w := Sweep(Some(alive), todo[1..], if s.root[h].marks * alive == {} then Some(h) else None)])
    else s.(sweeps := s.sweeps[w := Sweep(Some(alive), todo[1..], Some(h))])
  }

  function Take(s: State, a: Step): State {
    match a
    case Submit(j) => s.(alive := s.alive + {j})
    case Finish(j) => s.(alive := s.alive - {j})
    case Release(j) => s.(root := WithoutMarks(s.root, {j}))
    case Create(h) => if h in s.root then s else s.(root := s.root[h := EMPTY_DIR])
    case Reset(h) => if h in s.root then s.(root := s.root[h := EMPTY_DIR]) else s
    case Commit(h) => if h in s.root then s.(root := s.root[h := MarkedDone(s.root[h])]) else s
    case Mark(j, h) => if h in s.root then s.(root := s.root[h := s.root[h].(marks := s.root[h].marks + {j})]) else s
    case Begin(w, listing) =>
      if w in s.sweeps || !Listing(s.root, listing) then s else s.(sweeps := s.sweeps[w := Sweep(None, listing, None)])
    case Snapshot(w) =>
      if w !in s.sweeps || s.sweeps[w].alive.Some? then s else
      s.(sweeps := s.sweeps[w := s.sweeps[w].(alive := Some(s.alive))])
    case Check(w) =>
      if w !in s.sweeps || s.sweeps[w].alive.None? || s.sweeps[w].pending.Some? || |s.sweeps[w].todo| == 0 then s else
      Checked(s, w)
    case Remove(w) =>
      if w !in s.sweeps || s.sweeps[w].pending.None? then s else
      State(s.root - {s.sweeps[w].pending.value}, s.alive, s.sweeps[w := s.sweeps[w].(pending := None)])
    case End(w) => s.(sweeps := s.sweeps - {w})
  }

  function TakeAll(s: State, steps: seq<Step>): State {
    if |steps| == 0 then s else Take(TakeAll(s, steps[..|steps| - 1]), steps[|steps| - 1])
  }

  /** A live job's mark is on the entry. */
  predicate Holds(s: State, job: string, h: string) {
    h in s.root && job in s.root[h].marks && job in s.alive
  }

  /** The sweep will not touch the mark: it has passed the check of this entry, or does not list it, or counts the
      job among the live ones. */
  predicate Spares(sw: Sweep, job: string, h: string) {
    sw.pending != Some(h) && (h in sw.todo && sw.alive.Some? ==> job in sw.alive.value)
  }

  predicate Shielded(s: State, job: string, h: string) {
    Holds(s, job, h) && forall w :: w in s.sweeps ==> Spares(s.sweeps[w], job, h)
  }

  /** The job itself neither finishes nor gives its marks back, and nobody resets the entry. */
  predicate Stays(job: string, h: string, steps: seq<Step>) {
    forall i :: 0 <= i < |steps| ==> steps[i] != Finish(job) && steps[i] != Release(job) && steps[i] != Reset(h)
  }

  lemma CheckSpares(s: State, w: nat, job: string, h: string)
    requires Shielded(s, job, h)
    requires w in s.sweeps && s.sweeps[w].alive.Some? && |s.sweeps[w].todo| > 0
    ensures Shielded(Checked(s, w), job, h)
  {
    var sw := s.sweeps[w];
    assert Spares(sw, job, h);
    assert h in sw.todo[1..] ==> h in sw.todo;
    if sw.todo[0] == h {
      assert job in s.root[h].marks * sw.alive.value;
    }
  }

  lemma StepKeepsShield(s: State, a: Step, job: string, h: string)
    requires Shielded(s, job, h) && a != Finish(job) && a != Release(job) && a != Reset(h)
    ensures Shielded(Take(s, a), job, h)
  {
    hide Checked, Listing;
    match a
    case Check(w) =>
      if !(w !in s.sweeps || s.sweeps[w].alive.None? || s.sweeps[w].pending.Some? || |s.sweeps[w].todo| == 0) {
        CheckSpares(s, w, job, h);
      }
    case Remove(w) =>
      if w in s.sweeps {
        assert Spares(s.sweeps[w], job, h);
      }
    case Snapshot(w) =>
      if w in s.sweeps {
        assert Spares(s.sweeps[w], job, h);
      }
    case _ =>
  }

  /** Safety over all runs: a shielded entry and its mark survive every interleaving of sweeps and other jobs. */
  lemma {:induction false} ShieldHolds(s: State, steps: seq<Step>, job: string, h: string)
    requires Shielded(s, job, h) && Stays(job, h, steps)
    ensures Shielded(TakeAll(s, steps), job, h)
  {
    if |steps| > 0 {
      var n := |steps| - 1;
      ShieldHolds(s, steps[..n], job, h);
      StepKeepsShield(TakeAll(s, steps[..n]), steps[n], job, h);
    }
  }

  ghost predicate AlwaysHeld(s: State, job: string, h: string) {
    forall steps :: Stays(job, h, steps) ==> Holds(TakeAll(s, steps), job, h)
  }

  lemma {:induction false} TakeMore(s: State, a: Step, steps: seq<Step>)
    ensures TakeAll(s, [a] + steps) == TakeAll(Take(s, a), steps)
  {
    if |steps| > 0 {
      var n := |steps| - 1;
      TakeMore(s, a, steps[..n]);
      assert ([a] + steps)[..n + 1] == [a] + steps[..n];
    } else {
      assert [a] + steps == [a] && [a][..0] == [];
      assert TakeAll(s, []) == s;
    }
  }

  /** A step that the job's hold may be lost after. */
  lemma LostLater(s: State, a: Step, job: string, h: string)
    requires !AlwaysHeld(Take(s, a), job, h) && a != Finish(job) && a != Release(job) && a != Reset(h)
    ensures !AlwaysHeld(s, job, h)
  {
    hide Take, Holds;
    var steps :| Stays(job, h, steps) && !Holds(TakeAll(Take(s, a), steps), job, h);
    TakeMore(s, a, steps);
    assert Stays(job, h, [a] + steps);
  }

  lemma LostNow(s: State, job: string, h: string)
    requires !Holds(s, job, h)
    ensures !AlwaysHeld(s, job, h)
  {
    assert Stays(job, h, []) && TakeAll(s, []) == s;
  }

  /** A sweep that lists the entry and does not know the job gets to it, and the mark or the entry is lost. */
  lemma {:induction false} SweepGetsThere(s: State, w: nat, job: string, h: string)
    requires w in s.sweeps && s.sweeps[w].pending.None? && s.sweeps[w].alive.Some?
    requires job !in s.sweeps[w].alive.value && h in s.sweeps[w].todo
    ensures !AlwaysHeld(s, job, h)
    decreases |s.sweeps[w].todo|
  {
    hide AlwaysHeld;
    var todo := s.sweeps[w].todo;
    var s1 := Take(s, Check(w));
    if todo[0] == h {
      LostNow(s1, job, h);
    } else {
      var s2 := Take(s1, Remove(w));
      assert h in todo[1..];
      SweepGetsThere(s2, w, job, h);
      LostLater(s1, Remove(w), job, h);
    }
    LostLater(s, Check(w), job, h);
  }

  lemma NotSparedIsLost(s: State, w: nat, job: string, h: string)
    requires w in s.sweeps && !Spares(s.sweeps[w], job, h)
    ensures !AlwaysHeld(s, job, h)
  {
    hide AlwaysHeld;
    var s1 := Take(s, Remove(w));
    if s.sweeps[w].pending == Some(h) {
      LostNow(s1, job, h);
    } else {
      SweepGetsThere(s1, w, job, h);
    }
    LostLater(s, Remove(w), job, h);
  }

  /** The shield is exactly what is needed. A mark is safe for as long as its job lives if and only if no sweep is
      about to remove the entry, and every sweep that will still look at it took its snapshot with the job alive,
      or will take it. */
  lemma ShieldIsExact(s: State, job: string, h: string)
    requires Holds(s, job, h)
    ensures AlwaysHeld(s, job, h) <==> Shielded(s, job, h)
  {
    hide Take, Spares;
    if Shielded(s, job, h) {
      forall steps | Stays(job, h, steps) ensures Holds(TakeAll(s, steps), job, h) {
        ShieldHolds(s, steps, job, h);
      }
    } else {
      var w :| w in s.sweeps && !Spares(s.sweeps[w], job, h);
      NotSparedIsLost(s, w, job, h);
    }
  }

  /** A mark stamped now lasts exactly if every sweep under way spares it: with no sweep under way, or on an entry
      that no sweep has still to look at, it always does. */
  lemma QuietMarkIsShielded(s: State, job: string, h: string)
    requires job in s.alive && h in s.root
    ensures AlwaysHeld(Take(s, Mark(job, h)), job, h) <==> forall w :: w in s.sweeps ==> Spares(s.sweeps[w], job, h)
  {
    ShieldIsExact(Take(s, Mark(job, h)), job, h);
  }

  /** No sweep has the entry in hand: neither about to remove it nor listed. */
  predicate InNoHand(s: State, h: string) {
    forall w :: w in s.sweeps ==> s.sweeps[w].pending != Some(h) && h !in s.sweeps[w].todo
  }

  /** A reserved entry of a live job before its commit. */
  predicate Underway(s: State, job: string, h: string) {
    job in s.alive && h in s.root && !s.root[h].done && InNoHand(s, h)
  }

  lemma StepKeepsUnderway(s: State, a: Step, job: string, h: string)
    requires Underway(s, job, h) && a != Finish(job) && a != Commit(h)
    ensures Underway(Take(s, a), job, h)
  {
    hide Listing;
    match a
    case Begin(w, listing) =>
      if Listing(s.root, listing) {
        UncommittedIsUnlisted(s.root, listing, h);
      }
    case Check(w) =>
      if w in s.sweeps && s.sweeps[w].alive.Some? && |s.sweeps[w].todo| > 0 {
        assert h !in s.sweeps[w].todo;
      }
    case _ =>
  }

  lemma UncommittedIsUnlisted(root: map<string, Dir>, listing: seq<string>, h: string)
    requires Listing(root, listing) && h in root && !root[h].done
    ensures h !in listing
  {
  }

  lemma {:induction false} RunKeepsUnderway(s: State, steps: seq<Step>, job: string, h: string)
    requires Underway(s, job, h)
    requires forall i :: 0 <= i < |steps| ==> steps[i] != Finish(job) && steps[i] != Commit(h)
    ensures Underway(TakeAll(s, steps), job, h)
  {
    hide Take, Underway;
    if |steps| > 0 {
      var n := |steps| - 1;
      RunKeepsUnderway(s, steps[..n], job, h);
      StepKeepsUnderway(TakeAll(s, steps[..n]), steps[n], job, h);
    }
  }

  /** What a node writes is safe from its reservation on, if no sweep has an earlier entry of that key in hand, whether
      the reservation creates the entry or resets a leftover, and whatever sweeps and other jobs do between the
      reservation and the mark: an entry is listed only once it is committed, and by then it is marked. */
  lemma NewEntryIsShielded(s: State, a: Step, between: seq<Step>, job: string, h: string)
    requires job in s.alive && InNoHand(s, h)
    requires a == (if h in s.root then Reset(h) else Create(h))
    requires forall i :: 0 <= i < |between| ==> between[i] != Finish(job) && between[i] != Commit(h)
    ensures AlwaysHeld(Take(TakeAll(Take(s, a), between), Mark(job, h)), job, h)
  {
    hide AlwaysHeld;
    RunKeepsUnderway(Take(s, a), between, job, h);
    QuietMarkIsShielded(TakeAll(Take(s, a), between), job, h);
  }

  /** A run that loses a mark: a job submitted after the snapshot of a sweep marks an entry that the sweep lists. */
  lemma LateMarkIsLost(s: State, job: string, h: string)
    requires h in s.root && s.root[h].done && s.sweeps == map[] && job !in s.alive
    ensures var s' := Take(Take(Take(Take(s, Begin(0, [h])), Snapshot(0)), Submit(job)), Mark(job, h));
      Holds(s', job, h) && !AlwaysHeld(s', job, h)
  {
    hide AlwaysHeld, Checked, Listing;
    var s1 := Take(s, Begin(0, [h]));
    OneListed(s.root, h);
    assert s1.sweeps == map[0 := Sweep(None, [h], None)];
    var s2 := Take(s1, Snapshot(0));
    var s' := Take(Take(s2, Submit(job)), Mark(job, h));
    assert s'.sweeps == map[0 := Sweep(Some(s.alive), [h], None)];
    ShieldIsExact(s', job, h);
    assert !Spares(s'.sweeps[0], job, h);
  }

  lemma OneListed(root: map<string, Dir>, h: string)
    requires h in root && root[h].done
    ensures Listing(root, [h])
  {
  }

  predicate NoMarks(s: State, job: string) {
    forall h :: h in s.root ==> job !in s.root[h].marks
  }

  predicate NeverMarks(job: string, steps: seq<Step>) {
    forall i :: 0 <= i < |steps| ==> !(steps[i].Mark? && steps[i].job == job)
  }

  lemma StepAddsNoMark(s: State, a: Step, job: string)
    requires NoMarks(s, job) && !(a.Mark? && a.job == job)
    ensures NoMarks(Take(s, a), job)
  {
    hide Listing;
  }

  /** After its release a job holds no entry, until it marks one again. */
  lemma {:induction false} ReleasedForGood(s: State, job: string, steps: seq<Step>)
    requires NeverMarks(job, steps)
    ensures NoMarks(TakeAll(Take(s, Release(job)), steps), job)
  {
    hide Take;
    if |steps| > 0 {
      var n := |steps| - 1;
      ReleasedForGood(s, job, steps[..n]);
      StepAddsNoMark(TakeAll(Take(s, Release(job)), steps[..n]), steps[n], job);
    } else {
      NoneAfterRelease(s, job);
    }
  }

  lemma NoneAfterRelease(s: State, job: string)
    ensures NoMarks(Take(s, Release(job)), job)
  {
  }
}
