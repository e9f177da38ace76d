/** Resumable copy of one file from the scope (server/scope_mirror.py). */
module ScopeMirror {
  import opened Wrappers

  type Bytes = seq<bv8>

  const CHUNK_BYTES := 1048576

  /** The local file and its `.part` sibling, if they exist. */
  datatype Disk = Disk(local: Option<Bytes>, part: Option<Bytes>)

  datatype Copied = AlreadyThere | Complete | Interrupted

  /** What the remote may answer to a request at `offset`: any non-empty piece of at most the requested
      length, or nothing (an empty answer, a lost connection, a crash). */
  predicate Answers(remote: Bytes, offset: nat, data: Bytes) {
    data == [] || (|data| <= CHUNK_BYTES && offset + |data| <= |remote| && data == remote[offset..offset + |data|])
  }

  /** What an attempt goes on from: the part file, unless there is none or it is too long. */
  function Kept(disk: Disk, size: nat): (r: Bytes)
    ensures |r| <= size
  {
    if disk.part.Some? && |disk.part.value| <= size then disk.part.value else []
  }

  /** The size check cannot tell a different file of the same size from a finished copy. */
  predicate LocalOk(disk: Disk, remote: Bytes) {
    disk.local.Some? && |disk.local.value| == |remote| ==> disk.local.value == remote
  }

  /** What the disk holds under the remote's size or short of it is the remote's: a local file of its size is the
      remote, and without one the part that will be gone on from is a beginning of it. */
  predicate StartOk(disk: Disk, remote: Bytes) {
    if disk.local.Some? && |disk.local.value| == |remote| then disk.local.value == remote
    else Kept(disk, |remote|) <= remote
  }

  /** The bytes of `out` after writing `data` at its end. */
  class Part {
    var bytes: Bytes

    constructor (bytes: Bytes)
      ensures this.bytes == bytes
    {
      this.bytes := bytes;
    }

    method Write(data: Bytes)
      modifies this
      ensures bytes == old(bytes) + data
    {
      bytes := bytes + data;
    }
  }

  // ---------------------------------------------------------------- one attempt

  /** What has arrived when the size is reached, the replies run out, or one is empty. */
  function Fetched(got: Bytes, size: nat, answers: seq<Bytes>): Bytes
    decreases |answers|
  {
    if |got| >= size || |answers| == 0 || answers[0] == [] then got else Fetched(got + answers[0], size, answers[1..])
  }

  /** The outcome of one call, for any file on the disk and any replies. */
  function CopyOf(disk: Disk, size: nat, answers: seq<Bytes>): (Disk, Copied) {
    if disk.local.Some? && |disk.local.value| == size then (disk, AlreadyThere) else
    var got := Fetched(Kept(disk, size), size, answers);
    if |got| >= size then (Disk(Some(got), None), Complete) else (Disk(disk.local, Some(got)), Interrupted)
  }

  /** Fetches from where the part file ends. `answers` are the replies in this attempt; when they run out, or one is
      empty, the attempt ends there. */
  method CopyFile(disk: Disk, size: nat, answers: seq<Bytes>) returns (disk': Disk, r: Copied)
    ensures (disk', r) == CopyOf(disk, size, answers)
  {
    if disk.local.Some? && |disk.local.value| == size {
      return disk, AlreadyThere;
    }
    var offset: nat := if disk.part.Some? then |disk.part.value| else 0;
    if offset > size {
      offset := 0;
    }
    var out := new Part(if offset > 0 then disk.part.value else []);
    assert out.bytes == Kept(disk, size);
    var i: nat := 0;
    while offset < size
      invariant i <= |answers| && offset == |out.bytes|
      invariant Fetched(out.bytes, size, answers[i..]) == Fetched(Kept(disk, size), size, answers)
      decreases |answers| - i
    {
      if i == |answers| || answers[i] == [] {
        return Disk(disk.local, Some(out.bytes)), Interrupted;
      }
      assert answers[i..][0] == answers[i] && answers[i..][1..] == answers[i + 1..];
      out.Write(answers[i]);
      offset := offset + |answers[i]|;
      i := i + 1;
    }
    return Disk(Some(out.bytes), None), Complete;
  }

  /** Every reply answers the request made after the ones before it. */
  predicate AllAnswer(remote: Bytes, offset: nat, answers: seq<Bytes>)
    decreases |answers|
  {
    |answers| == 0 || (Answers(remote, offset, answers[0]) && AllAnswer(remote, offset + |answers[0]|, answers[1..]))
  }

  /** Some bytes, gone on with the remote's bytes from their length up to `n`. */
  function GoneOn(kept: Bytes, remote: Bytes, n: nat): (r: Bytes)
    requires |kept| <= n <= |remote|
    ensures |r| == n
  {
    kept + remote[|kept|..n]
  }

  /** What has arrived from the remote after some bytes that were there is its bytes from that length on. */
  lemma {:induction false} FetchedIsGoneOn(kept: Bytes, m: nat, remote: Bytes, answers: seq<Bytes>)
    requires |kept| <= m <= |remote| && AllAnswer(remote, m, answers)
    ensures var got := Fetched(GoneOn(kept, remote, m), |remote|, answers);
      && m <= |got| <= |remote| && got == GoneOn(kept, remote, |got|)
      && ((forall i :: 0 <= i < |answers| ==> answers[i] != []) && m + |answers| >= |remote| ==> |got| == |remote|)
    decreases |answers|
  {
    if m < |remote| && |answers| > 0 && answers[0] != [] {
      var n := m + |answers[0]|;
      NextPiece(kept, m, remote, answers[0]);
      FetchedIsGoneOn(kept, n, remote, answers[1..]);
    }
  }

  lemma NextPiece(kept: Bytes, m: nat, remote: Bytes, data: Bytes)
    requires |kept| <= m <= |remote| && Answers(remote, m, data)
    ensures m + |data| <= |remote| && GoneOn(kept, remote, m) + data == GoneOn(kept, remote, m + |data|)
  {
  }

  /** What one attempt may leave behind. It may be cut off anywhere, before it touches the disk as well. */
  ghost predicate Attempt(before: Disk, after: Disk, r: Copied, remote: Bytes) {
    var kept := Kept(before, |remote|);
    && (r.AlreadyThere? <==> before.local.Some? && |before.local.value| == |remote|)
    && (r.AlreadyThere? ==> after == before)
    && (r.Complete? ==> after == Disk(Some(GoneOn(kept, remote, |remote|)), None))
    && (r.Interrupted? ==> after.local == before.local)
    && (r.Interrupted? && after != before ==>
          exists n :: |kept| <= n <= |remote| && after.part == Some(GoneOn(kept, remote, n)))
  }

  /** A call that the remote answers is such an attempt. A part of at most the remote's size is kept and gone on with,
      and a call whose replies keep coming is finished. */
  lemma CopyIsAttempt(disk: Disk, remote: Bytes, answers: seq<Bytes>)
    requires AllAnswer(remote, |Kept(disk, |remote|)|, answers)
    ensures Attempt(disk, CopyOf(disk, |remote|, answers).0, CopyOf(disk, |remote|, answers).1, remote)
    ensures var (after, r) := CopyOf(disk, |remote|, answers);
      && (r.Interrupted? ==> after.part.Some? && Kept(disk, |remote|) <= after.part.value)
      && ((forall i :: 0 <= i < |answers| ==> answers[i] != []) && |answers| >= |remote| ==> !r.Interrupted?)
  {
    var kept := Kept(disk, |remote|);
    assert GoneOn(kept, remote, |kept|) == kept;
    FetchedIsGoneOn(kept, |kept|, remote, answers);
  }

  // ---------------------------------------------------------------- any number of attempts

  ghost predicate Attempts(disks: seq<Disk>, results: seq<Copied>, remote: Bytes) {
    && |disks| == |results| + 1
    && forall i :: 0 <= i < |results| ==> Attempt(disks[i], disks[i + 1], results[i], remote)
  }

  lemma GoneOnOk(kept: Bytes, remote: Bytes, n: nat)
    requires |kept| <= n <= |remote|
    ensures GoneOn(kept, remote, n) <= remote <==> kept <= remote
  {
    var r := GoneOn(kept, remote, n);
    assert r[..|kept|] == kept;
    if kept <= remote {
      assert r == remote[..n];
    }
    if r <= remote {
      assert kept == remote[..|kept|];
    }
  }

  /** An attempt neither repairs a bad start nor spoils a good one. */
  lemma AttemptKeepsStart(before: Disk, after: Disk, r: Copied, remote: Bytes)
    requires Attempt(before, after, r, remote)
    ensures StartOk(after, remote) <==> StartOk(before, remote)
  {
    hide GoneOn;
    var kept := Kept(before, |remote|);
    if r.Complete? {
      GoneOnOk(kept, remote, |remote|);
    }
    if r.Interrupted? && after != before {
      var n :| |kept| <= n <= |remote| && after.part == Some(GoneOn(kept, remote, n));
      GoneOnOk(kept, remote, n);
    }
  }

  lemma {:induction false} AttemptsKeepStart(disks: seq<Disk>, results: seq<Copied>, remote: Bytes, n: nat)
    requires Attempts(disks, results, remote) && n <= |results|
    ensures StartOk(disks[n], remote) <==> StartOk(disks[0], remote)
  {
    hide Attempt, StartOk;
    if n > 0 {
      AttemptsKeepStart(disks, results, remote, n - 1);
      AttemptKeepsStart(disks[n - 1], disks[n], results[n - 1], remote);
    }
  }

  /** From every disk, over any sequence of attempts, each cut off anywhere: a finished call has the remote's bytes if
      and only if what the disk held at the start was the remote's, a local file of its size or else the part. */
  lemma CopyIsExact(disks: seq<Disk>, results: seq<Copied>, remote: Bytes, n: nat)
    requires Attempts(disks, results, remote) && n < |results| && !results[n].Interrupted?
    ensures disks[n + 1].local == Some(remote) <==> StartOk(disks[0], remote)
  {
    hide StartOk;
    AttemptsKeepStart(disks, results, remote, n + 1);
    FinishedIsOk(disks[n], disks[n + 1], results[n], remote);
  }

  lemma FinishedIsOk(before: Disk, after: Disk, r: Copied, remote: Bytes)
    requires Attempt(before, after, r, remote) && !r.Interrupted?
    ensures after.local.Some? && |after.local.value| == |remote|
    ensures StartOk(after, remote) <==> after.local == Some(remote)
  {
  }

  /** A wrong file of the right size is taken for a finished copy. */
  lemma WrongFileStays(disk: Disk, after: Disk, r: Copied, remote: Bytes)
    requires Attempt(disk, after, r, remote) && !LocalOk(disk, remote)
    ensures r.AlreadyThere? && after.local != Some(remote)
  {
  }

  /** One wrong byte in the part file, two bytes to fetch, and the right answer to the one request that is made. */
  const STALE: Disk := Disk(None, Some([1]))
  const REMOTE: Bytes := [0, 0]
  const REPLIES: seq<Bytes> := [[0]]
  const WRONG: Bytes := [1, 0]

  /** A part file that is not a beginning of the remote is gone on with, and the call completes with a wrong file. */
  lemma StalePartIsKept()
    ensures AllAnswer(REMOTE, |Kept(STALE, |REMOTE|)|, REPLIES)
    ensures CopyOf(STALE, |REMOTE|, REPLIES) == (Disk(Some(WRONG), None), Complete) && WRONG != REMOTE
  {
    assert REMOTE[1..2] == REPLIES[0];
    assert REPLIES[1..] == [];
    assert Kept(STALE, 2) + REPLIES[0] == WRONG;
    assert Fetched(WRONG, 2, REPLIES[1..]) == WRONG;
    assert WRONG[0] != REMOTE[0];
  }
}
