/** Storage accounting and per-project purge (server/storage.py). */
module Accounting {
  import opened CacheStore
  import opened Reachability

  function TotalBytes(infos: seq<Info>): nat {
    if |infos| == 0 then 0 else TotalBytes(infos[..|infos| - 1]) + infos[|infos| - 1].bytes
  }

  /** Bytes no project reaches. */
  function UnreachableBytes(infos: seq<Info>): nat {
    if |infos| == 0 then 0 else
    var e := infos[|infos| - 1];
    UnreachableBytes(infos[..|infos| - 1]) + if e.owners == {} then e.bytes else 0
  }

  /** Bytes only this project reaches. */
  function OwnedBytes(infos: seq<Info>, pid: string): nat {
    if |infos| == 0 then 0 else
    var e := infos[|infos| - 1];
    OwnedBytes(infos[..|infos| - 1], pid) + if e.owners == {pid} then e.bytes else 0
  }

  /** Bytes this project reaches with others. */
  function SharedBytes(infos: seq<Info>, pid: string): nat {
    if |infos| == 0 then 0 else
    var e := infos[|infos| - 1];
    SharedBytes(infos[..|infos| - 1], pid) + if pid in e.owners && e.owners != {pid} then e.bytes else 0
  }

  /** Bytes of entries with several owners, each counted once. */
  function JointBytes(infos: seq<Info>): nat {
    if |infos| == 0 then 0 else
    var e := infos[|infos| - 1];
    JointBytes(infos[..|infos| - 1]) + if |e.owners| > 1 then e.bytes else 0
  }

  function SumOwned(infos: seq<Info>, pids: seq<string>): nat {
    if |pids| == 0 then 0 else SumOwned(infos, pids[..|pids| - 1]) + OwnedBytes(infos, pids[|pids| - 1])
  }

  predicate Distinct(pids: seq<string>) {
    forall i, j :: 0 <= i < j < |pids| ==> pids[i] != pids[j]
  }

  lemma {:induction false} SumOwnedNothing(pids: seq<string>)
    ensures SumOwned([], pids) == 0
  {
    if |pids| > 0 {
      SumOwnedNothing(pids[..|pids| - 1]);
    }
  }

  /** One more entry adds its bytes to the one project that owns it alone. */
  lemma {:induction false} SumOwnedMore(infos: seq<Info>, n: nat, pids: seq<string>)
    requires |infos| == n + 1 && Distinct(pids)
    ensures SumOwned(infos, pids) == SumOwned(infos[..n], pids) +
      if exists p :: p in pids && infos[n].owners == {p} then infos[n].bytes else 0
  {
    if |pids| > 0 {
      var m := |pids| - 1;
      SumOwnedMore(infos, n, pids[..m]);
      assert pids == pids[..m] + [pids[m]];
      if infos[n].owners == {pids[m]} {
        assert forall p :: p in pids[..m] ==> infos[n].owners != {p} by {
          forall p | p in pids[..m] ensures infos[n].owners != {p} {
            assert p != pids[m];
            assert pids[m] in {pids[m]} && pids[m] !in {p};
          }
        }
      }
    }
  }

  lemma LoneOwner(owners: set<string>)
    requires owners != {}
    ensures |owners| > 1 <==> forall p :: owners != {p}
  {
    var p :| p in owners;
    if |owners| == 1 {
      assert |owners - {p}| == 0;
      assert owners == {p};
    }
    if exists q :: owners == {q} {
      var q :| owners == {q};
      assert |{q}| == 1;
    }
  }

  predicate OwnersKnown(infos: seq<Info>, pids: seq<string>) {
    forall i, p :: 0 <= i < |infos| && p in infos[i].owners ==> p in pids
  }

  /** Every byte is counted once: unreachable, owned by one project, or held jointly. */
  lemma {:induction false} BytesConserved(infos: seq<Info>, pids: seq<string>)
    requires Distinct(pids) && OwnersKnown(infos, pids)
    ensures TotalBytes(infos) == UnreachableBytes(infos) + SumOwned(infos, pids) + JointBytes(infos)
  {
    if |infos| == 0 {
      SumOwnedNothing(pids);
      assert infos == [];
    } else {
      var n := |infos| - 1;
      BytesConserved(infos[..n], pids);
      SumOwnedMore(infos, n, pids);
      var owners := infos[n].owners;
      if owners != {} {
        LoneOwner(owners);
        if exists p :: owners == {p} {
          var p :| owners == {p};
          assert p in infos[n].owners;
        }
      }
    }
  }

  // ---------------------------------------------------------------- the snapshot

  datatype ProjectStorage = ProjectStorage(id: string, owned: nat, shared: nat, count: nat)

  function EntryCount(infos: seq<Info>, pid: string): nat {
    if |infos| == 0 then 0 else
    EntryCount(infos[..|infos| - 1], pid) + if pid in infos[|infos| - 1].owners then 1 else 0
  }

  function UsageOf(infos: seq<Info>, pid: string): ProjectStorage {
    ProjectStorage(pid, OwnedBytes(infos, pid), SharedBytes(infos, pid), EntryCount(infos, pid))
  }

  method ProjectUsage(infos: seq<Info>, pid: string) returns (r: ProjectStorage)
    ensures r == UsageOf(infos, pid)
  {
    var owned, shared, count := 0, 0, 0;
    for i := 0 to |infos|
      invariant owned == OwnedBytes(infos[..i], pid)
      invariant shared == SharedBytes(infos[..i], pid)
      invariant count == EntryCount(infos[..i], pid)
    {
      assert infos[..i + 1][..i] == infos[..i];
      var e := infos[i];
      if pid !in e.owners {
        continue;
      }
      count := count + 1;
      if e.owners == {pid} {
        owned := owned + e.bytes;
      } else {
        shared := shared + e.bytes;
      }
    }
    assert infos[..|infos|] == infos;
    return ProjectStorage(pid, owned, shared, count);
  }

  /** Totals over all entries, and one line per project. */
  method SystemStorage(infos: seq<Info>, pids: seq<string>)
    returns (total: nat, unreachable: nat, perProject: seq<ProjectStorage>, ghost joint: nat)
    requires Distinct(pids) && OwnersKnown(infos, pids)
    ensures total == TotalBytes(infos) && unreachable == UnreachableBytes(infos)
    ensures |perProject| == |pids|
    ensures forall i :: 0 <= i < |pids| ==> perProject[i] == UsageOf(infos, pids[i])
    ensures total == unreachable + SumOwned(infos, pids) + JointBytes(infos)
  {
    total, unreachable := 0, 0;
    for i := 0 to |infos|
      invariant total == TotalBytes(infos[..i]) && unreachable == UnreachableBytes(infos[..i])
    {
      assert infos[..i + 1][..i] == infos[..i];
      total := total + infos[i].bytes;
      if infos[i].owners == {} {
        unreachable := unreachable + infos[i].bytes;
      }
    }
    assert infos[..|infos|] == infos;
    perProject := [];
    for k := 0 to |pids|
      invariant |perProject| == k
      invariant forall i :: 0 <= i < k ==> perProject[i] == UsageOf(infos, pids[i])
    {
      var usage := ProjectUsage(infos, pids[k]);
      perProject := perProject + [usage];
    }
    joint := JointBytes(infos);
    BytesConserved(infos, pids);
  }

  // ---------------------------------------------------------------- the entries of a cache

  /** The listing names every committed entry of the cache once, with its size, and no other. */
  ghost predicate Lists(infos: seq<Info>, root: map<string, Dir>) {
    && (forall i, j :: 0 <= i < j < |infos| ==> infos[i].hash != infos[j].hash)
    && (forall i :: 0 <= i < |infos| ==>
          infos[i].hash in root && root[infos[i].hash].done && infos[i].bytes == Bytes(root[infos[i].hash]))
    && (forall h :: h in root && root[h].done ==> h in Hashes(infos))
  }

  function Hashes(infos: seq<Info>): set<string> {
    set e | e in infos :: e.hash
  }

  /** The entries a live job's mark is on. */
  ghost function Held(root: map<string, Dir>, alive: set<string>): set<string> {
    set h | h in root && root[h].marks * alive != {}
  }

  /** `after` is `before` without the removed entries; on the others at most stale marks are gone. */
  ghost predicate Swept(before: map<string, Dir>, after: map<string, Dir>, alive: set<string>, removed: set<string>) {
    && after.Keys == before.Keys - removed
    && forall h :: h in after ==> after[h] == before[h] || after[h] == KeepLive(before[h], alive)
  }

  lemma SweptHeld(before: map<string, Dir>, after: map<string, Dir>, alive: set<string>, removed: set<string>, h: string)
    requires Swept(before, after, alive, removed) && h in after
    ensures after[h].marks * alive == before[h].marks * alive && after[h].files == before[h].files
  {
    assert before[h].marks * alive * alive == before[h].marks * alive;
  }

  /** Only what was checked and not held is removed. */
  lemma SweptStep(before: map<string, Dir>, mid: map<string, Dir>, after: map<string, Dir>, alive: set<string>,
                  removed: set<string>, h: string, evict: bool)
    requires Swept(before, mid, alive, removed) && h in mid
    requires after == if evict then mid[h := KeepLive(mid[h], alive)] - {h} else mid[h := KeepLive(mid[h], alive)]
    ensures Swept(before, after, alive, if evict then removed + {h} else removed)
  {
    assert before[h].marks * alive * alive == before[h].marks * alive;
  }

  // ---------------------------------------------------------------- purging one project

  /** What a purge removes: entries only this project owns, not kept, not held. */
  predicate PurgeVictim(e: Info, pid: string, keep: set<string>, held: set<string>) {
    e.owners == {pid} && e.hash !in keep && e.hash !in held
  }

  function PurgeVictims(infos: seq<Info>, pid: string, keep: set<string>, held: set<string>): seq<Info> {
    if |infos| == 0 then [] else
    var e := infos[|infos| - 1];
    PurgeVictims(infos[..|infos| - 1], pid, keep, held) + if PurgeVictim(e, pid, keep, held) then [e] else []
  }

  lemma {:induction false} VictimsAre(infos: seq<Info>, pid: string, keep: set<string>, held: set<string>, e: Info)
    ensures e in PurgeVictims(infos, pid, keep, held) <==> e in infos && PurgeVictim(e, pid, keep, held)
  {
    if |infos| > 0 {
      var n := |infos| - 1;
      VictimsAre(infos[..n], pid, keep, held, e);
      assert infos == infos[..n] + [infos[n]];
    }
  }

  /** The hashes that jobs in the project's history returned as outputs. */
  function TerminalHashes(p: Project, outputs: map<string, set<string>>): set<string> {
    set job, h | job in p.history && job in outputs && h in outputs[job] :: h
  }

  function KeptHashes(p: Project, outputs: map<string, set<string>>, keepOutputs: bool): set<string> {
    if keepOutputs then TerminalHashes(p, outputs) else {}
  }

  lemma NotYetSeen(infos: seq<Info>, i: nat)
    requires forall j, k :: 0 <= j < k < |infos| ==> infos[j].hash != infos[k].hash
    requires i < |infos|
    ensures infos[i].hash !in Hashes(infos[..i])
  {
  }

  lemma MoreHashes(infos: seq<Info>, e: Info)
    ensures Hashes(infos + [e]) == Hashes(infos) + {e.hash}
    ensures TotalBytes(infos + [e]) == TotalBytes(infos) + e.bytes
  {
    assert (infos + [e])[..|infos|] == infos;
    assert forall x :: x in infos + [e] <==> x in infos || x == e;
  }

  /** Checks one listed entry and removes it unless a live job holds it. */
  method EvictUnlessHeld(cache: ContentCache, e: Info, alive: set<string>, ghost before: map<string, Dir>, ghost removed: set<string>)
    returns (evicted: bool, freed: nat)
    requires Swept(before, cache.root, alive, removed) && e.hash in before && e.hash !in removed
    requires e.bytes == Bytes(before[e.hash])
    modifies cache
    ensures evicted == (e.hash !in Held(before, alive)) && freed == if evicted then e.bytes else 0
    ensures Swept(before, cache.root, alive, if evicted then removed + {e.hash} else removed)
  {
    ghost var mid := cache.root;
    SweptHeld(before, mid, alive, removed, e.hash);
    var busy := cache.IsInUse(e.hash, alive);
    if busy {
      SweptStep(before, mid, cache.root, alive, removed, e.hash, false);
      return false, 0;
    }
    freed := cache.Evict(e.hash);
    SweptStep(before, mid, cache.root, alive, removed, e.hash, true);
    evicted := true;
  }

  lemma VictimsNext(infos: seq<Info>, i: nat, pid: string, keep: set<string>, held: set<string>)
    requires i < |infos|
    ensures PurgeVictims(infos[..i + 1], pid, keep, held) ==
      PurgeVictims(infos[..i], pid, keep, held) + if PurgeVictim(infos[i], pid, keep, held) then [infos[i]] else []
    ensures Hashes(infos[..i + 1]) == Hashes(infos[..i]) + {infos[i].hash}
  {
    assert infos[..i + 1][..i] == infos[..i] && infos[..i + 1] == infos[..i] + [infos[i]];
    MoreHashes(infos[..i], infos[i]);
  }

  lemma ListsOnce(infos: seq<Info>, root: map<string, Dir>, i: nat)
    requires Lists(infos, root) && i < |infos|
    ensures infos[i].hash in root && infos[i].bytes == Bytes(root[infos[i].hash]) && infos[i].hash !in Hashes(infos[..i])
  {
    NotYetSeen(infos, i);
  }

  method PurgeProject(cache: ContentCache, infos: seq<Info>, p: Project, outputs: map<string, set<string>>,
                      keepOutputs: bool, alive: set<string>) returns (evicted: nat, freed: nat)
    requires Lists(infos, cache.root)
    modifies cache
    ensures var victims := PurgeVictims(infos, p.id, KeptHashes(p, outputs, keepOutputs), Held(old(cache.root), alive));
      && evicted == |victims| && freed == TotalBytes(victims)
      && Swept(old(cache.root), cache.root, alive, Hashes(victims))
  {
    hide Bytes, Lists, Held, Swept, Hashes;
    var keep := KeptHashes(p, outputs, keepOutputs);
    evicted, freed := 0, 0;
    ghost var before := cache.root;
    ghost var victims: seq<Info> := [];
    NothingSwept(before, alive);
    for i := 0 to |infos|
      invariant victims == PurgeVictims(infos[..i], p.id, keep, Held(before, alive))
      invariant evicted == |victims| && freed == TotalBytes(victims)
      invariant Swept(before, cache.root, alive, Hashes(victims))
      invariant Hashes(victims) <= Hashes(infos[..i])
    {
      var e := infos[i];
      VictimsNext(infos, i, p.id, keep, Held(before, alive));
      if e.owners != {p.id} || e.hash in keep {
        continue;
      }
      ListsOnce(infos, before, i);
      var gone, bytes := EvictUnlessHeld(cache, e, alive, before, Hashes(victims));
      if gone {
        MoreHashes(victims, e);
        freed := freed + bytes;
        evicted := evicted + 1;
        victims := victims + [e];
      }
    }
    assert infos[..|infos|] == infos;
  }

  lemma NothingSwept(root: map<string, Dir>, alive: set<string>)
    ensures Swept(root, root, alive, Hashes([])) && Hashes([]) == {}
  {
  }

  /** The entries that are left. */
  function Without(infos: seq<Info>, gone: set<string>): seq<Info> {
    if |infos| == 0 then [] else
    var e := infos[|infos| - 1];
    Without(infos[..|infos| - 1], gone) + if e.hash in gone then [] else [e]
  }

  lemma OwnedNext(infos: seq<Info>, e: Info, pid: string)
    ensures OwnedBytes(infos + [e], pid) == OwnedBytes(infos, pid) + if e.owners == {pid} then e.bytes else 0
  {
    assert (infos + [e])[..|infos|] == infos;
  }

  lemma SharedNext(infos: seq<Info>, e: Info, pid: string)
    ensures SharedBytes(infos + [e], pid) ==
      SharedBytes(infos, pid) + if pid in e.owners && e.owners != {pid} then e.bytes else 0
  {
    assert (infos + [e])[..|infos|] == infos;
  }

  lemma WithoutNext(infos: seq<Info>, e: Info, gone: set<string>)
    ensures Without(infos + [e], gone) == if e.hash in gone then Without(infos, gone) else Without(infos, gone) + [e]
  {
    assert (infos + [e])[..|infos|] == infos;
  }

  lemma NotTheOther(owners: set<string>, pid: string, other: string)
    requires owners == {pid} && other != pid
    ensures other !in owners && owners != {other}
  {
    assert pid in owners;
  }

  /** Purging a project leaves every other project's owned and shared bytes as they were. */
  lemma {:induction false} PurgeIsolates(infos: seq<Info>, gone: set<string>, pid: string, other: string)
    requires other != pid
    requires forall i :: 0 <= i < |infos| && infos[i].hash in gone ==> infos[i].owners == {pid}
    ensures OwnedBytes(Without(infos, gone), other) == OwnedBytes(infos, other)
    ensures SharedBytes(Without(infos, gone), other) == SharedBytes(infos, other)
    decreases |infos|
  {
    hide OwnedBytes, SharedBytes, Without;
    if |infos| > 0 {
      var n := |infos| - 1;
      var before, e := infos[..n], infos[n];
      assert infos == before + [e];
      PurgeIsolates(before, gone, pid, other);
      WithoutNext(before, e, gone);
      OwnedNext(before, e, other);
      SharedNext(before, e, other);
      if e.hash in gone {
        NotTheOther(e.owners, pid, other);
      } else {
        OwnedNext(Without(before, gone), e, other);
        SharedNext(Without(before, gone), e, other);
      }
    } else {
      NothingLeft(infos, gone);
    }
  }

  lemma NothingLeft(infos: seq<Info>, gone: set<string>)
    requires |infos| == 0
    ensures Without(infos, gone) == infos
  {
  }

  /** What is purged is owned by the project alone; kept outputs and entries in use stay. */
  lemma PurgeKeeps(infos: seq<Info>, pid: string, keep: set<string>, held: set<string>, e: Info)
    requires e in infos && forall i, j :: 0 <= i < j < |infos| ==> infos[i].hash != infos[j].hash
    ensures e.hash in Hashes(PurgeVictims(infos, pid, keep, held)) <==> PurgeVictim(e, pid, keep, held)
  {
    var victims := PurgeVictims(infos, pid, keep, held);
    VictimsAre(infos, pid, keep, held, e);
    if e.hash in Hashes(victims) {
      var v :| v in victims && v.hash == e.hash;
      VictimsAre(infos, pid, keep, held, v);
      var i :| 0 <= i < |infos| && infos[i] == v;
      var j :| 0 <= j < |infos| && infos[j] == e;
    }
  }

  /** A purge changes nothing for any other project, and what it keeps on request are the project's own outputs. */
  lemma PurgeLeavesOthers(infos: seq<Info>, p: Project, outputs: map<string, set<string>>, keepOutputs: bool,
                          held: set<string>, other: string)
    requires other != p.id && forall i, j :: 0 <= i < j < |infos| ==> infos[i].hash != infos[j].hash
    ensures var gone := Hashes(PurgeVictims(infos, p.id, KeptHashes(p, outputs, keepOutputs), held));
      && OwnedBytes(Without(infos, gone), other) == OwnedBytes(infos, other)
      && SharedBytes(Without(infos, gone), other) == SharedBytes(infos, other)
      && (keepOutputs ==> gone !! TerminalHashes(p, outputs))
      && gone !! held
  {
    var keep := KeptHashes(p, outputs, keepOutputs);
    var victims := PurgeVictims(infos, p.id, keep, held);
    forall i | 0 <= i < |infos| && infos[i].hash in Hashes(victims) ensures infos[i].owners == {p.id} {
      PurgeKeeps(infos, p.id, keep, held, infos[i]);
    }
    PurgeIsolates(infos, Hashes(victims), p.id, other);
    forall h | h in Hashes(victims) ensures h !in keep && h !in held {
      var v :| v in victims && v.hash == h;
      VictimsAre(infos, p.id, keep, held, v);
    }
  }

  /** No sweep takes a live job's mark away from an entry it leaves. */
  lemma SweptSparesLiveMarks(before: map<string, Dir>, after: map<string, Dir>, alive: set<string>, removed: set<string>,
                             h: string, job: string)
    requires Swept(before, after, alive, removed) && h in before && h !in removed && job in alive
    ensures h in after && (job in after[h].marks <==> job in before[h].marks)
  {
    SweptHeld(before, after, alive, removed, h);
    assert job in after[h].marks * alive <==> job in before[h].marks * alive;
  }
}
