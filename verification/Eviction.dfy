/** Budget eviction and disk headroom (server/storage.py). */
module Eviction {
  import opened Sorting
  import opened CacheStore
  import opened Reachability
  import opened Accounting

  /** Lower goes first: orphans, then bulk before keep, then the oldest project; undated last. */
  function EvictionRank(e: Info): Rank {
    [if e.owners == {} then "0" else "1", if e.tier == Bulk then "0" else "1",
     if e.oldest.Some? then e.oldest.value else ['\U{FFFF}']]
  }

  /** A sweep under way over entries in order. */
  datatype Progress = Progress(evicted: seq<Info>, skipped: nat, freed: nat)

  function SweepNext(s: Progress, e: Info, held: set<string>, total: nat, max: int): Progress {
    if total - s.freed <= max then s
    else if e.hash in held then s.(skipped := s.skipped + 1)
    else Progress(s.evicted + [e], s.skipped, s.freed + e.bytes)
  }

  function SweepAll(ordered: seq<Info>, held: set<string>, total: nat, max: int): Progress {
    if |ordered| == 0 then Progress([], 0, 0) else
    SweepNext(SweepAll(ordered[..|ordered| - 1], held, total, max), ordered[|ordered| - 1], held, total, max)
  }

  /** The entries that no live job holds, in order. */
  function Evictable(ordered: seq<Info>, held: set<string>): seq<Info> {
    if |ordered| == 0 then [] else
    var e := ordered[|ordered| - 1];
    Evictable(ordered[..|ordered| - 1], held) + if e.hash in held then [] else [e]
  }

  // ---------------------------------------------------------------- what a sweep does

  /** The evicted entries are a beginning of the evictable ones; the last of them was still needed;
      and the sweep goes on to the end while it is over the limit. */
  ghost predicate GoodSweep(s: Progress, ordered: seq<Info>, held: set<string>, total: nat, max: int) {
    && s.evicted <= Evictable(ordered, held)
    && s.freed == TotalBytes(s.evicted)
    && (|s.evicted| > 0 ==> total - TotalBytes(s.evicted[..|s.evicted| - 1]) > max)
    && (total - s.freed > max ==> s.evicted == Evictable(ordered, held))
  }

  lemma {:induction false} SweepIsGood(ordered: seq<Info>, held: set<string>, total: nat, max: int)
    ensures GoodSweep(SweepAll(ordered, held, total, max), ordered, held, total, max)
  {
    if |ordered| > 0 {
      var n := |ordered| - 1;
      SweepIsGood(ordered[..n], held, total, max);
      SweepGoesOn(SweepAll(ordered[..n], held, total, max), ordered, n, held, total, max);
    }
  }

  lemma SweepGoesOn(s: Progress, ordered: seq<Info>, n: nat, held: set<string>, total: nat, max: int)
    requires |ordered| == n + 1 && GoodSweep(s, ordered[..n], held, total, max)
    ensures GoodSweep(SweepNext(s, ordered[n], held, total, max), ordered, held, total, max)
  {
    var e := ordered[n];
    MoreHashes(s.evicted, e);
    assert (s.evicted + [e])[..|s.evicted|] == s.evicted;
  }

  lemma {:induction false} EvictableAre(ordered: seq<Info>, held: set<string>, e: Info)
    ensures e in Evictable(ordered, held) <==> e in ordered && e.hash !in held
  {
    if |ordered| > 0 {
      var n := |ordered| - 1;
      EvictableAre(ordered[..n], held, e);
      InitAndLast(ordered, n, e);
    }
  }

  lemma InitAndLast(s: seq<Info>, n: nat, e: Info)
    requires |s| == n + 1
    ensures e in s <==> e in s[..n] || e == s[n]
  {
    assert s == s[..n] + [s[n]];
  }

  lemma TotalAppend(s: seq<Info>, t: seq<Info>)
    requires |t| <= 1
    ensures TotalBytes(s + t) == TotalBytes(s) + TotalBytes(t)
  {
    if |t| == 1 {
      assert (s + t)[..|s|] == s && t[..0] == [];
    } else {
      assert s + t == s;
    }
  }

  lemma {:induction false} EvictableTotal(ordered: seq<Info>, held: set<string>)
    ensures TotalBytes(Evictable(ordered, held)) + TotalBytes(HeldOnes(ordered, held)) == TotalBytes(ordered)
  {
    if |ordered| > 0 {
      var n := |ordered| - 1;
      var e := ordered[n];
      EvictableTotal(ordered[..n], held);
      TotalAppend(Evictable(ordered[..n], held), if e.hash in held then [] else [e]);
      TotalAppend(HeldOnes(ordered[..n], held), if e.hash in held then [e] else []);
      assert [e][..0] == [];
    }
  }

  function HeldOnes(ordered: seq<Info>, held: set<string>): seq<Info> {
    if |ordered| == 0 then [] else
    var e := ordered[|ordered| - 1];
    HeldOnes(ordered[..|ordered| - 1], held) + if e.hash in held then [e] else []
  }

  /** The bytes of a listing do not depend on its order. */
  lemma {:induction false} TotalPerm(a: seq<Info>, b: seq<Info>)
    requires multiset(a) == multiset(b)
    ensures TotalBytes(a) == TotalBytes(b)
    decreases |a|
  {
    if |a| == 0 {
      assert |multiset(b)| == 0;
    } else {
      var n := |a| - 1;
      assert a == a[..n] + [a[n]];
      assert a[n] in multiset(b);
      var j :| 0 <= j < |b| && b[j] == a[n];
      DropKeeps(b, j);
      SameRest(multiset(a[..n]), multiset(Drop(b, j)), multiset{a[n]});
      TotalPerm(a[..n], Drop(b, j));
      TotalDrop(b, j);
    }
  }

  lemma {:induction false} TotalDrop(s: seq<Info>, j: nat)
    requires j < |s|
    ensures TotalBytes(s) == TotalBytes(Drop(s, j)) + s[j].bytes
  {
    var n := |s| - 1;
    if j == n {
      assert Drop(s, j) == s[..n];
    } else {
      TotalDrop(s[..n], j);
      assert Drop(s, j)[..n - 1] == Drop(s[..n], j);
    }
  }

  // ---------------------------------------------------------------- the order of evictions

  ghost predicate InOrder(s: seq<Info>) {
    forall i, j :: 0 <= i < j < |s| ==> RankLeq(EvictionRank(s[i]), EvictionRank(s[j]))
  }

  lemma LowerStandsBefore(s: seq<Info>, i: nat, j: nat)
    requires InOrder(s) && i < |s| && j < |s| && !RankLeq(EvictionRank(s[i]), EvictionRank(s[j]))
    ensures j <= i
  {
  }

  lemma SortedInOrder(infos: seq<Info>)
    ensures InOrder(Sort(infos, EvictionRank))
  {
    var s := Sort(infos, EvictionRank);
    SortSorted(infos, EvictionRank);
    forall i, j | 0 <= i < j < |s| ensures RankLeq(EvictionRank(s[i]), EvictionRank(s[j])) {
      assert Ranks(s, EvictionRank)[i] == EvictionRank(s[i]) && Ranks(s, EvictionRank)[j] == EvictionRank(s[j]);
    }
  }

  lemma {:induction false} EvictableInOrder(ordered: seq<Info>, held: set<string>)
    requires InOrder(ordered)
    ensures InOrder(Evictable(ordered, held))
  {
    if |ordered| > 0 {
      var n := |ordered| - 1;
      var rest := Evictable(ordered[..n], held);
      EvictableInOrder(ordered[..n], held);
      forall i | 0 <= i < |rest| ensures RankLeq(EvictionRank(rest[i]), EvictionRank(ordered[n])) {
        EvictableAre(ordered[..n], held, rest[i]);
        var k :| 0 <= k < n && ordered[..n][k] == rest[i];
        assert ordered[k] == rest[i];
      }
    }
  }

  function Cleanup(infos: seq<Info>, held: set<string>, max: int): Progress {
    SweepAll(Sort(infos, EvictionRank), held, TotalBytes(infos), max)
  }

  /** An entry is evicted only after everything evictable that ranks strictly before it. */
  lemma EvictedInOrder(infos: seq<Info>, held: set<string>, max: int, x: Info, y: Info)
    requires x in Cleanup(infos, held, max).evicted
    requires y in infos && y.hash !in held && !RankLeq(EvictionRank(x), EvictionRank(y))
    ensures y in Cleanup(infos, held, max).evicted
  {
    var ordered := Sort(infos, EvictionRank);
    var evictable := Evictable(ordered, held);
    var evicted := Cleanup(infos, held, max).evicted;
    SweepIsGood(ordered, held, TotalBytes(infos), max);
    SortedInOrder(infos);
    EvictableInOrder(ordered, held);
    SortKeeps(infos, EvictionRank);
    assert y in multiset(ordered);
    EvictableAre(ordered, held, y);
    var i :| 0 <= i < |evicted| && evicted[i] == x;
    var j :| 0 <= j < |evictable| && evictable[j] == y;
    assert evictable[i] == x;
    LowerStandsBefore(evictable, i, j);
    assert evicted[j] == y;
  }

  /** So owned keep-tier data goes only after every evictable orphan and every evictable bulk entry. */
  lemma KeepGoesLast(infos: seq<Info>, held: set<string>, max: int, x: Info, y: Info)
    requires x in Cleanup(infos, held, max).evicted && x.owners != {} && x.tier == Keep
    requires y in infos && y.hash !in held && (y.owners == {} || y.tier == Bulk)
    ensures y in Cleanup(infos, held, max).evicted
  {
    var a, b := EvictionRank(x), EvictionRank(y);
    assert a[1..][0] == "1" && b[1..][0] == if y.tier == Bulk then "0" else "1";
    assert !StrLeq("1", "0");
    EvictedInOrder(infos, held, max, x, y);
  }

  /** Within one class, the entry of the least recently updated project goes first. */
  lemma OldestGoesFirst(infos: seq<Info>, held: set<string>, max: int, x: Info, y: Info)
    requires x in Cleanup(infos, held, max).evicted && y in infos && y.hash !in held
    requires (x.owners == {}) == (y.owners == {}) && x.tier == y.tier
    requires x.oldest.Some? && y.oldest.Some? && !StrLeq(x.oldest.value, y.oldest.value)
    ensures y in Cleanup(infos, held, max).evicted
  {
    var a, b := EvictionRank(x), EvictionRank(y);
    assert a[0] == b[0] && a[1..][0] == b[1..][0];
    assert a[1..][1..][0] == x.oldest.value && b[1..][1..][0] == y.oldest.value;
    StrTotal(x.oldest.value, x.oldest.value);
    assert !RankLeq(a[1..][1..], b[1..][1..]);
    assert !RankLeq(a[1..], b[1..]);
    EvictedInOrder(infos, held, max, x, y);
  }

  /** What was freed and what is left add up; over budget means that only held entries are left. */
  lemma SweepAccounts(infos: seq<Info>, held: set<string>, max: int)
    ensures var s := Cleanup(infos, held, max);
      && s.freed == TotalBytes(s.evicted) && s.freed <= TotalBytes(infos)
      && (|s.evicted| > 0 ==> TotalBytes(infos) - TotalBytes(s.evicted[..|s.evicted| - 1]) > max)
      && (TotalBytes(infos) - s.freed > max ==>
            TotalBytes(infos) - s.freed == TotalBytes(HeldOnes(Sort(infos, EvictionRank), held))
            && forall e :: e in infos && e.hash !in held ==> e in s.evicted)
      && TotalBytes(infos) - s.freed >= TotalBytes(HeldOnes(Sort(infos, EvictionRank), held))
  {
    var ordered := Sort(infos, EvictionRank);
    var s := Cleanup(infos, held, max);
    SweepIsGood(ordered, held, TotalBytes(infos), max);
    SortKeeps(infos, EvictionRank);
    TotalPerm(ordered, infos);
    EvictableTotal(ordered, held);
    PrefixTotal(s.evicted, Evictable(ordered, held));
    forall e | e in infos && e.hash !in held && s.evicted == Evictable(ordered, held) ensures e in s.evicted {
      assert e in multiset(ordered);
      EvictableAre(ordered, held, e);
    }
  }

  lemma {:induction false} PrefixTotal(a: seq<Info>, b: seq<Info>)
    requires a <= b
    ensures TotalBytes(a) <= TotalBytes(b)
    decreases |b|
  {
    if |a| < |b| {
      PrefixTotal(a, b[..|b| - 1]);
    } else {
      assert a == b;
    }
  }

  /** A sweep evicts nothing that a live job's mark was on. */
  lemma CleanupSparesHeld(infos: seq<Info>, held: set<string>, max: int)
    ensures Hashes(Cleanup(infos, held, max).evicted) !! held
  {
    var ordered := Sort(infos, EvictionRank);
    var s := Cleanup(infos, held, max);
    SweepIsGood(ordered, held, TotalBytes(infos), max);
    forall e | e in s.evicted ensures e.hash !in held {
      var i :| 0 <= i < |s.evicted| && s.evicted[i] == e;
      assert Evictable(ordered, held)[i] == e;
      EvictableAre(ordered, held, e);
    }
  }

  // ---------------------------------------------------------------- run_cleanup

  datatype CleanupResult = CleanupResult(evicted: nat, freed: nat, remaining: int, overBudget: bool, skipped: nat)

  function ResultOf(s: Progress, total: nat, max: int): CleanupResult {
    CleanupResult(|s.evicted|, s.freed, total - s.freed, total - s.freed > max, s.skipped)
  }

  lemma SweepUnfold(ordered: seq<Info>, i: nat, held: set<string>, total: nat, max: int)
    requires i < |ordered|
    ensures SweepAll(ordered[..i + 1], held, total, max) ==
            SweepNext(SweepAll(ordered[..i], held, total, max), ordered[i], held, total, max)
    ensures Hashes(ordered[..i + 1]) == Hashes(ordered[..i]) + {ordered[i].hash}
  {
    assert ordered[..i + 1][..i] == ordered[..i] && ordered[..i + 1] == ordered[..i] + [ordered[i]];
    MoreHashes(ordered[..i], ordered[i]);
  }

  lemma {:induction false} SweepStays(ordered: seq<Info>, i: nat, held: set<string>, total: nat, max: int)
    requires i <= |ordered| && total - SweepAll(ordered[..i], held, total, max).freed <= max
    ensures SweepAll(ordered, held, total, max) == SweepAll(ordered[..i], held, total, max)
    decreases |ordered| - i
  {
    if i < |ordered| {
      SweepUnfold(ordered, i, held, total, max);
      SweepStays(ordered, i + 1, held, total, max);
    } else {
      assert ordered[..i] == ordered;
    }
  }

  lemma SortedLists(infos: seq<Info>, root: map<string, Dir>)
    requires Lists(infos, root)
    ensures Lists(Sort(infos, EvictionRank), root)
  {
    var s := Sort(infos, EvictionRank);
    SortKeeps(infos, EvictionRank);
    forall i | 0 <= i < |s| ensures s[i].hash in root && root[s[i].hash].done && s[i].bytes == Bytes(root[s[i].hash]) {
      assert s[i] in multiset(infos);
    }
    SameHashes(infos, s);
    forall i, j | 0 <= i < j < |s| ensures s[i].hash != s[j].hash {
      SortedDistinct(infos, s, i, j);
    }
  }

  lemma SameHashes(a: seq<Info>, b: seq<Info>)
    requires multiset(a) == multiset(b)
    ensures Hashes(a) == Hashes(b)
  {
    forall e ensures e in a <==> e in b {
      assert (e in a <==> e in multiset(a)) && (e in b <==> e in multiset(b));
    }
  }

  lemma {:induction false} CountDistinct(infos: seq<Info>, e: Info)
    requires forall a, b :: 0 <= a < b < |infos| ==> infos[a].hash != infos[b].hash
    ensures multiset(infos)[e] <= 1 && (multiset(infos)[e] == 1 ==> e in infos)
  {
    if |infos| > 0 {
      var n := |infos| - 1;
      CountDistinct(infos[..n], e);
      assert infos == infos[..n] + [infos[n]];
    }
  }

  lemma SortedDistinct(infos: seq<Info>, s: seq<Info>, i: nat, j: nat)
    requires multiset(s) == multiset(infos) && i < j < |s|
    requires forall a, b :: 0 <= a < b < |infos| ==> infos[a].hash != infos[b].hash
    ensures s[i].hash != s[j].hash
  {
    assert s[i] in multiset(infos) && s[j] in multiset(infos);
    DropKeeps(s, i);
    CountDistinct(infos, s[i]);
    assert Drop(s, i)[j - 1] == s[j];
    assert s[j] in multiset(Drop(s, i));
  }

  /** Evicts in order until the cache fits. */
  method RunCleanup(cache: ContentCache, infos: seq<Info>, alive: set<string>, max: int) returns (r: CleanupResult)
    requires Lists(infos, cache.root)
    modifies cache
    ensures var s := Cleanup(infos, Held(old(cache.root), alive), max);
      && r == ResultOf(s, TotalBytes(infos), max)
      && Swept(old(cache.root), cache.root, alive, Hashes(s.evicted))
  {
    hide Bytes, Lists, Held, Swept, Hashes, EvictionRank, Sort;
    var total := 0;
    for i := 0 to |infos|
      invariant total == TotalBytes(infos[..i])
    {
      assert infos[..i + 1][..i] == infos[..i];
      total := total + infos[i].bytes;
    }
    assert infos[..|infos|] == infos;
    ghost var before, held := cache.root, Held(cache.root, alive);
    var ordered := Sort(infos, EvictionRank);
    NothingSwept(before, alive);
    if total <= max {
      SweepStays(ordered, 0, held, total, max);
      return CleanupResult(0, 0, total, false, 0);
    }
    SortedLists(infos, before);
    var evicted, freed, skipped := 0, 0, 0;
    ghost var s := Progress([], 0, 0);
    for i := 0 to |ordered|
      invariant s == SweepAll(ordered[..i], held, total, max)
      invariant evicted == |s.evicted| && freed == s.freed && skipped == s.skipped
      invariant Swept(before, cache.root, alive, Hashes(s.evicted))
      invariant Hashes(s.evicted) <= Hashes(ordered[..i])
    {
      if total - freed <= max {
        SweepStays(ordered, i, held, total, max);
        return CleanupResult(evicted, freed, total - freed, false, skipped);
      }
      SweepUnfold(ordered, i, held, total, max);
      ListsOnce(ordered, before, i);
      var gone, bytes := EvictUnlessHeld(cache, ordered[i], alive, before, Hashes(s.evicted));
      if gone {
        MoreHashes(s.evicted, ordered[i]);
        freed := freed + bytes;
        evicted := evicted + 1;
      } else {
        skipped := skipped + 1;
      }
      s := SweepNext(s, ordered[i], held, total, max);
    }
    assert ordered[..|ordered|] == ordered;
    return CleanupResult(evicted, freed, total - freed, total - freed > max, skipped);
  }
}
