/** Making room before a node writes (server/storage.py): both the disk and the cache budget bound it.
    Removing an entry gives its bytes back to the disk. */
module Headroom {
  import opened Wrappers
  import opened Sorting
  import opened CacheStore
  import opened Reachability
  import opened Accounting
  import opened Eviction

  function Max(a: int, b: int): int {
    if a < b then b else a
  }

  function Min(a: int, b: int): int {
    if a < b then a else b
  }

  /** Room for new bytes: what the disk and the budget both allow. */
  function Room(budget: int, free: nat, used: nat): int {
    Min(free, Max(0, budget - used))
  }

  /** The cache size a sweep aims for. */
  function TargetMax(need: nat, budget: int, free: nat, used: nat): int {
    var diskDeficit := Max(0, need - free);
    var budgetDeficit := Max(0, need - Max(0, budget - used));
    Max(0, Min(budget - need, used - Max(diskDeficit, budgetDeficit)))
  }

  /** With the cache shrunk to `size`, the need fits into the budget and onto the disk. */
  predicate Fits(size: int, need: nat, budget: int, free: nat, used: nat) {
    0 <= size <= used && budget - size >= need && free + (used - size) >= need
  }

  /** The target is the largest cache size that leaves room for the need, and zero if none does. */
  lemma TargetIsLargest(need: nat, budget: int, free: nat, used: nat)
    ensures (exists size :: Fits(size, need, budget, free, used)) ==> Fits(TargetMax(need, budget, free, used), need, budget, free, used)
    ensures forall size :: Fits(size, need, budget, free, used) ==> size <= TargetMax(need, budget, free, used)
    ensures (forall size :: !Fits(size, need, budget, free, used)) ==> TargetMax(need, budget, free, used) == 0
  {
    var t := TargetMax(need, budget, free, used);
    if t > 0 {
      assert Fits(t, need, budget, free, used);
    }
  }

  datatype Outcome = NoSweep | Cleaned(result: CleanupResult) | Insufficient(need: nat, free: nat, freed: nat)

  function Ensured(infos: seq<Info>, held: set<string>, need: nat, budget: int, free: nat): Outcome {
    var used := TotalBytes(infos);
    if Room(budget, free, used) >= need then NoSweep else
    var target := TargetMax(need, budget, free, used);
    var r := ResultOf(Cleanup(infos, held, target), used, target);
    if free + r.freed < need then Insufficient(need, free + r.freed, r.freed) else Cleaned(r)
  }

  method EnsureDiskHeadroom(cache: ContentCache, infos: seq<Info>, alive: set<string>, need: nat, budget: int, free: nat)
    returns (r: Outcome)
    requires Lists(infos, cache.root)
    modifies cache
    ensures r == Ensured(infos, Held(old(cache.root), alive), need, budget, free)
    ensures r.NoSweep? ==> cache.root == old(cache.root)
  {
    hide Lists, Held, Hashes, Cleanup, Swept;
    var used := 0;
    for i := 0 to |infos|
      invariant used == TotalBytes(infos[..i])
    {
      assert infos[..i + 1][..i] == infos[..i];
      used := used + infos[i].bytes;
    }
    assert infos[..|infos|] == infos;
    var budgetHeadroom := Max(0, budget - used);
    if Min(free, budgetHeadroom) >= need {
      return NoSweep;
    }
    var diskDeficit := Max(0, need - free);
    var budgetDeficit := Max(0, need - budgetHeadroom);
    var target := Max(0, Min(budget - need, used - Max(diskDeficit, budgetDeficit)));
    var result := RunCleanup(cache, infos, alive, target);
    if free + result.freed < need {
      return Insufficient(need, free + result.freed, result.freed);
    }
    return Cleaned(result);
  }

  /** The bytes that live jobs hold. */
  function HeldBytes(infos: seq<Info>, held: set<string>): nat {
    TotalBytes(HeldOnes(Sort(infos, EvictionRank), held))
  }

  /** Nothing is swept exactly when the need already fits both bounds. */
  lemma NoSweepExactly(infos: seq<Info>, held: set<string>, need: nat, budget: int, free: nat)
    requires need > 0
    ensures Ensured(infos, held, need, budget, free).NoSweep? <==> free >= need && budget - TotalBytes(infos) >= need
  {
    hide Cleanup, TotalBytes, TargetMax;
  }

  /** The sweep leaves either at most the target or exactly what is held. */
  lemma SweepLeaves(infos: seq<Info>, held: set<string>, target: int)
    ensures var left := TotalBytes(infos) - Cleanup(infos, held, target).freed;
      left >= HeldBytes(infos, held) && (left > target ==> left == HeldBytes(infos, held))
      && Cleanup(infos, held, target).freed <= TotalBytes(infos)
  {
    SweepAccounts(infos, held, target);
  }

  /** The call fails exactly when the disk cannot take the need even with everything evictable gone. */
  lemma InsufficientExactly(infos: seq<Info>, held: set<string>, need: nat, budget: int, free: nat)
    requires need > 0
    ensures Ensured(infos, held, need, budget, free).Insufficient? <==>
      free + TotalBytes(infos) - HeldBytes(infos, held) < need
  {
    hide Cleanup, TotalBytes, HeldBytes, TargetMax, EvictionRank, Sort;
    var used := TotalBytes(infos);
    var target := TargetMax(need, budget, free, used);
    SweepLeaves(infos, held, target);
    TargetIsLargest(need, budget, free, used);
    TargetZero(need, budget, free, used);
  }

  lemma TargetZero(need: nat, budget: int, free: nat, used: nat)
    ensures var t := TargetMax(need, budget, free, used); t > 0 ==> free + (used - t) >= need && budget - t >= need
    ensures TargetMax(need, budget, free, used) >= 0
  {
  }

  /** After a sweep that returns, the disk has room. The budget has room exactly when what is held leaves
      room for it: the budget is not looked at again, so a return does not promise it. */
  lemma SweptRoom(infos: seq<Info>, held: set<string>, need: nat, budget: int, free: nat)
    requires need > 0 && Ensured(infos, held, need, budget, free).Cleaned?
    ensures var r := Ensured(infos, held, need, budget, free).result;
      && free + r.freed >= need
      && (budget - r.remaining >= need <==> HeldBytes(infos, held) + need <= budget)
      && (!r.overBudget && need <= budget ==> budget - r.remaining >= need)
  {
    hide Cleanup, TotalBytes, HeldBytes, TargetMax, EvictionRank, Sort;
    var used := TotalBytes(infos);
    var target := TargetMax(need, budget, free, used);
    SweepLeaves(infos, held, target);
    TargetZero(need, budget, free, used);
  }

  lemma OneHeld(e: Info)
    ensures TotalBytes([e]) == e.bytes && HeldBytes([e], {e.hash}) == e.bytes
  {
    assert [e][..0] == [];
    assert Sort([], EvictionRank) == [];
    assert Sort([e], EvictionRank) == [e];
    assert HeldOnes([], {e.hash}) == [];
    assert HeldOnes([e], {e.hash}) == [e];
  }

  /** Ten bytes in use, a budget of five, and an empty disk: the call returns, and the budget has no room for one
      byte. */
  lemma ReturnsOverBudget(h: string)
    ensures var held := Info(h, 10, {}, Bulk, None);
      var outcome := Ensured([held], {h}, 1, 5, 100);
      outcome.Cleaned? && 5 - outcome.result.remaining < 1
  {
    hide Ensured, HeldBytes, TotalBytes;
    var infos := [Info(h, 10, {}, Bulk, None)];
    OneHeld(infos[0]);
    NoSweepExactly(infos, {h}, 1, 5, 100);
    InsufficientExactly(infos, {h}, 1, 5, 100);
    SweptRoom(infos, {h}, 1, 5, 100);
  }
}
