/** Which order of the darks a calibration sees, and whether its cache key knows it (nodes/basic/calibrate.py,
    server/job_builder.py, server/canonical.py). */
module DarkOrder {
  import opened Wrappers
  import opened Sorting
  import opened Decimals
  import opened Canonical
  import opened NodeHash
  import opened KeyMeaning
  import opened Calibrate

  /** One item of the parameter `dark_bins`. */
  datatype Bin = Bin(path: string, exptime: Option<Decimal>, gain: Option<int>, temp: Option<Decimal>)

  function RealOf(x: Dec): real {
    x.coef as real / Pow10(x.scale) as real
  }

  function FrameOf(b: Bin): Frame {
    Frame(b.path,
          if b.exptime.Some? then Some(RealOf(b.exptime.value)) else None,
          if b.gain.Some? then Some(b.gain.value as real) else None,
          if b.temp.Some? then Some(RealOf(b.temp.value)) else None)
  }

  function BinJson(b: Bin): Json {
    Dict([
      Entry("path", Str(b.path)),
      Entry("exptime", if b.exptime.Some? then Float(b.exptime.value) else Null),
      Entry("gain", if b.gain.Some? then Int(b.gain.value) else Null),
      Entry("ccd_temp", if b.temp.Some? then Float(b.temp.value) else Null)])
  }

  function BinItems(bins: seq<Bin>): (r: seq<Json>)
    ensures |r| == |bins| && forall i :: 0 <= i < |r| ==> r[i] == BinJson(bins[i])
  {
    seq(|bins|, i requires 0 <= i < |bins| => BinJson(bins[i]))
  }

  // ---------------------------------------------------------------- the pool

  /** The last item for a path, as in a dict built from the list. */
  function BinFor(bins: seq<Bin>, path: string): Option<Bin> {
    if |bins| == 0 then None
    else if bins[|bins| - 1].path == path then Some(bins[|bins| - 1])
    else BinFor(bins[..|bins| - 1], path)
  }

  /** What the parameter does not know is read from the header. */
  function DarkAt(bins: seq<Bin>, header: string -> Frame, path: string): Frame {
    if BinFor(bins, path).Some? then FrameOf(BinFor(bins, path).value) else header(path)
  }

  /** The pool follows the refs. */
  function PoolOf(refs: seq<Ref>, bins: seq<Bin>, header: string -> Frame): (r: seq<Frame>)
    ensures |r| == |refs| && forall i :: 0 <= i < |r| ==> r[i] == DarkAt(bins, header, refs[i].path)
  {
    seq(|refs|, i requires 0 <= i < |refs| => DarkAt(bins, header, refs[i].path))
  }

  method BuildDarkPool(refs: seq<Ref>, bins: seq<Bin>, header: string -> Frame) returns (pool: seq<Frame>)
    ensures pool == PoolOf(refs, bins, header)
  {
    var byPath: map<string, Bin> := map[];
    for k := 0 to |bins|
      invariant forall p :: p in byPath <==> BinFor(bins[..k], p).Some?
      invariant forall p :: p in byPath ==> BinFor(bins[..k], p) == Some(byPath[p])
    {
      assert bins[..k + 1][..k] == bins[..k];
      byPath := byPath[bins[k].path := bins[k]];
    }
    assert bins[..|bins|] == bins;
    pool := [];
    for i := 0 to |refs|
      invariant |pool| == i && forall j :: 0 <= j < i ==> pool[j] == PoolOf(refs, bins, header)[j]
    {
      pool := pool + [if refs[i].path in byPath then FrameOf(byPath[refs[i].path]) else header(refs[i].path)];
    }
  }

  // ---------------------------------------------------------------- a list of refs only

  /** Without metadata the key has one text for all orders of the refs, and the choice is the same for all of
      them exactly if one dark at most could be chosen. */
  lemma RefsForgetOrder(light: Frame, refs: seq<Ref>, header: string -> Frame)
    requires CleanRefs(refs)
    ensures forall order :: multiset(order) == multiset(refs) ==> ValueText(Many(order)) == ValueText(Many(refs))
    ensures (forall order :: multiset(order) == multiset(refs) ==>
              PickDark(light, PoolOf(order, [], header)) == PickDark(light, PoolOf(refs, [], header)))
      <==> OneBest(light, PoolOf(refs, [], header))
  {
    hide PickDark, Best, OneBest, ValueText, CleanRefs, PoolOf;
    forall order | multiset(order) == multiset(refs) ensures ValueText(Many(order)) == ValueText(Many(refs)) {
      OrderForgotten(order, refs);
    }
    var pool := PoolOf(refs, [], header);
    if OneBest(light, pool) {
      forall order | multiset(order) == multiset(refs)
        ensures PickDark(light, PoolOf(order, [], header)) == PickDark(light, pool)
      {
        PoolPerm(order, refs, header);
        OneBestAnyOrder(light, pool, PoolOf(order, [], header));
      }
    } else {
      var d, e := TwoBest(light, pool);
      var a := RefFirst(light, refs, header, d);
      var b := RefFirst(light, refs, header, e);
      assert PickDark(light, PoolOf(a, [], header)) != PickDark(light, PoolOf(b, [], header));
    }
  }

  lemma TwoBest(light: Frame, pool: seq<Frame>) returns (d: Frame, e: Frame)
    requires !OneBest(light, pool)
    ensures Best(light, pool, d) && Best(light, pool, e) && d != e
  {
    hide Best;
    d, e :| Best(light, pool, d) && Best(light, pool, e) && d != e;
  }

  lemma OrderForgotten(a: seq<Ref>, b: seq<Ref>)
    requires multiset(a) == multiset(b) && CleanRefs(b)
    ensures ValueText(Many(a)) == ValueText(Many(b))
  {
    hide ValueText;
    forall i | 0 <= i < |a| ensures CleanRef(a[i]) {
      assert a[i] in multiset(b);
    }
    RefKeysPerm(a, b);
    ListUnique(a, b);
  }

  lemma PoolDrop(refs: seq<Ref>, header: string -> Frame, j: nat)
    requires j < |refs|
    ensures PoolOf(Drop(refs, j), [], header) == Drop(PoolOf(refs, [], header), j)
  {
    hide Drop;
    var a, b := PoolOf(Drop(refs, j), [], header), Drop(PoolOf(refs, [], header), j);
    forall i | 0 <= i < |a| ensures a[i] == b[i] {
      DropAt(refs, j, i);
      DropAt(PoolOf(refs, [], header), j, i);
    }
  }

  lemma {:induction false} PoolPerm(a: seq<Ref>, b: seq<Ref>, header: string -> Frame)
    requires multiset(a) == multiset(b)
    ensures multiset(PoolOf(a, [], header)) == multiset(PoolOf(b, [], header))
    decreases |a|
  {
    hide Drop, PoolOf;
    if |a| == 0 {
      assert |multiset(b)| == 0;
    } else {
      assert a[0] in multiset(b);
      var j :| 0 <= j < |b| && b[j] == a[0];
      DropKeeps(a, 0);
      DropKeeps(b, j);
      SameRest(multiset(Drop(a, 0)), multiset(Drop(b, j)), multiset{a[0]});
      PoolPerm(Drop(a, 0), Drop(b, j), header);
      PoolDrop(a, header, 0);
      PoolDrop(b, header, j);
      DropKeeps(PoolOf(a, [], header), 0);
      DropKeeps(PoolOf(b, [], header), j);
    }
  }

  /** The refs with the one of a dark that could be chosen in front. */
  lemma RefFirst(light: Frame, refs: seq<Ref>, header: string -> Frame, d: Frame) returns (order: seq<Ref>)
    requires Best(light, PoolOf(refs, [], header), d)
    ensures multiset(order) == multiset(refs) && PickDark(light, PoolOf(order, [], header)) == Some(d)
  {
    hide PickDark, Drop;
    var i := BestFirst(light, PoolOf(refs, [], header), d);
    order := [refs[i]] + Drop(refs, i);
    DropKeeps(refs, i);
    PoolDrop(refs, header, i);
    assert PoolOf(order, [], header) == [d] + PoolOf(Drop(refs, i), [], header);
  }

  // ---------------------------------------------------------------- refs with metadata

  /** What the job builder hands over: one item per dark, in the order of the refs. */
  predicate LinedUp(refs: seq<Ref>, bins: seq<Bin>) {
    && |refs| == |bins|
    && (forall i :: 0 <= i < |bins| ==> refs[i].path == bins[i].path)
    && forall i, j :: 0 <= i < j < |bins| ==> bins[i].path != bins[j].path
  }

  lemma {:induction false} BinFound(bins: seq<Bin>, i: nat)
    requires i < |bins| && forall j, k :: 0 <= j < k < |bins| ==> bins[j].path != bins[k].path
    ensures BinFor(bins, bins[i].path) == Some(bins[i])
  {
    if i < |bins| - 1 {
      BinFound(bins[..|bins| - 1], i);
    }
  }

  /** The pool of such a job is what the parameter lists. */
  lemma JobPool(refs: seq<Ref>, bins: seq<Bin>, header: string -> Frame)
    requires LinedUp(refs, bins)
    ensures forall i :: 0 <= i < |bins| ==> PoolOf(refs, bins, header)[i] == FrameOf(bins[i])
  {
    forall i | 0 <= i < |bins| ensures PoolOf(refs, bins, header)[i] == FrameOf(bins[i]) {
      BinFound(bins, i);
    }
  }

  lemma BinsWellFormed(bins: seq<Bin>)
    ensures WellFormed(List(BinItems(bins)))
  {
    forall i | 0 <= i < |bins| ensures WellFormed(BinJson(bins[i])) {
      assert Unique(BinJson(bins[i]).fields);
    }
  }

  lemma SamePath(a: Bin, b: Bin, prec: Precisions)
    requires Equiv(BinJson(a), BinJson(b), None, prec)
    ensures a.path == b.path
  {
    hide Round;
    var x, y := BinJson(a).fields, BinJson(b).fields;
    assert x[0] == Entry("path", Str(a.path)) && Get(y, "path") == Str(b.path);
    assert Equiv(x[0].value, Get(y, x[0].key), Some("path"), prec);
  }

  /** With metadata the key knows the order: it lists the darks one by one in the order of the refs. */
  lemma BinsTellOrder(a: seq<Bin>, b: seq<Bin>, prec: Precisions)
    requires Canon(List(BinItems(a)), Some("dark_bins"), prec) == Canon(List(BinItems(b)), Some("dark_bins"), prec)
    ensures |a| == |b| && forall i :: 0 <= i < |a| ==> a[i].path == b[i].path
  {
    hide BinJson, WellFormed, Canon;
    BinsWellFormed(a);
    BinsWellFormed(b);
    CanonExact(List(BinItems(a)), List(BinItems(b)), Some("dark_bins"), prec);
    forall i | 0 <= i < |a| ensures a[i].path == b[i].path {
      SamePath(a[i], b[i], prec);
    }
  }

  lemma SameBins(a: seq<Bin>, b: seq<Bin>, i: nat)
    requires multiset(a) == multiset(b) && i < |a| && |a| == |b| && a[i].path == b[i].path
    requires forall j, k :: 0 <= j < k < |b| ==> b[j].path != b[k].path
    ensures a[i] == b[i]
  {
    assert a[i] in multiset(b);
    var j :| 0 <= j < |b| && b[j] == a[i];
  }

  /** Two jobs of the job builder over the same darks: equal `dark_bins` in the key exactly if the darks stand in
      the same order, and then every light gets the same dark. */
  lemma BinsFixDark(light: Frame, refs: seq<Ref>, bins: seq<Bin>, refs': seq<Ref>, bins': seq<Bin>,
                    prec: Precisions, header: string -> Frame)
    requires LinedUp(refs, bins) && LinedUp(refs', bins') && multiset(bins) == multiset(bins')
    ensures Canon(List(BinItems(bins)), Some("dark_bins"), prec) == Canon(List(BinItems(bins')), Some("dark_bins"), prec)
      <==> bins == bins'
    ensures bins == bins' ==> PickDark(light, PoolOf(refs, bins, header)) == PickDark(light, PoolOf(refs', bins', header))
  {
    hide Canon, PickDark;
    if Canon(List(BinItems(bins)), Some("dark_bins"), prec) == Canon(List(BinItems(bins')), Some("dark_bins"), prec) {
      BinsTellOrder(bins, bins', prec);
      forall i | 0 <= i < |bins| ensures bins[i] == bins'[i] {
        SameBins(bins, bins', i);
      }
    }
    if bins == bins' {
      JobPool(refs, bins, header);
      JobPool(refs', bins', header);
      assert PoolOf(refs, bins, header) == PoolOf(refs', bins', header);
    }
  }
}
