/** The bar across the groups of a multi-dark calibration (nodes/basic/calibrate.py): each group's own 0 to 1
    is scaled into its slice of the window. */
module CalibrateProgress {

  /** Where the bar stands when `done` of `total` frames are through. */
  function Mark(lo: real, hi: real, done: nat, total: nat): real {
    lo + (hi - lo) * (done as real / (if total > 1 then total else 1) as real)
  }

  function Clamp(fraction: real): real {
    if fraction < 0.0 then 0.0 else if fraction > 1.0 then 1.0 else fraction
  }

  /** What the wrapper of one group's context shows for a fraction. */
  function Scoped(lo: real, hi: real, done: nat, size: nat, total: nat): real -> real {
    var span := hi - lo;
    var width := if total > 0 then (size as real / total as real) * span else 0.0;
    var base := if total > 0 then lo + (done as real / total as real) * span else lo;
    (fraction: real) => base + Clamp(fraction) * width
  }

  /** One group: its frames, the files Siril left, and the fractions it reported. */
  datatype GroupRun = GroupRun(size: nat, outputs: nat, fractions: seq<real>)

  function Done(groups: seq<GroupRun>): nat {
    if |groups| == 0 then 0 else Done(groups[..|groups| - 1]) + groups[|groups| - 1].outputs
  }

  function Frames(groups: seq<GroupRun>): nat {
    if |groups| == 0 then 0 else Frames(groups[..|groups| - 1]) + groups[|groups| - 1].size
  }

  function Shown(f: real -> real, fractions: seq<real>): (r: seq<real>)
    ensures |r| == |fractions| && forall i :: 0 <= i < |r| ==> r[i] == f(fractions[i])
  {
    seq(|fractions|, i requires 0 <= i < |fractions| => f(fractions[i]))
  }

  /** What the bar shows for one group. */
  function Segment(lo: real, hi: real, done: nat, g: GroupRun, total: nat): (r: seq<real>)
    ensures |r| == 1 + |g.fractions| && r[0] == Mark(lo, hi, done, total)
    ensures |g.fractions| > 0 ==>
      r[|r| - 1] == Scoped(lo, hi, done, g.size, total)(g.fractions[|g.fractions| - 1])
  {
    [Mark(lo, hi, done, total)] + Shown(Scoped(lo, hi, done, g.size, total), g.fractions)
  }

  /** Everything the bar shows while the groups run. */
  function Bar(groups: seq<GroupRun>, lo: real, hi: real, total: nat): seq<real> {
    if |groups| == 0 then [] else
    var before, g := groups[..|groups| - 1], groups[|groups| - 1];
    Bar(before, lo, hi, total) + Segment(lo, hi, Done(before), g, total)
  }

  method RunBar(groups: seq<GroupRun>, lo: real, hi: real, total: nat) returns (bar: seq<real>)
    ensures bar == Bar(groups, lo, hi, total)
  {
    hide Scoped, Shown;
    bar := [];
    var done := 0;
    for i := 0 to |groups|
      invariant bar == Bar(groups[..i], lo, hi, total) && done == Done(groups[..i])
    {
      assert groups[..i + 1][..i] == groups[..i];
      var mark := Mark(lo, hi, done, total);
      var group := Shown(Scoped(lo, hi, done, groups[i].size, total), groups[i].fractions);
      bar := bar + ([mark] + group);
      done := done + groups[i].outputs;
    }
    assert groups[..|groups|] == groups;
  }

  ghost predicate Rising(s: seq<real>) {
    forall i, j :: 0 <= i <= j < |s| ==> s[i] <= s[j]
  }

  ghost predicate AllWithin(s: seq<real>, lo: real, hi: real) {
    forall i :: 0 <= i < |s| ==> lo <= s[i] <= hi
  }

  lemma Quotients(a: nat, b: nat, t: nat)
    requires t > 0
    ensures (a + b) as real / t as real == a as real / t as real + b as real / t as real
    ensures 0.0 <= a as real / t as real
  {
    Quotient(a as real, t as real);
    Quotient(b as real, t as real);
    Quotient((a + b) as real, t as real);
    SameMultiple((a + b) as real / t as real, a as real / t as real + b as real / t as real, t as real);
    NotNegative(a as real / t as real, t as real);
  }

  lemma NotNegative(x: real, t: real)
    requires t > 0.0 && x * t >= 0.0
    ensures x >= 0.0
  {
    if x < 0.0 {
      Negative(x, t);
    }
  }

  lemma Quotient(a: real, t: real)
    requires t > 0.0
    ensures a / t * t == a
  {
  }

  lemma SameMultiple(x: real, y: real, t: real)
    requires t > 0.0 && x * t == y * t
    ensures x == y
  {
    if x < y {
      Negative(x - y, t);
    }
    if y < x {
      Negative(y - x, t);
    }
  }

  lemma Negative(x: real, t: real)
    requires x < 0.0 && t > 0.0
    ensures x * t < 0.0
  {
  }

  /** The mark as a sum, for a total that is not zero. */
  lemma MarkIs(lo: real, hi: real, done: nat, total: nat)
    requires total > 0
    ensures Mark(lo, hi, done, total) == lo + (hi - lo) * (done as real / total as real)
  {
  }

  lemma MarkStep(lo: real, hi: real, done: nat, size: nat, total: nat)
    requires total > 0
    ensures Mark(lo, hi, done + size, total) == Mark(lo, hi, done, total) + (size as real / total as real) * (hi - lo)
    ensures Mark(lo, hi, done, total) == lo + (done as real / total as real) * (hi - lo)
  {
    MarkIs(lo, hi, done, total);
    MarkIs(lo, hi, done + size, total);
    Quotients(done, size, total);
    Distribute(hi - lo, done as real / total as real, size as real / total as real);
  }

  lemma ScopedIs(lo: real, hi: real, done: nat, size: nat, total: nat, fraction: real)
    requires total > 0
    ensures Scoped(lo, hi, done, size, total)(fraction) ==
      Mark(lo, hi, done, total) + Clamp(fraction) * ((size as real / total as real) * (hi - lo))
  {
    hide Mark, Clamp;
    MarkStep(lo, hi, done, size, total);
  }

  /** A group's slice runs from its mark to the mark after its frames. */
  lemma SliceEnds(lo: real, hi: real, done: nat, size: nat, total: nat, fraction: real)
    requires lo <= hi && total > 0
    ensures var f := Scoped(lo, hi, done, size, total);
      && Mark(lo, hi, done, total) <= f(fraction) <= Mark(lo, hi, done + size, total)
      && (fraction >= 1.0 ==> f(fraction) == Mark(lo, hi, done + size, total))
  {
    var width := (size as real / total as real) * (hi - lo);
    MarkStep(lo, hi, done, size, total);
    Quotients(size, 0, total);
    Product(size as real / total as real, hi - lo);
    Part(Clamp(fraction), width);
  }

  lemma Product(x: real, y: real)
    requires x >= 0.0 && y >= 0.0
    ensures x * y >= 0.0
  {
  }

  lemma Part(c: real, width: real)
    requires 0.0 <= c <= 1.0 && width >= 0.0
    ensures 0.0 <= c * width <= width && (c == 1.0 ==> c * width == width)
  {
  }

  lemma Distribute(s: real, a: real, b: real)
    ensures s * (a + b) == s * a + b * s && s * a == a * s && s * b == b * s
  {
  }

  lemma ClampRises(x: real, y: real)
    requires x <= y
    ensures Clamp(x) <= Clamp(y)
  {
  }

  lemma ScopedRises(lo: real, hi: real, done: nat, size: nat, total: nat, x: real, y: real)
    requires lo <= hi && total > 0 && x <= y
    ensures Scoped(lo, hi, done, size, total)(x) <= Scoped(lo, hi, done, size, total)(y)
  {
    hide Mark, Scoped, Clamp;
    var share := size as real / total as real;
    Quotients(size, 0, total);
    Product(share, hi - lo);
    ScopedIs(lo, hi, done, size, total, x);
    ScopedIs(lo, hi, done, size, total, y);
    ClampRises(x, y);
    Scale(Clamp(x), Clamp(y), share * (hi - lo));
  }

  lemma Scale(a: real, b: real, width: real)
    requires a <= b && width >= 0.0
    ensures a * width <= b * width
  {
  }

  // ---------------------------------------------------------------- one group after the other

  /** The next group starts below a fraction that this group showed, exactly if it left fewer files than that
      share of its frames. */
  lemma FewerFilesGoBack(lo: real, hi: real, done: nat, g: GroupRun, total: nat, fraction: real)
    requires lo < hi && total > 0
    ensures Mark(lo, hi, done + g.outputs, total) < Scoped(lo, hi, done, g.size, total)(fraction) <==>
      g.outputs as real < Clamp(fraction) * g.size as real
  {
    hide Mark, Scoped, Clamp;
    var c, span, t := Clamp(fraction), hi - lo, total as real;
    MarkStep(lo, hi, done, g.outputs, total);
    ScopedIs(lo, hi, done, g.size, total, fraction);
    Quotient(g.outputs as real, t);
    Quotient(g.size as real, t);
    Shares(g.outputs as real / t, g.size as real / t, c, t);
    Shares(g.outputs as real / t, g.size as real / t, c, span);
  }

  /** Scaling by something positive keeps a comparison. */
  lemma Shares(x: real, y: real, c: real, t: real)
    requires t > 0.0
    ensures x < c * y <==> x * t < c * (y * t)
  {
    Swap(c, y, t);
    if x < c * y {
      Negative(x - c * y, t);
    } else {
      Scale(c * y, x, t);
    }
  }

  lemma Swap(c: real, y: real, t: real)
    ensures c * (y * t) == (c * y) * t
  {
  }

  ghost predicate OwnFractionsRise(groups: seq<GroupRun>) {
    forall i :: 0 <= i < |groups| ==> Rising(groups[i].fractions)
  }

  /** The group left at least the share of its frames that it last reported. */
  predicate KeepsItsShare(g: GroupRun) {
    |g.fractions| > 0 ==> g.outputs as real >= Clamp(g.fractions[|g.fractions| - 1]) * g.size as real
  }

  lemma JoinRises(a: seq<real>, b: seq<real>)
    requires |a| > 0 && |b| > 0 && Rising(b)
    ensures Rising(a + b) <==> Rising(a) && a[|a| - 1] <= b[0]
  {
    var ab := a + b;
    if Rising(ab) {
      assert ab[|a| - 1] <= ab[|a|];
      forall i, j | 0 <= i <= j < |a| ensures a[i] <= a[j] {
        assert ab[i] <= ab[j];
      }
    }
  }

  lemma BarEnds(groups: seq<GroupRun>, lo: real, hi: real, total: nat)
    requires |groups| > 0
    ensures var n := |groups| - 1;
      && var s := Segment(lo, hi, Done(groups[..n]), groups[n], total);
      && Bar(groups, lo, hi, total) == Bar(groups[..n], lo, hi, total) + s
      && Bar(groups, lo, hi, total)[|Bar(groups, lo, hi, total)| - 1] == s[|s| - 1]
  {
  }

  lemma SegmentRises(lo: real, hi: real, done: nat, g: GroupRun, total: nat)
    requires lo <= hi && total > 0 && Rising(g.fractions)
    ensures Rising(Segment(lo, hi, done, g, total))
  {
    hide Mark, Scoped;
    var f := Scoped(lo, hi, done, g.size, total);
    var s := Segment(lo, hi, done, g, total);
    forall i, j | 0 <= i <= j < |s| ensures s[i] <= s[j] {
      if 0 < i {
        ScopedRises(lo, hi, done, g.size, total, g.fractions[i - 1], g.fractions[j - 1]);
      } else if 0 < j {
        SliceEnds(lo, hi, done, g.size, total, g.fractions[j - 1]);
      }
    }
  }

  /** The next group's mark is not below the end of this segment exactly if the group kept its share. */
  lemma NextMark(lo: real, hi: real, done: nat, g: GroupRun, total: nat)
    requires lo < hi && total > 0
    ensures var s := Segment(lo, hi, done, g, total);
      s[|s| - 1] <= Mark(lo, hi, done + g.outputs, total) <==> KeepsItsShare(g)
  {
    hide Mark, Scoped, Clamp;
    if |g.fractions| > 0 {
      FewerFilesGoBack(lo, hi, done, g, total, g.fractions[|g.fractions| - 1]);
    } else {
      SliceEnds(lo, hi, done, g.outputs, total, 1.0);
    }
  }

  /** The bar never goes back across the groups exactly if every group but the last leaves at least the share
      of its frames that it last reported. */
  lemma {:induction false} BarRisesExactly(groups: seq<GroupRun>, lo: real, hi: real, total: nat)
    requires lo < hi && total > 0 && OwnFractionsRise(groups)
    ensures Rising(Bar(groups, lo, hi, total)) <==> forall i :: 0 <= i < |groups| - 1 ==> KeepsItsShare(groups[i])
    decreases |groups|
  {
    hide Mark, Scoped, Rising, Segment, KeepsItsShare;
    if |groups| == 0 {
      NothingRises();
    } else {
      var n := |groups| - 1;
      BarEnds(groups, lo, hi, total);
      SegmentRises(lo, hi, Done(groups[..n]), groups[n], total);
      if n > 0 {
        BarRisesExactly(groups[..n], lo, hi, total);
        BarEnds(groups[..n], lo, hi, total);
        assert groups[..n][..n - 1] == groups[..n - 1];
        NextMark(lo, hi, Done(groups[..n - 1]), groups[n - 1], total);
        JoinRises(Bar(groups[..n], lo, hi, total), Segment(lo, hi, Done(groups[..n]), groups[n], total));
        assert forall i :: 0 <= i < n ==> groups[..n][i] == groups[i];
      } else {
        assert Bar(groups[..0], lo, hi, total) == [];
        assert Bar(groups, lo, hi, total) == Segment(lo, hi, 0, groups[0], total);
      }
    }
  }

  lemma NothingRises()
    ensures Rising([])
  {
  }

  // ---------------------------------------------------------------- the window

  /** No group leaves more files than it had frames. */
  predicate NoneAdded(groups: seq<GroupRun>) {
    forall i :: 0 <= i < |groups| ==> groups[i].outputs <= groups[i].size
  }

  lemma {:induction false} DoneIsFrames(groups: seq<GroupRun>)
    requires NoneAdded(groups)
    ensures Done(groups) <= Frames(groups)
    ensures Done(groups) == Frames(groups) <==> forall i :: 0 <= i < |groups| ==> groups[i].outputs == groups[i].size
  {
    if |groups| > 0 {
      var n := |groups| - 1;
      DoneIsFrames(groups[..n]);
      assert forall i :: 0 <= i < n ==> groups[..n][i] == groups[i];
    }
  }

  lemma WindowEnds(lo: real, hi: real, done: nat, total: nat)
    requires lo <= hi && total > 0 && done <= total
    ensures lo <= Mark(lo, hi, done, total) <= hi
    ensures Mark(lo, hi, total, total) == hi && Mark(lo, hi, 0, total) == lo
  {
    MarkStart(lo, hi, total);
    Quotient(total as real, total as real);
    SameMultiple(total as real / total as real, 1.0, total as real);
    SliceEnds(lo, hi, 0, done, total, 1.0);
    SliceEnds(lo, hi, done, total - done, total, 1.0);
  }

  lemma MarkStart(lo: real, hi: real, total: nat)
    requires total > 0
    ensures Mark(lo, hi, 0, total) == lo
  {
    Quotient(0.0, total as real);
    SameMultiple(0.0 / total as real, 0.0, total as real);
  }

  lemma SegmentWithin(lo: real, hi: real, done: nat, g: GroupRun, total: nat)
    requires lo <= hi && done + g.size <= total && 0 < total
    ensures AllWithin(Segment(lo, hi, done, g, total), lo, hi)
  {
    hide Mark, Scoped;
    var s := Segment(lo, hi, done, g, total);
    WindowEnds(lo, hi, done, total);
    WindowEnds(lo, hi, done + g.size, total);
    forall i | 0 <= i < |s| ensures lo <= s[i] <= hi {
      if i > 0 {
        SliceEnds(lo, hi, done, g.size, total, g.fractions[i - 1]);
      }
    }
  }

  lemma {:induction false} WithinTotal(groups: seq<GroupRun>, lo: real, hi: real, total: nat)
    requires lo <= hi && NoneAdded(groups) && Frames(groups) <= total && 0 < total
    ensures AllWithin(Bar(groups, lo, hi, total), lo, hi)
  {
    hide Mark, Scoped, Segment;
    if |groups| > 0 {
      var n := |groups| - 1;
      WithinTotal(groups[..n], lo, hi, total);
      DoneIsFrames(groups[..n]);
      BarEnds(groups, lo, hi, total);
      SegmentWithin(lo, hi, Done(groups[..n]), groups[n], total);
    }
  }

  /** With the frames of all groups as total the bar stays in its window, and it has reached the end of the
      window exactly if every frame left a file. */
  lemma BarStaysInWindow(groups: seq<GroupRun>, lo: real, hi: real)
    requires lo < hi && NoneAdded(groups) && 0 < Frames(groups)
    ensures AllWithin(Bar(groups, lo, hi, Frames(groups)), lo, hi)
    ensures Mark(lo, hi, Done(groups), Frames(groups)) == hi <==>
      forall i :: 0 <= i < |groups| ==> groups[i].outputs == groups[i].size
  {
    hide Mark, Scoped;
    WithinTotal(groups, lo, hi, Frames(groups));
    DoneIsFrames(groups);
    WindowEnds(lo, hi, 0, Frames(groups));
    MarksDiffer(lo, hi, Done(groups), Frames(groups), Frames(groups));
  }

  lemma MarksDiffer(lo: real, hi: real, a: nat, b: nat, total: nat)
    requires lo < hi && a <= b && total > 0
    ensures a < b ==> Mark(lo, hi, a, total) < Mark(lo, hi, b, total)
  {
    if a < b {
      var g := GroupRun(b - a, 0, [1.0]);
      FewerFilesGoBack(lo, hi, a, g, total, 1.0);
      SliceEnds(lo, hi, a, b - a, total, 1.0);
    }
  }

  /** With one file per frame the bar rises through its window to its end. */
  lemma BarRises(groups: seq<GroupRun>, lo: real, hi: real)
    requires lo < hi && 0 < Frames(groups) && OwnFractionsRise(groups)
    requires forall i :: 0 <= i < |groups| ==> groups[i].outputs == groups[i].size
    ensures Rising(Bar(groups, lo, hi, Frames(groups))) && AllWithin(Bar(groups, lo, hi, Frames(groups)), lo, hi)
    ensures Mark(lo, hi, Done(groups), Frames(groups)) == hi
  {
    hide Mark, Scoped, Rising, AllWithin, Bar;
    forall i | 0 <= i < |groups| - 1 ensures KeepsItsShare(groups[i]) {
      if |groups[i].fractions| > 0 {
        Part(Clamp(groups[i].fractions[|groups[i].fractions| - 1]), groups[i].size as real);
      }
    }
    BarRisesExactly(groups, lo, hi, Frames(groups));
    BarStaysInWindow(groups, lo, hi);
  }

  // ---------------------------------------------------------------- a run on each side of the condition

  /** A hundred frames of which some do not come out, reported up to the cap of a group's handler, then one more. */
  function TwoGroups(files: nat): seq<GroupRun> {
    [GroupRun(100, files, [0.2, 0.95]), GroupRun(1, 1, [0.2, 0.95])]
  }

  /** Ninety files out of a hundred make the bar go back, ninety-five do not. */
  lemma NinetyGoBack(lo: real, hi: real)
    requires lo < hi
    ensures !Rising(Bar(TwoGroups(90), lo, hi, 101)) && Rising(Bar(TwoGroups(95), lo, hi, 101))
  {
    hide Bar;
    BarRisesExactly(TwoGroups(90), lo, hi, 101);
    BarRisesExactly(TwoGroups(95), lo, hi, 101);
    assert !KeepsItsShare(TwoGroups(90)[0]) && KeepsItsShare(TwoGroups(95)[0]);
  }
}
