/** Calibration with several darks (nodes/basic/calibrate.py): each light goes to its best dark, lights of one
    dark are calibrated together, and the outputs are numbered through. */
module Calibrate {
  import opened Sorting
  import opened Wrappers

  /** What the frame headers say; any of it may be missing. */
  datatype Frame = Frame(path: string, exptime: Option<real>, gain: Option<real>, temp: Option<real>)

  function Abs(x: real): real {
    if x < 0.0 then -x else x
  }

  /** Equal exposure within a millisecond, and no contradiction in gain. */
  predicate Matches(light: Frame, d: Frame) {
    && d.exptime.Some? && light.exptime.Some? && Abs(d.exptime.value - light.exptime.value) < 0.001
    && (d.gain.None? || light.gain.None? || d.gain == light.gain)
  }

  function Matching(light: Frame, pool: seq<Frame>): seq<Frame> {
    if |pool| == 0 then [] else
    var d := pool[|pool| - 1];
    Matching(light, pool[..|pool| - 1]) + if Matches(light, d) then [d] else []
  }

  /** Strictly nearer in temperature; a dark without a temperature is infinitely far. */
  predicate Nearer(temp: real, a: Frame, b: Frame) {
    a.temp.Some? && (b.temp.None? || Abs(a.temp.value - temp) < Abs(b.temp.value - temp))
  }

  /** The first of the nearest. */
  function Nearest(temp: real, same: seq<Frame>): Frame
    requires |same| > 0
  {
    if |same| == 1 then same[0] else
    var best := Nearest(temp, same[..|same| - 1]);
    if Nearer(temp, same[|same| - 1], best) then same[|same| - 1] else best
  }

  function PickDark(light: Frame, pool: seq<Frame>): Option<Frame> {
    var same := Matching(light, pool);
    if |same| == 0 then None
    else if light.temp.None? then Some(same[0])
    else Some(Nearest(light.temp.value, same))
  }

  lemma {:induction false} MatchingAre(light: Frame, pool: seq<Frame>, d: Frame)
    ensures d in Matching(light, pool) <==> d in pool && Matches(light, d)
  {
    if |pool| > 0 {
      var n := |pool| - 1;
      MatchingAre(light, pool[..n], d);
      assert pool == pool[..n] + [pool[n]];
    }
  }

  lemma {:induction false} NearestIsNearest(temp: real, same: seq<Frame>)
    requires |same| > 0
    ensures exists i :: IsFirstNearest(temp, same, i) && same[i] == Nearest(temp, same)
  {
    var n := |same| - 1;
    if n == 0 {
      assert IsFirstNearest(temp, same, 0);
    } else {
      NearestIsNearest(temp, same[..n]);
      var i :| IsFirstNearest(temp, same[..n], i) && same[..n][i] == Nearest(temp, same[..n]);
      FirstNearestNext(temp, same, n, i);
    }
  }

  /** Nobody is nearer than the one at `i`, and it is nearer than all before it. */
  predicate IsFirstNearest(temp: real, same: seq<Frame>, i: int) {
    && 0 <= i < |same|
    && (forall j :: 0 <= j < |same| ==> !Nearer(temp, same[j], same[i]))
    && (forall j :: 0 <= j < i ==> Nearer(temp, same[i], same[j]))
  }

  lemma FirstNearestNext(temp: real, same: seq<Frame>, n: nat, i: nat)
    requires |same| == n + 1 && IsFirstNearest(temp, same[..n], i)
    ensures IsFirstNearest(temp, same, if Nearer(temp, same[n], same[i]) then n else i)
  {
    assert same[..n][i] == same[i];
    forall j | 0 <= j < n ensures !Nearer(temp, same[j], same[i]) && (j < i ==> Nearer(temp, same[i], same[j])) {
      assert same[..n][j] == same[j];
    }
  }

  /** A light gets a matching dark of least temperature distance, and none exactly when nothing matches. */
  lemma PickDarkIsBest(light: Frame, pool: seq<Frame>)
    ensures PickDark(light, pool).None? <==> forall d :: d in pool ==> !Matches(light, d)
    ensures PickDark(light, pool).Some? ==>
      var d := PickDark(light, pool).value;
      && d in pool && Matches(light, d)
      && (light.temp.Some? ==> forall e :: e in pool && Matches(light, e) ==> !Nearer(light.temp.value, e, d))
  {
    var same := Matching(light, pool);
    if |same| == 0 {
      forall d | d in pool ensures !Matches(light, d) {
        MatchingAre(light, pool, d);
      }
    } else {
      var i := PickIndex(light, same);
      MatchingAre(light, pool, same[i]);
      assert same[i] in same;
      if light.temp.Some? {
        forall e | e in pool && Matches(light, e) ensures !Nearer(light.temp.value, e, same[i]) {
          MatchingAre(light, pool, e);
          var j :| 0 <= j < |same| && same[j] == e;
        }
      }
    }
  }

  /** The picked dark is one of the matching ones, and none of them is nearer. */
  lemma PickIndex(light: Frame, same: seq<Frame>) returns (i: nat)
    requires |same| > 0
    ensures i < |same| && same[i] == (if light.temp.None? then same[0] else Nearest(light.temp.value, same))
    ensures light.temp.Some? ==> forall j :: 0 <= j < |same| ==> !Nearer(light.temp.value, same[j], same[i])
  {
    i := 0;
    if light.temp.Some? {
      NearestIsNearest(light.temp.value, same);
      i :| IsFirstNearest(light.temp.value, same, i) && same[i] == Nearest(light.temp.value, same);
    }
  }

  // ---------------------------------------------------------------- when the order of the darks decides

  /** A dark that could be chosen: it matches and, if the light has a temperature, no matching dark is nearer. */
  ghost predicate Best(light: Frame, pool: seq<Frame>, d: Frame) {
    && d in pool && Matches(light, d)
    && (light.temp.Some? ==> forall e :: e in pool && Matches(light, e) ==> !Nearer(light.temp.value, e, d))
  }

  /** No two different darks could be chosen. */
  ghost predicate OneBest(light: Frame, pool: seq<Frame>) {
    forall d, e :: Best(light, pool, d) && Best(light, pool, e) ==> d == e
  }

  lemma {:induction false} FirstMatchStays(light: Frame, d: Frame, rest: seq<Frame>)
    requires Matches(light, d)
    ensures Matching(light, [d] + rest) == [d] + Matching(light, rest)
  {
    if |rest| > 0 {
      var n := |rest| - 1;
      FirstMatchStays(light, d, rest[..n]);
      assert ([d] + rest)[..n + 1] == [d] + rest[..n];
    } else {
      assert [d] + rest == [d] && [d][..0] == [];
      assert Matching(light, []) == [];
    }
  }

  /** Standing first in the list is enough for a dark that could be chosen. */
  lemma FirstBestPicked(light: Frame, d: Frame, rest: seq<Frame>)
    requires Best(light, [d] + rest, d)
    ensures PickDark(light, [d] + rest) == Some(d)
  {
    hide Matching, Matches, Nearest;
    var pool := [d] + rest;
    var same := Matching(light, pool);
    FirstMatchStays(light, d, rest);
    if light.temp.Some? {
      NearestIsNearest(light.temp.value, same);
      var i :| IsFirstNearest(light.temp.value, same, i) && same[i] == Nearest(light.temp.value, same);
      MatchingAre(light, pool, same[i]);
      assert !Nearer(light.temp.value, same[i], same[0]);
    }
  }

  lemma BestIsPicked(light: Frame, pool: seq<Frame>)
    ensures PickDark(light, pool).Some? ==> Best(light, pool, PickDark(light, pool).value)
    ensures PickDark(light, pool).None? ==> forall d :: !Best(light, pool, d)
  {
    PickDarkIsBest(light, pool);
  }

  lemma BestOfSame(light: Frame, a: seq<Frame>, b: seq<Frame>, d: Frame)
    requires multiset(a) == multiset(b) && Best(light, a, d)
    ensures Best(light, b, d)
  {
    hide Matches, Nearer;
    forall e ensures e in a <==> e in b {
      assert (e in a <==> e in multiset(a)) && (e in b <==> e in multiset(b));
    }
  }

  /** With one dark that could be chosen, every order of the list gives the same choice. */
  lemma OneBestAnyOrder(light: Frame, pool: seq<Frame>, order: seq<Frame>)
    requires OneBest(light, pool) && multiset(order) == multiset(pool)
    ensures PickDark(light, order) == PickDark(light, pool)
  {
    hide Best, PickDark;
    BestIsPicked(light, pool);
    BestIsPicked(light, order);
    if PickDark(light, order).Some? {
      BestOfSame(light, order, pool, PickDark(light, order).value);
    }
    if PickDark(light, pool).Some? {
      BestOfSame(light, pool, order, PickDark(light, pool).value);
    }
  }

  /** Any dark that could be chosen is chosen in some order of the list. */
  lemma BestFirst(light: Frame, pool: seq<Frame>, d: Frame) returns (i: nat)
    requires Best(light, pool, d)
    ensures i < |pool| && pool[i] == d
    ensures multiset([d] + Drop(pool, i)) == multiset(pool) && PickDark(light, [d] + Drop(pool, i)) == Some(d)
  {
    hide PickDark;
    i :| 0 <= i < |pool| && pool[i] == d;
    DropKeeps(pool, i);
    BestOfSame(light, pool, [d] + Drop(pool, i), d);
    FirstBestPicked(light, d, Drop(pool, i));
  }

  /** The choice does not depend on the order of the darks exactly if one dark at most could be chosen: with a
      temperature, no tie for the nearest; without one, a single match. */
  lemma TieFollowsOrder(light: Frame, pool: seq<Frame>)
    ensures (forall order :: multiset(order) == multiset(pool) ==> PickDark(light, order) == PickDark(light, pool))
      <==> OneBest(light, pool)
  {
    hide Best, PickDark, Drop;
    if OneBest(light, pool) {
      forall order | multiset(order) == multiset(pool) ensures PickDark(light, order) == PickDark(light, pool) {
        OneBestAnyOrder(light, pool, order);
      }
    } else {
      var d, e :| Best(light, pool, d) && Best(light, pool, e) && d != e;
      var i := BestFirst(light, pool, d);
      var j := BestFirst(light, pool, e);
      assert PickDark(light, [d] + Drop(pool, i)) != PickDark(light, [e] + Drop(pool, j));
    }
  }

  /** Two darks that match the lights below, five degrees on either side of nought. */
  const COLD: Frame := Frame("cold", Some(60.0), Some(100.0), Some(-5.0))
  const WARM: Frame := Frame("warm", Some(60.0), Some(100.0), Some(5.0))

  /** Two lists of the same darks from which a light gets different darks: at a temperature midway between theirs, and
      without a temperature. */
  lemma TwoOrdersTwoDarks(temp: Option<real>)
    requires temp == Some(0.0) || temp == None
    ensures multiset([COLD, WARM]) == multiset([WARM, COLD])
    ensures var light := Frame("light", Some(60.0), Some(100.0), temp);
      PickDark(light, [COLD, WARM]) == Some(COLD) && PickDark(light, [WARM, COLD]) == Some(WARM) && COLD != WARM
  {
    hide PickDark;
    var light := Frame("light", Some(60.0), Some(100.0), temp);
    assert [COLD] + [WARM] == [COLD, WARM] && [WARM] + [COLD] == [WARM, COLD];
    FirstBestPicked(light, COLD, [WARM]);
    FirstBestPicked(light, WARM, [COLD]);
  }

  // ---------------------------------------------------------------- grouping

  /** The lights that share a dark; `dark` is its path, or none for lights without a match. */
  datatype Group = Group(dark: Option<string>, frames: seq<Frame>)

  function DarkOf(light: Frame, pool: seq<Frame>): Option<string> {
    if PickDark(light, pool).Some? then Some(PickDark(light, pool).value.path) else None
  }

  /** The lights of one dark, in their order. */
  function LightsOf(lights: seq<Frame>, pool: seq<Frame>, dark: Option<string>): seq<Frame> {
    if |lights| == 0 then [] else
    var l := lights[|lights| - 1];
    LightsOf(lights[..|lights| - 1], pool, dark) + if DarkOf(l, pool) == dark then [l] else []
  }

  /** The groups partition the lights: one group per dark that is used, holding exactly its lights in order. */
  ghost predicate Partition(groups: seq<Group>, lights: seq<Frame>, pool: seq<Frame>) {
    && (forall i, j :: 0 <= i < j < |groups| ==> groups[i].dark != groups[j].dark)
    && (forall i :: 0 <= i < |groups| ==> groups[i].frames == LightsOf(lights, pool, groups[i].dark) && |groups[i].frames| > 0)
    && (forall k :: 0 <= k < |lights| ==> HasGroup(groups, DarkOf(lights[k], pool)))
  }

  predicate HasGroup(groups: seq<Group>, dark: Option<string>) {
    exists i :: 0 <= i < |groups| && groups[i].dark == dark
  }

  /** `groups` with one more light entered under its dark. */
  function Enter(groups: seq<Group>, dark: Option<string>, l: Frame): seq<Group> {
    if |groups| == 0 then [Group(dark, [l])]
    else if groups[0].dark == dark then [Group(dark, groups[0].frames + [l])] + groups[1..]
    else [groups[0]] + Enter(groups[1..], dark, l)
  }

  /** The groups in the order in which their darks are first used. */
  function Grouped(lights: seq<Frame>, pool: seq<Frame>): seq<Group> {
    if |lights| == 0 then [] else
    var l := lights[|lights| - 1];
    Enter(Grouped(lights[..|lights| - 1], pool), DarkOf(l, pool), l)
  }

  lemma {:induction false} EnterIs(groups: seq<Group>, dark: Option<string>, l: Frame)
    requires forall i, j :: 0 <= i < j < |groups| ==> groups[i].dark != groups[j].dark
    ensures Entered(groups, Enter(groups, dark, l), dark, l)
  {
    if |groups| > 0 {
      var rest := groups[1..];
      assert forall i :: 0 <= i < |rest| ==> rest[i] == groups[i + 1];
      EnterIs(rest, dark, l);
      HasGroupHead(groups, dark);
      var r := Enter(groups, dark, l);
      if HasGroup(groups, dark) {
        forall i | 0 <= i < |groups|
          ensures r[i] == if groups[i].dark == dark then Group(dark, groups[i].frames + [l]) else groups[i]
        {
          assert i > 0 ==> groups[i] == rest[i - 1];
        }
      } else {
        assert r == [groups[0]] + (rest + [Group(dark, [l])]);
      }
    }
  }

  lemma HasGroupHead(groups: seq<Group>, dark: Option<string>)
    requires |groups| > 0
    ensures HasGroup(groups, dark) <==> groups[0].dark == dark || HasGroup(groups[1..], dark)
  {
    var rest := groups[1..];
    if HasGroup(rest, dark) {
      var i :| 0 <= i < |rest| && rest[i].dark == dark;
      assert groups[i + 1].dark == dark;
    }
    if HasGroup(groups, dark) && groups[0].dark != dark {
      var i :| 0 <= i < |groups| && groups[i].dark == dark;
      assert rest[i - 1].dark == dark;
    }
  }

  method AddLight(groups: seq<Group>, dark: Option<string>, light: Frame) returns (groups': seq<Group>)
    requires forall i, j :: 0 <= i < j < |groups| ==> groups[i].dark != groups[j].dark
    ensures groups' == Enter(groups, dark, light)
  {
    EnterIs(groups, dark, light);
    for i := 0 to |groups|
      invariant forall j :: 0 <= j < i ==> groups[j].dark != dark
    {
      if groups[i].dark == dark {
        groups' := groups[i := Group(dark, groups[i].frames + [light])];
        assert HasGroup(groups, dark);
        assert groups' == Enter(groups, dark, light);
        return;
      }
    }
    groups' := groups + [Group(dark, [light])];
    assert !HasGroup(groups, dark);
  }

  lemma LightsNext(lights: seq<Frame>, pool: seq<Frame>, k: nat, dark: Option<string>)
    requires k < |lights|
    ensures LightsOf(lights[..k + 1], pool, dark) ==
      LightsOf(lights[..k], pool, dark) + if DarkOf(lights[k], pool) == dark then [lights[k]] else []
  {
    assert lights[..k + 1][..k] == lights[..k];
  }

  lemma {:induction false} NoLightsWithoutGroup(groups: seq<Group>, lights: seq<Frame>, pool: seq<Frame>, dark: Option<string>)
    requires !HasGroup(groups, dark)
    requires forall k :: 0 <= k < |lights| ==> HasGroup(groups, DarkOf(lights[k], pool))
    ensures LightsOf(lights, pool, dark) == []
  {
    if |lights| > 0 {
      NoLightsWithoutGroup(groups, lights[..|lights| - 1], pool, dark);
      assert HasGroup(groups, DarkOf(lights[|lights| - 1], pool));
    }
  }

  /** What entering a light does: its group has one more frame, or a new group stands at the end. */
  predicate Entered(groups: seq<Group>, groups': seq<Group>, dark: Option<string>, l: Frame) {
    if HasGroup(groups, dark) then
      |groups'| == |groups| && forall i :: 0 <= i < |groups| ==>
        groups'[i] == if groups[i].dark == dark then Group(dark, groups[i].frames + [l]) else groups[i]
    else groups' == groups + [Group(dark, [l])]
  }

  lemma EnteredDistinct(groups: seq<Group>, groups': seq<Group>, dark: Option<string>, l: Frame)
    requires Entered(groups, groups', dark, l)
    requires forall i, j :: 0 <= i < j < |groups| ==> groups[i].dark != groups[j].dark
    ensures forall i, j :: 0 <= i < j < |groups'| ==> groups'[i].dark != groups'[j].dark
  {
  }

  lemma EnteredFrames(groups: seq<Group>, groups': seq<Group>, lights: seq<Frame>, pool: seq<Frame>, k: nat, i: nat)
    requires k < |lights| && Partition(groups, lights[..k], pool) && i < |groups'|
    requires Entered(groups, groups', DarkOf(lights[k], pool), lights[k])
    ensures groups'[i].frames == LightsOf(lights[..k + 1], pool, groups'[i].dark) && |groups'[i].frames| > 0
  {
    hide DarkOf, LightsOf;
    var dark := DarkOf(lights[k], pool);
    LightsNext(lights, pool, k, groups'[i].dark);
    if !HasGroup(groups, dark) {
      NoLightsWithoutGroup(groups, lights[..k], pool, dark);
    }
  }

  lemma PartitionNext(groups: seq<Group>, groups': seq<Group>, lights: seq<Frame>, pool: seq<Frame>, k: nat)
    requires k < |lights| && Partition(groups, lights[..k], pool)
    requires Entered(groups, groups', DarkOf(lights[k], pool), lights[k])
    ensures Partition(groups', lights[..k + 1], pool)
  {
    hide DarkOf, LightsOf, Entered, HasGroup;
    var dark := DarkOf(lights[k], pool);
    EnteredDistinct(groups, groups', dark, lights[k]);
    forall i | 0 <= i < |groups'|
      ensures groups'[i].frames == LightsOf(lights[..k + 1], pool, groups'[i].dark) && |groups'[i].frames| > 0
    {
      EnteredFrames(groups, groups', lights, pool, k, i);
    }
    var next := lights[..k + 1];
    forall j | 0 <= j < |next| ensures HasGroup(groups', DarkOf(next[j], pool)) {
      if j < k {
        assert lights[..k][j] == lights[j];
        assert HasGroup(groups, DarkOf(lights[..k][j], pool));
      }
      GroupStays(groups, groups', DarkOf(lights[j], pool), dark, lights[k]);
    }
  }

  lemma GroupStays(groups: seq<Group>, groups': seq<Group>, d: Option<string>, dark: Option<string>, l: Frame)
    requires (HasGroup(groups, d) || d == dark) && Entered(groups, groups', dark, l)
    ensures HasGroup(groups', d)
  {
    if HasGroup(groups, d) {
      var i :| 0 <= i < |groups| && groups[i].dark == d;
      assert groups'[i].dark == d;
    } else {
      assert groups'[|groups|].dark == d;
    }
  }

  method GroupLights(lights: seq<Frame>, pool: seq<Frame>) returns (groups: seq<Group>)
    ensures groups == Grouped(lights, pool) && Partition(groups, lights, pool)
  {
    groups := [];
    for k := 0 to |lights|
      invariant groups == Grouped(lights[..k], pool) && Partition(groups, lights[..k], pool)
    {
      assert lights[..k + 1][..k] == lights[..k];
      var before := groups;
      groups := AddLight(before, DarkOf(lights[k], pool), lights[k]);
      EnterIs(before, DarkOf(lights[k], pool), lights[k]);
      PartitionNext(before, groups, lights, pool, k);
    }
    assert lights[..|lights|] == lights;
  }

  function FrameCount(groups: seq<Group>): nat {
    if |groups| == 0 then 0 else FrameCount(groups[..|groups| - 1]) + |groups[|groups| - 1].frames|
  }

  /** No light is lost or counted twice. */
  lemma {:induction false} PartitionCounts(groups: seq<Group>, lights: seq<Frame>, pool: seq<Frame>)
    requires Partition(groups, lights, pool)
    ensures FrameCount(groups) == |lights|
  {
    CountByLights(groups, lights, pool, |lights|);
    assert lights[..|lights|] == lights;
    SameCounts(groups, lights, pool, |groups|);
    assert groups[..|groups|] == groups;
  }

  function CountOf(groups: seq<Group>, lights: seq<Frame>, pool: seq<Frame>): nat {
    if |groups| == 0 then 0 else
    CountOf(groups[..|groups| - 1], lights, pool) + |LightsOf(lights, pool, groups[|groups| - 1].dark)|
  }

  lemma {:induction false} SameCounts(groups: seq<Group>, lights: seq<Frame>, pool: seq<Frame>, n: nat)
    requires Partition(groups, lights, pool) && n <= |groups|
    ensures FrameCount(groups[..n]) == CountOf(groups[..n], lights, pool)
  {
    if n > 0 {
      SameCounts(groups, lights, pool, n - 1);
      assert groups[..n][..n - 1] == groups[..n - 1];
    }
  }

  /** One more light adds one to the one group of its dark. */
  lemma {:induction false} OneMoreLight(groups: seq<Group>, lights: seq<Frame>, pool: seq<Frame>, k: nat)
    requires k < |lights| && forall i, j :: 0 <= i < j < |groups| ==> groups[i].dark != groups[j].dark
    ensures CountOf(groups, lights[..k + 1], pool) == CountOf(groups, lights[..k], pool) +
      if HasGroup(groups, DarkOf(lights[k], pool)) then 1 else 0
  {
    hide DarkOf, LightsOf;
    if |groups| > 0 {
      var n := |groups| - 1;
      OneMoreLight(groups[..n], lights, pool, k);
      LightsNext(lights, pool, k, groups[n].dark);
      LastGroup(groups, n, DarkOf(lights[k], pool));
    }
  }

  lemma LastGroup(groups: seq<Group>, n: nat, dark: Option<string>)
    requires |groups| == n + 1 && forall i, j :: 0 <= i < j < |groups| ==> groups[i].dark != groups[j].dark
    ensures HasGroup(groups, dark) <==> HasGroup(groups[..n], dark) || groups[n].dark == dark
    ensures !(HasGroup(groups[..n], dark) && groups[n].dark == dark)
  {
    if HasGroup(groups[..n], dark) {
      var i :| 0 <= i < n && groups[..n][i].dark == dark;
      assert groups[i].dark == dark;
    }
    if HasGroup(groups, dark) && groups[n].dark != dark {
      var i :| 0 <= i < |groups| && groups[i].dark == dark;
      assert groups[..n][i].dark == dark;
    }
  }

  lemma {:induction false} CountByLights(groups: seq<Group>, lights: seq<Frame>, pool: seq<Frame>, k: nat)
    requires k <= |lights| && forall i, j :: 0 <= i < j < |groups| ==> groups[i].dark != groups[j].dark
    requires forall j :: 0 <= j < |lights| ==> HasGroup(groups, DarkOf(lights[j], pool))
    ensures CountOf(groups, lights[..k], pool) == k
    decreases k
  {
    if k == 0 {
      NoneCounted(groups, lights[..0], pool);
    } else {
      CountByLights(groups, lights, pool, k - 1);
      OneMoreLight(groups, lights, pool, k - 1);
    }
  }

  lemma {:induction false} NoneCounted(groups: seq<Group>, lights: seq<Frame>, pool: seq<Frame>)
    requires lights == []
    ensures CountOf(groups, lights, pool) == 0
  {
    if |groups| > 0 {
      NoneCounted(groups[..|groups| - 1], lights, pool);
    }
  }

  // ---------------------------------------------------------------- calibrating the groups

  /** The group without a dark is left out on request. */
  function Selected(groups: seq<Group>, exclude: bool): seq<Group> {
    if |groups| == 0 then [] else
    var g := groups[|groups| - 1];
    Selected(groups[..|groups| - 1], exclude) + if exclude && g.dark.None? then [] else [g]
  }

  lemma {:induction false} SelectedCount(groups: seq<Group>, exclude: bool)
    requires forall i, j :: 0 <= i < j < |groups| ==> groups[i].dark != groups[j].dark
    ensures FrameCount(Selected(groups, exclude)) == FrameCount(groups) - (if exclude then |UnmatchedFrames(groups)| else 0)
    ensures !HasGroup(groups, None) ==> UnmatchedFrames(groups) == []
  {
    if |groups| > 0 {
      var n := |groups| - 1;
      var rest := Selected(groups[..n], exclude);
      SelectedCount(groups[..n], exclude);
      LastGroup(groups, n, None);
      assert (rest + [groups[n]])[..|rest|] == rest;
      if groups[n].dark.None? {
        assert rest + [] == rest;
      }
    }
  }

  /** The frames of the group without a dark. */
  function UnmatchedFrames(groups: seq<Group>): seq<Frame> {
    if |groups| == 0 then [] else
    if groups[|groups| - 1].dark.None? then groups[|groups| - 1].frames else UnmatchedFrames(groups[..|groups| - 1])
  }

  /** The outputs of all groups, one after the other. `outputs[i]` is what Siril left for group i. */
  function AllOutputs(outputs: seq<seq<string>>): seq<string> {
    if |outputs| == 0 then [] else AllOutputs(outputs[..|outputs| - 1]) + outputs[|outputs| - 1]
  }

  /** The sequence directory: file number to what was moved there. */
  type Numbered = map<nat, string>

  ghost predicate FilesAre(files: Numbered, content: seq<string>) {
    && (forall n :: n in files <==> 1 <= n <= |content|)
    && forall k :: 0 <= k < |content| ==> k + 1 in files && files[k + 1] == content[k]
  }

  lemma NoFiles()
    ensures FilesAre(map[], [])
  {
  }

  lemma FileAdded(files: Numbered, content: seq<string>, out: string)
    requires FilesAre(files, content)
    ensures |content| + 1 !in files && FilesAre(files[|content| + 1 := out], content + [out])
  {
    var files' := files[|content| + 1 := out];
    forall n: nat ensures n in files' <==> 1 <= n <= |content + [out]| {
      assert n in files <==> 1 <= n <= |content|;
    }
    forall k | 0 <= k < |content + [out]| ensures k + 1 in files' && files'[k + 1] == (content + [out])[k] {
      if k < |content| {
        assert k + 1 in files && files[k + 1] == content[k];
      }
    }
  }

  /** Moves the outputs of one group behind the ones that are there; no file is overwritten. */
  method Renumber(files: Numbered, done: nat, outs: seq<string>, ghost before: seq<string>) returns (files': Numbered, done': nat)
    requires FilesAre(files, before) && done == |before|
    ensures FilesAre(files', before + outs) && done' == |before + outs|
    ensures forall n :: n in files ==> n in files' && files'[n] == files[n]
  {
    files', done' := files, done;
    for k := 0 to |outs|
      invariant done' == done + k && FilesAre(files', before + outs[..k])
      invariant forall n :: n in files ==> n in files' && files'[n] == files[n]
    {
      assert before + outs[..k + 1] == (before + outs[..k]) + [outs[k]];
      FileAdded(files', before + outs[..k], outs[k]);
      files' := files'[done' + 1 := outs[k]];
      done' := done' + 1;
    }
    assert outs[..|outs|] == outs;
  }

  /** Calibrates the groups in order. `siril(g)` is what Siril leaves for a group, nothing if it failed. Refused
      when no group is left to calibrate, or when one leaves nothing. */
  method RunMulti(lights: seq<Frame>, pool: seq<Frame>, exclude: bool, siril: Group -> seq<string>)
    returns (r: Option<Numbered>)
    ensures r.None? <==>
      Selected(Grouped(lights, pool), exclude) == [] ||
      exists g :: g in Selected(Grouped(lights, pool), exclude) && siril(g) == []
    ensures r.Some? ==> FilesAre(r.value, AllOutputs(Produced(Selected(Grouped(lights, pool), exclude), siril)))
    ensures r.Some? && (forall g :: g in Selected(Grouped(lights, pool), exclude) ==> |siril(g)| == |g.frames|) ==>
      |r.value| == |lights| - (if exclude then |UnmatchedFrames(Grouped(lights, pool))| else 0)
  {
    hide LightsOf, PickDark, FilesAre, Enter;
    var groups := GroupLights(lights, pool);
    var selected := Selected(groups, exclude);
    if |selected| == 0 {
      return None;
    }
    var files: Numbered, done: nat := map[], 0;
    NoFiles();
    for i := 0 to |selected|
      invariant FilesAre(files, AllOutputs(Produced(selected[..i], siril)))
      invariant done == |AllOutputs(Produced(selected[..i], siril))|
      invariant forall j :: 0 <= j < i ==> siril(selected[j]) != []
    {
      if |siril(selected[i])| == 0 {
        assert selected[i] in selected;
        return None;
      }
      assert selected[..i + 1][..i] == selected[..i];
      ProducedNext(selected, i, siril);
      files, done := Renumber(files, done, siril(selected[i]), AllOutputs(Produced(selected[..i], siril)));
    }
    assert selected[..|selected|] == selected;
    r := Some(files);
    forall g | g in selected ensures siril(g) != [] {
      var j :| 0 <= j < |selected| && selected[j] == g;
    }
    PartitionCounts(groups, lights, pool);
    SelectedCount(groups, exclude);
    FilesCounted(files, AllOutputs(Produced(selected, siril)));
    if forall g :: g in selected ==> |siril(g)| == |g.frames| {
      OnePerInput(selected, siril);
    }
  }

  function Produced(groups: seq<Group>, siril: Group -> seq<string>): (r: seq<seq<string>>)
    ensures |r| == |groups| && forall i :: 0 <= i < |r| ==> r[i] == siril(groups[i])
  {
    seq(|groups|, i requires 0 <= i < |groups| => siril(groups[i]))
  }

  lemma ProducedNext(groups: seq<Group>, i: nat, siril: Group -> seq<string>)
    requires i < |groups|
    ensures AllOutputs(Produced(groups[..i + 1], siril)) == AllOutputs(Produced(groups[..i], siril)) + siril(groups[i])
  {
    var p := Produced(groups[..i + 1], siril);
    assert p[..i] == Produced(groups[..i], siril);
  }

  lemma {:induction false} OnePerInput(groups: seq<Group>, siril: Group -> seq<string>)
    requires forall g :: g in groups ==> |siril(g)| == |g.frames|
    ensures |AllOutputs(Produced(groups, siril))| == FrameCount(groups)
  {
    if |groups| > 0 {
      var n := |groups| - 1;
      assert groups[..n + 1] == groups && groups[n] in groups;
      assert forall g :: g in groups[..n] ==> g in groups;
      OnePerInput(groups[..n], siril);
      ProducedNext(groups, n, siril);
    }
  }

  lemma {:induction false} FilesCounted(files: Numbered, content: seq<string>)
    requires FilesAre(files, content)
    ensures |files| == |content|
    decreases |content|
  {
    if |content| == 0 {
      assert files == map[];
    } else {
      var n := |content| - 1;
      var rest := files - {n + 1};
      assert FilesAre(rest, content[..n]);
      FilesCounted(rest, content[..n]);
      assert files == rest[n + 1 := files[n + 1]];
    }
  }
}
