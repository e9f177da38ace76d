/** Python's `str.strip`. */
module Strings {

  /** White space as `str.isspace` has it. */
  predicate IsSpace(c: char) {
    || '\t' <= c <= '\r' || '\U{1C}' <= c <= '\U{20}' || c == '\U{85}' || c == '\U{A0}' || c == '\U{1680}'
    || '\U{2000}' <= c <= '\U{200A}' || '\U{2028}' <= c <= '\U{2029}' || c == '\U{202F}' || c == '\U{205F}' || c == '\U{3000}'
  }

  predicate Blank(s: string) {
    forall c :: c in s ==> IsSpace(c)
  }

  function Strip(s: string): string {
    if |s| > 0 && IsSpace(s[0]) then Strip(s[1..])
    else if |s| > 0 && IsSpace(s[|s| - 1]) then Strip(s[..|s| - 1])
    else s
  }

  /** `r` is `s` without the white space around it. */
  ghost predicate Trims(s: string, r: string) {
    && (exists a, b :: Blank(a) && Blank(b) && s == a + r + b)
    && (r != "" ==> !IsSpace(r[0]) && !IsSpace(r[|r| - 1]))
  }

  lemma TrimsLeft(c: char, s: string, r: string)
    requires Trims(s, r) && IsSpace(c)
    ensures Trims([c] + s, r)
  {
    hide IsSpace;
    var a, b :| Blank(a) && Blank(b) && s == a + r + b;
    assert Blank([c] + a) && [c] + s == ([c] + a) + r + b;
  }

  lemma TrimsRight(s: string, c: char, r: string)
    requires Trims(s, r) && IsSpace(c)
    ensures Trims(s + [c], r)
  {
    hide IsSpace;
    var a, b :| Blank(a) && Blank(b) && s == a + r + b;
    assert Blank(b + [c]) && s + [c] == a + r + (b + [c]);
  }

  lemma TrimsNothing(s: string)
    requires s != "" ==> !IsSpace(s[0]) && !IsSpace(s[|s| - 1])
    ensures Trims(s, s)
  {
    assert Blank("") && s == "" + s + "";
  }

  lemma {:induction false} StripTrims(s: string)
    ensures Trims(s, Strip(s))
    decreases |s|
  {
    hide IsSpace, Trims;
    if |s| > 0 && IsSpace(s[0]) {
      StripTrims(s[1..]);
      TrimsLeft(s[0], s[1..], Strip(s));
      assert s == [s[0]] + s[1..];
    } else if |s| > 0 && IsSpace(s[|s| - 1]) {
      var n := |s| - 1;
      StripTrims(s[..n]);
      TrimsRight(s[..n], s[n], Strip(s));
      assert s == s[..n] + [s[n]];
    } else {
      TrimsNothing(s);
    }
  }

  /** Nothing is left exactly of a blank text. */
  lemma StripEmpty(s: string)
    ensures Strip(s) == "" <==> Blank(s)
  {
    hide IsSpace, Strip;
    StripTrims(s);
    var a, b :| Blank(a) && Blank(b) && s == a + Strip(s) + b;
    assert forall i :: 0 <= i < |Strip(s)| ==> s[|a| + i] == Strip(s)[i];
  }
}
