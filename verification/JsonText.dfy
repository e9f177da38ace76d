/** The JSON text of canonical values, as the cache key digests it: compact separators, no escapes
    beyond the mandatory ones, no NaN. The text can be read back in one way only. */
module JsonText {
  import opened Wrappers
  import opened Sorting
  import opened Decimals
  import opened Canonical

  function Hex(d: nat): char
    requires d < 16
  {
    if d < 10 then ('0' as int + d) as char else ('a' as int + d - 10) as char
  }

  function EscapeChar(c: char): (s: string)
    ensures |s| > 0 && s[0] != '"'
  {
    if c == '"' then ['\\', '"']
    else if c == '\\' then ['\\', '\\']
    else if c == '\n' then ['\\', 'n']
    else if c == '\r' then ['\\', 'r']
    else if c == '\t' then ['\\', 't']
    else if c as int == 8 then ['\\', 'b']
    else if c as int == 12 then ['\\', 'f']
    else if c as int < 32 then ['\\', 'u', '0', '0', Hex(c as int / 16), Hex(c as int % 16)]
    else [c]
  }

  /** What follows an opening quote. */
  function Quoted(s: string): string {
    if |s| == 0 then "\"" else EscapeChar(s[0]) + Quoted(s[1..])
  }

  function Text(v: Json): string
    decreases v
  {
    match v
    case Null => "null"
    case Bool(b) => if b then "true" else "false"
    case Int(i) => IntText(i)
    case Float(x) => FloatText(x)
    case NegZero => "-0.0"
    case NonFinite(kind) => kind
    case Str(s) => "\"" + Quoted(s)
    case List(items) => "[" + ItemsText(items)
    case Dict(fields) => "{" + FieldsText(fields)
  }

  /** What follows an opening bracket. */
  function ItemsText(items: seq<Json>): string
    decreases items
  {
    if |items| == 0 then "]" else Text(items[0]) + MoreItems(items)
  }

  function MoreItems(items: seq<Json>): string
    requires |items| > 0
    decreases items, 0
  {
    if |items| == 1 then "]" else "," + ItemsText(items[1..])
  }

  /** What follows an opening brace. */
  function FieldsText(fields: seq<Entry<Json>>): string
    decreases fields
  {
    if |fields| == 0 then "}" else
    assert fields[0] in fields;
    "\"" + (Quoted(fields[0].key) + (":" + (Text(fields[0].value) + MoreFields(fields))))
  }

  function MoreFields(fields: seq<Entry<Json>>): string
    requires |fields| > 0
    decreases fields, 0
  {
    if |fields| == 1 then "}" else "," + FieldsText(fields[1..])
  }

  /** No float that JSON cannot express. */
  predicate Printable(v: Json)
    decreases v
  {
    match v
    case NegZero => false
    case NonFinite(_) => false
    case List(items) => forall i :: 0 <= i < |items| ==> Printable(items[i])
    case Dict(fields) => forall i :: 0 <= i < |fields| ==> Printable(fields[i].value)
    case _ => true
  }

  /** The text, or the encoder's refusal. */
  function CanonicalText(v: Json, prec: Precisions): Result<string, string> {
    var c := Canon(v, None, prec);
    if Printable(c) then Ok(Text(c)) else Err("Out of range float values are not JSON compliant")
  }

  // ---------------------------------------------------------------- reading strings back

  lemma Cut(p: string, r: string, t: string)
    requires p + r == p + t
    ensures r == t
  {
    assert (p + r)[|p|..] == r;
    assert (p + t)[|p|..] == t;
  }

  lemma Assoc(a: string, b: string, c: string)
    ensures (a + b) + c == a + (b + c)
  {
  }

  /** A common beginning cut from texts that go on. */
  lemma CutIn(p: string, x: string, y: string, r: string, t: string)
    requires (p + x) + r == (p + y) + t
    ensures x + r == y + t
  {
    Assoc(p, x, r);
    Assoc(p, y, t);
    Cut(p, x + r, y + t);
  }

  lemma SameLengthCut(p: string, q: string, r: string, t: string)
    requires p + r == q + t && |p| == |q|
    ensures p == q && r == t
  {
    assert (p + r)[..|p|] == p;
    assert (q + t)[..|q|] == q;
    Cut(p, r, t);
  }

  lemma HexInjective(a: nat, b: nat)
    requires a < 16 && b < 16 && Hex(a) == Hex(b)
    ensures a == b
  {
  }

  /** The first two characters of an escape tell its length. */
  lemma EscapeLength(c: char, d: char, r: string, t: string)
    requires EscapeChar(c) + r == EscapeChar(d) + t
    ensures |EscapeChar(c)| == |EscapeChar(d)|
  {
    var x, y := EscapeChar(c), EscapeChar(d);
    assert (x + r)[0] == x[0] && (y + t)[0] == y[0];
    if |x| > 1 && |y| > 1 {
      assert (x + r)[1] == x[1] && (y + t)[1] == y[1];
    }
  }

  lemma EscapeUnique(c: char, d: char, r: string, t: string)
    requires EscapeChar(c) + r == EscapeChar(d) + t
    ensures c == d && r == t
  {
    EscapeLength(c, d, r, t);
    SameLengthCut(EscapeChar(c), EscapeChar(d), r, t);
    EscapeInjective(c, d);
  }

  lemma EscapeInjective(c: char, d: char)
    requires EscapeChar(c) == EscapeChar(d)
    ensures c == d
  {
    var x, y := EscapeChar(c), EscapeChar(d);
    assert x[0] == y[0];
    if |x| > 1 {
      assert x[1] == y[1];
    }
    if |x| == 6 {
      HexInjective(c as int / 16, d as int / 16);
      HexInjective(c as int % 16, d as int % 16);
    }
  }

  lemma {:induction false} QuotedUnique(a: string, b: string, r: string, t: string)
    requires Quoted(a) + r == Quoted(b) + t
    ensures a == b && r == t
  {
    hide EscapeChar;
    if |a| == 0 || |b| == 0 {
      assert (Quoted(a) + r)[0] == Quoted(a)[0] && (Quoted(b) + t)[0] == Quoted(b)[0];
      if |a| == 0 && |b| == 0 {
        Cut("\"", r, t);
      }
    } else {
      Assoc(EscapeChar(a[0]), Quoted(a[1..]), r);
      Assoc(EscapeChar(b[0]), Quoted(b[1..]), t);
      EscapeUnique(a[0], b[0], Quoted(a[1..]) + r, Quoted(b[1..]) + t);
      QuotedUnique(a[1..], b[1..], r, t);
      assert a == [a[0]] + a[1..] && b == [b[0]] + b[1..];
    }
  }

  // ---------------------------------------------------------------- reading numbers back

  /** Nothing follows, or something that cannot continue a number. */
  predicate Delimited(r: string) {
    r == [] || !NumChar(r[0])
  }

  lemma SpanUnique(a: string, b: string, r: string, t: string)
    requires Numeric(a) && Numeric(b) && Delimited(r) && Delimited(t) && a + r == b + t
    ensures a == b && r == t
  {
    if |a| < |b| {
      ShorterDiffers(a, b, r, t);
    }
    if |b| < |a| {
      ShorterDiffers(b, a, t, r);
    }
    SameLengthCut(a, b, r, t);
  }

  lemma ShorterDiffers(a: string, b: string, r: string, t: string)
    requires Numeric(b) && Delimited(r) && |a| < |b|
    ensures a + r != b + t
  {
    if r != [] {
      assert (a + r)[|a|] == r[0] && (b + t)[|a|] == b[|a|];
      assert b[|a|] in b;
    }
  }

  predicate IsNumber(v: Json) {
    v.Int? || v.Float?
  }

  lemma NumberText(v: Json)
    requires IsNumber(v)
    ensures Numeric(Text(v)) && (LooksFloat(Text(v)) <==> v.Float?)
  {
    match v
    case Int(i) => IntIsNumeric(i);
    case Float(x) => FloatIsNumeric(x);
  }

  lemma NumberUnique(a: Json, b: Json, r: string, t: string)
    requires IsNumber(a) && IsNumber(b) && Delimited(r) && Delimited(t) && Text(a) + r == Text(b) + t
    ensures a == b && r == t
  {
    NumberText(a);
    NumberText(b);
    SpanUnique(Text(a), Text(b), r, t);
    if a.Int? {
      ReadIntText(a.i);
      ReadIntText(b.i);
    } else {
      ReadFloatText(a.x);
      ReadFloatText(b.x);
    }
  }

  // ---------------------------------------------------------------- reading values back

  /** The first character tells what kind of value follows. */
  lemma FirstChar(v: Json)
    requires Printable(v)
    ensures |Text(v)| > 0
    ensures var c := Text(v)[0];
      && (IsNumber(v) <==> NumChar(c)) && (v.Null? <==> c == 'n')
      && (v.Bool? && v.b <==> c == 't') && (v.Bool? && !v.b <==> c == 'f')
      && (v.Str? <==> c == '"') && (v.List? <==> c == '[') && (v.Dict? <==> c == '{')
      && c != ']' && c != '}'
  {
    if IsNumber(v) {
      NumberText(v);
      assert Text(v)[0] in Text(v);
    }
  }

  lemma SameKind(a: Json, b: Json, r: string, t: string)
    requires Printable(a) && Printable(b) && Text(a) + r == Text(b) + t
    ensures Text(a) != [] && Text(b) != [] && Text(a)[0] == Text(b)[0]
  {
    FirstChar(a);
    FirstChar(b);
    assert (Text(a) + r)[0] == Text(a)[0] && (Text(b) + t)[0] == Text(b)[0];
  }

  lemma MoreIsDelimited(items: seq<Json>, fields: seq<Entry<Json>>, r: string)
    ensures |items| > 0 ==> Delimited(MoreItems(items) + r)
    ensures |fields| > 0 ==> Delimited(MoreFields(fields) + r)
  {
  }

  /** The text of a value, followed by anything that cannot be part of it, determines the value. */
  lemma {:induction false} TextUnique(a: Json, b: Json, r: string, t: string)
    requires Printable(a) && Printable(b) && Delimited(r) && Delimited(t) && Text(a) + r == Text(b) + t
    ensures a == b && r == t
    decreases a, 0, 2
  {
    hide NumChar, Numeric, Quoted, ItemsText, FieldsText, IntText, FloatText, Delimited;
    SameKind(a, b, r, t);
    FirstChar(a);
    FirstChar(b);
    match a
    case Null => Cut("null", r, t);
    case Bool(x) => Cut(Text(a), r, t);
    case Int(_) => NumberUnique(a, b, r, t);
    case Float(_) => NumberUnique(a, b, r, t);
    case Str(s) =>
      CutIn("\"", Quoted(s), Quoted(b.s), r, t);
      QuotedUnique(s, b.s, r, t);
    case List(items) =>
      CutIn("[", ItemsText(items), ItemsText(b.items), r, t);
      ItemsUnique(items, b.items, r, t);
    case Dict(fields) =>
      CutIn("{", FieldsText(fields), FieldsText(b.fields), r, t);
      FieldsUnique(fields, b.fields, r, t);
  }

  predicate AllPrintable(items: seq<Json>) {
    forall i :: 0 <= i < |items| ==> Printable(items[i])
  }

  predicate FieldsPrintable(fields: seq<Entry<Json>>) {
    forall i :: 0 <= i < |fields| ==> Printable(fields[i].value)
  }

  lemma FirstOfItems(items: seq<Json>, r: string)
    requires AllPrintable(items)
    ensures ItemsText(items) != [] && (ItemsText(items)[0] == ']' <==> |items| == 0)
    ensures |items| > 0 ==> ItemsText(items) + r == Text(items[0]) + (MoreItems(items) + r)
  {
    hide NumChar, Numeric;
    if |items| > 0 {
      FirstChar(items[0]);
      Assoc(Text(items[0]), MoreItems(items), r);
    }
  }

  lemma {:induction false} ItemsUnique(a: seq<Json>, b: seq<Json>, r: string, t: string)
    requires AllPrintable(a) && AllPrintable(b) && ItemsText(a) + r == ItemsText(b) + t
    ensures a == b && r == t
    decreases a, 1
  {
    FirstOfItems(a, r);
    FirstOfItems(b, t);
    assert (ItemsText(a) + r)[0] == ItemsText(a)[0] && (ItemsText(b) + t)[0] == ItemsText(b)[0];
    if |a| == 0 {
      Cut("]", r, t);
    } else {
      MoreIsDelimited(a, [], r);
      MoreIsDelimited(b, [], t);
      TextUnique(a[0], b[0], MoreItems(a) + r, MoreItems(b) + t);
      MoreItemsUnique(a, b, r, t);
      assert a == [a[0]] + a[1..] && b == [b[0]] + b[1..];
    }
  }

  lemma {:induction false} MoreItemsUnique(a: seq<Json>, b: seq<Json>, r: string, t: string)
    requires |a| > 0 && |b| > 0
    requires AllPrintable(a) && AllPrintable(b) && MoreItems(a) + r == MoreItems(b) + t
    ensures a[1..] == b[1..] && r == t
    decreases a, 0
  {
    assert (MoreItems(a) + r)[0] == MoreItems(a)[0] && (MoreItems(b) + t)[0] == MoreItems(b)[0];
    if |a| == 1 {
      Cut("]", r, t);
    } else {
      CutIn(",", ItemsText(a[1..]), ItemsText(b[1..]), r, t);
      ItemsUnique(a[1..], b[1..], r, t);
    }
  }

  lemma FirstOfFields(fields: seq<Entry<Json>>, r: string)
    ensures FieldsText(fields) != [] && (FieldsText(fields)[0] == '}' <==> |fields| == 0)
    ensures |fields| > 0 ==>
      FieldsText(fields) + r == "\"" + (Quoted(fields[0].key) + (":" + (Text(fields[0].value) + (MoreFields(fields) + r))))
  {
    hide Quoted, Text, MoreFields;
    if |fields| > 0 {
      var k, v, m := Quoted(fields[0].key), Text(fields[0].value), MoreFields(fields);
      Assoc("\"", k + (":" + (v + m)), r);
      Assoc(k, ":" + (v + m), r);
      Assoc(":", v + m, r);
      Assoc(v, m, r);
    }
  }

  lemma {:induction false} FieldsUnique(a: seq<Entry<Json>>, b: seq<Entry<Json>>, r: string, t: string)
    requires FieldsPrintable(a) && FieldsPrintable(b) && FieldsText(a) + r == FieldsText(b) + t
    ensures a == b && r == t
    decreases a, 1
  {
    FirstOfFields(a, r);
    FirstOfFields(b, t);
    assert (FieldsText(a) + r)[0] == FieldsText(a)[0] && (FieldsText(b) + t)[0] == FieldsText(b)[0];
    if |a| == 0 {
      Cut("}", r, t);
    } else {
      var x, y := Text(a[0].value) + (MoreFields(a) + r), Text(b[0].value) + (MoreFields(b) + t);
      Cut("\"", Quoted(a[0].key) + (":" + x), Quoted(b[0].key) + (":" + y));
      QuotedUnique(a[0].key, b[0].key, ":" + x, ":" + y);
      Cut(":", x, y);
      MoreIsDelimited([], a, r);
      MoreIsDelimited([], b, t);
      assert a[0] in a;
      TextUnique(a[0].value, b[0].value, MoreFields(a) + r, MoreFields(b) + t);
      MoreFieldsUnique(a, b, r, t);
      assert a == [a[0]] + a[1..] && b == [b[0]] + b[1..];
    }
  }

  lemma {:induction false} MoreFieldsUnique(a: seq<Entry<Json>>, b: seq<Entry<Json>>, r: string, t: string)
    requires |a| > 0 && |b| > 0
    requires FieldsPrintable(a) && FieldsPrintable(b) && MoreFields(a) + r == MoreFields(b) + t
    ensures a[1..] == b[1..] && r == t
    decreases a, 0
  {
    assert (MoreFields(a) + r)[0] == MoreFields(a)[0] && (MoreFields(b) + t)[0] == MoreFields(b)[0];
    if |a| == 1 {
      Cut("}", r, t);
    } else {
      CutIn(",", FieldsText(a[1..]), FieldsText(b[1..]), r, t);
      FieldsUnique(a[1..], b[1..], r, t);
    }
  }

  // ---------------------------------------------------------------- what the text says about the parameters

  /** Every float in it is finite. */
  predicate AllFinite(v: Json)
    decreases v
  {
    match v
    case NonFinite(_) => false
    case List(items) => forall i :: 0 <= i < |items| ==> AllFinite(items[i])
    case Dict(fields) => forall i :: 0 <= i < |fields| ==> AllFinite(fields[i].value)
    case _ => true
  }

  lemma SortedPrintable(c: seq<Entry<Json>>, sorted: seq<Entry<Json>>)
    requires multiset(c) == multiset(sorted)
    ensures FieldsPrintable(c) <==> FieldsPrintable(sorted)
  {
    forall i | 0 <= i < |c| ensures exists j :: 0 <= j < |sorted| && sorted[j] == c[i] {
      assert c[i] in multiset(sorted);
    }
    forall j | 0 <= j < |sorted| ensures exists i :: 0 <= i < |c| && c[i] == sorted[j] {
      assert sorted[j] in multiset(c);
    }
  }

  /** The encoder refuses exactly the values with a NaN or an infinity in them. */
  lemma {:induction false} RefusedExactly(v: Json, field: Option<string>, prec: Precisions)
    ensures Printable(Canon(v, field, prec)) <==> AllFinite(v)
    decreases v
  {
    hide CanonItems, CanonFields, ByKey, Round;
    match v
    case List(items) => RefusedItems(v, prec);
    case Dict(fields) => RefusedFields(v, prec);
    case _ =>
  }

  lemma {:induction false} RefusedItems(v: Json, prec: Precisions)
    requires v.List?
    ensures Printable(List(CanonItems(v.items, prec))) <==> AllFinite(v)
    decreases v, 0
  {
    hide Canon;
    forall i | 0 <= i < |v.items| ensures Printable(CanonItems(v.items, prec)[i]) <==> AllFinite(v.items[i]) {
      RefusedExactly(v.items[i], None, prec);
    }
  }

  lemma {:induction false} RefusedFields(v: Json, prec: Precisions)
    requires v.Dict?
    ensures Printable(Dict(ByKey(CanonFields(v.fields, prec)))) <==> AllFinite(v)
    decreases v, 0
  {
    hide Canon, Sort;
    var c := CanonFields(v.fields, prec);
    SortKeeps(c, (e: Entry<Json>) => [e.key]);
    SortedPrintable(c, ByKey(c));
    forall i | 0 <= i < |v.fields| ensures Printable(c[i].value) <==> AllFinite(v.fields[i].value) {
      RefusedExactly(v.fields[i].value, Some(v.fields[i].key), prec);
    }
  }

  /** Equal texts, equivalent parameters: nothing but item order and float noise is forgotten. */
  lemma TextFaithful(a: Json, b: Json, prec: Precisions)
    requires WellFormed(a) && WellFormed(b) && AllFinite(a) && AllFinite(b)
    ensures CanonicalText(a, prec).Ok? && CanonicalText(b, prec).Ok?
    ensures CanonicalText(a, prec) == CanonicalText(b, prec) <==> Equiv(a, b, None, prec)
  {
    RefusedExactly(a, None, prec);
    RefusedExactly(b, None, prec);
    CanonExact(a, b, None, prec);
    var x, y := Canon(a, None, prec), Canon(b, None, prec);
    if Text(x) == Text(y) {
      assert Text(x) + [] == Text(y) + [];
      TextUnique(x, y, [], []);
    }
  }
}
