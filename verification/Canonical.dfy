/** Canonical parameter values (server/canonical.py): what the cache key forgets about them, and what it keeps. */
module Canonical {
  import opened Wrappers
  import opened Sorting
  import opened Decimals

  datatype Json =
    | Null
    | Bool(b: bool)
    | Int(i: int)
    | Float(x: Decimal)
    | NegZero
    | NonFinite(kind: string)
    | Str(s: string)
    | List(items: seq<Json>)
    | Dict(fields: seq<Entry<Json>>)

  /** Decimal places per field name. */
  type Precisions = map<string, nat>

  const DEFAULT_FLOAT_PRECISION := 6

  function Places(field: Option<string>, prec: Precisions): nat {
    if field.Some? && field.value in prec then prec[field.value] else DEFAULT_FLOAT_PRECISION
  }

  /** Dict keys sorted, floats rounded, everything else as it is. A float is rounded by the name of the innermost
      field it is the value of; an item of a list has no name. */
  function Canon(v: Json, field: Option<string>, prec: Precisions): Json
    decreases v
  {
    match v
    case Float(x) => Float(Round(x, Places(field, prec)))
    case NegZero => Float(Dec(0, 0))
    case List(items) => List(CanonItems(items, prec))
    case Dict(fields) => Dict(ByKey(CanonFields(fields, prec)))
    case _ => v
  }

  function CanonItems(items: seq<Json>, prec: Precisions): (r: seq<Json>)
    ensures |r| == |items| && forall i :: 0 <= i < |r| ==> r[i] == Canon(items[i], None, prec)
    decreases items
  {
    if |items| == 0 then [] else [Canon(items[0], None, prec)] + CanonItems(items[1..], prec)
  }

  function CanonFields(fields: seq<Entry<Json>>, prec: Precisions): (r: seq<Entry<Json>>)
    ensures |r| == |fields|
    ensures forall i :: 0 <= i < |r| ==> r[i] == Entry(fields[i].key, Canon(fields[i].value, Some(fields[i].key), prec))
    decreases fields
  {
    if |fields| == 0 then [] else
    var f := fields[0];
    assert f in fields;
    [Entry(f.key, Canon(f.value, Some(f.key), prec))] + CanonFields(fields[1..], prec)
  }

  /** No dict repeats a key. */
  predicate WellFormed(v: Json)
    decreases v
  {
    match v
    case List(items) => forall i :: 0 <= i < |items| ==> WellFormed(items[i])
    case Dict(fields) => Unique(fields) && forall i :: 0 <= i < |fields| ==> WellFormed(fields[i].value)
    case _ => true
  }

  // ---------------------------------------------------------------- the differences that do not matter

  /** The number behind a finite float. */
  function Finite(v: Json): Option<Decimal> {
    match v
    case Float(x) => Some(x)
    case NegZero => Some(Dec(0, 0))
    case _ => None
  }

  /** The same value up to the order of dict items and float noise below the declared precision. */
  ghost predicate Equiv(a: Json, b: Json, field: Option<string>, prec: Precisions)
    decreases a
  {
    if Finite(a).Some? || Finite(b).Some? then
      && Finite(a).Some? && Finite(b).Some?
      && Round(Finite(a).value, Places(field, prec)) == Round(Finite(b).value, Places(field, prec))
    else if a.List? && b.List? then
      |a.items| == |b.items| && forall i :: 0 <= i < |a.items| ==> Equiv(a.items[i], b.items[i], None, prec)
    else if a.Dict? && b.Dict? then
      && (forall j :: 0 <= j < |b.fields| ==> HasKey(a.fields, b.fields[j].key))
      && (forall i :: 0 <= i < |a.fields| ==>
            HasKey(b.fields, a.fields[i].key) &&
            Equiv(a.fields[i].value, Get(b.fields, a.fields[i].key), Some(a.fields[i].key), prec))
    else a == b
  }

  predicate HasKey(fields: seq<Entry<Json>>, key: string) {
    exists i :: 0 <= i < |fields| && fields[i].key == key
  }

  /** The value under a key, whatever its position. */
  function Get(fields: seq<Entry<Json>>, key: string): (v: Json)
    requires HasKey(fields, key)
    ensures exists i :: 0 <= i < |fields| && fields[i].key == key && fields[i].value == v
  {
    if fields[0].key == key then fields[0].value else Get(fields[1..], key)
  }

  lemma GetIs(fields: seq<Entry<Json>>, i: nat)
    requires Unique(fields) && i < |fields|
    ensures HasKey(fields, fields[i].key) && Get(fields, fields[i].key) == fields[i].value
  {
  }

  // ---------------------------------------------------------------- dicts up to order

  lemma FieldsStayUnique(fields: seq<Entry<Json>>, prec: Precisions)
    requires Unique(fields)
    ensures Unique(CanonFields(fields, prec))
  {
  }

  /** Each field of `a` is found in `b` with an equal canonical value. */
  ghost predicate Covers(a: seq<Entry<Json>>, b: seq<Entry<Json>>, prec: Precisions) {
    forall i :: 0 <= i < |a| ==>
      HasKey(b, a[i].key) && Canon(a[i].value, Some(a[i].key), prec) == Canon(Get(b, a[i].key), Some(a[i].key), prec)
  }

  lemma CoveredIsIn(a: seq<Entry<Json>>, b: seq<Entry<Json>>, prec: Precisions, i: nat)
    requires Unique(b) && i < |a|
    ensures (HasKey(b, a[i].key) && Canon(a[i].value, Some(a[i].key), prec) == Canon(Get(b, a[i].key), Some(a[i].key), prec))
      <==> CanonFields(a, prec)[i] in CanonFields(b, prec)
  {
    var ca, cb := CanonFields(a, prec), CanonFields(b, prec);
    if HasKey(b, a[i].key) {
      var j :| 0 <= j < |b| && b[j].key == a[i].key && b[j].value == Get(b, a[i].key);
      if ca[i].value == Canon(Get(b, a[i].key), Some(a[i].key), prec) {
        assert cb[j] == ca[i];
      }
    }
    if ca[i] in cb {
      var j :| 0 <= j < |cb| && cb[j] == ca[i];
      GetIs(b, j);
    }
  }

  lemma CoversIsSubset(a: seq<Entry<Json>>, b: seq<Entry<Json>>, prec: Precisions)
    requires Unique(b)
    ensures Covers(a, b, prec) <==> forall e :: e in CanonFields(a, prec) ==> e in CanonFields(b, prec)
  {
    hide CanonFields, Get, HasKey, Canon;
    var ca, cb := CanonFields(a, prec), CanonFields(b, prec);
    forall i | 0 <= i < |a|
      ensures (HasKey(b, a[i].key) && Canon(a[i].value, Some(a[i].key), prec) == Canon(Get(b, a[i].key), Some(a[i].key), prec))
        <==> ca[i] in cb
    {
      CoveredIsIn(a, b, prec, i);
    }
    if forall e :: e in ca ==> e in cb {
      assert forall i :: 0 <= i < |a| ==> ca[i] in ca;
    }
    if Covers(a, b, prec) {
      forall e | e in ca ensures e in cb {
        var i :| 0 <= i < |ca| && ca[i] == e;
        assert ca[i] in cb;
      }
    }
  }

  lemma CoversBack(a: seq<Entry<Json>>, b: seq<Entry<Json>>, prec: Precisions)
    requires Unique(a) && Unique(b) && Covers(a, b, prec)
    requires forall j :: 0 <= j < |b| ==> HasKey(a, b[j].key)
    ensures Covers(b, a, prec)
  {
    forall j | 0 <= j < |b|
      ensures Canon(b[j].value, Some(b[j].key), prec) == Canon(Get(a, b[j].key), Some(b[j].key), prec)
    {
      var i :| 0 <= i < |a| && a[i].key == b[j].key;
      GetIs(a, i);
      GetIs(b, j);
    }
  }

  lemma CoversHasKeys(a: seq<Entry<Json>>, b: seq<Entry<Json>>, prec: Precisions)
    requires Covers(a, b, prec)
    ensures forall j :: 0 <= j < |a| ==> HasKey(b, a[j].key)
  {
  }

  lemma DictsAgree(a: seq<Entry<Json>>, b: seq<Entry<Json>>, prec: Precisions)
    requires Unique(a) && Unique(b)
    ensures ByKey(CanonFields(a, prec)) == ByKey(CanonFields(b, prec)) <==>
            (Covers(a, b, prec) && forall j :: 0 <= j < |b| ==> HasKey(a, b[j].key))
  {
    hide CanonFields, Covers, Unique, HasKey;
    FieldsStayUnique(a, prec);
    FieldsStayUnique(b, prec);
    ByKeyForgetsOrder(CanonFields(a, prec), CanonFields(b, prec));
    SameElements(CanonFields(a, prec), CanonFields(b, prec));
    CoversIsSubset(a, b, prec);
    CoversIsSubset(b, a, prec);
    if Covers(a, b, prec) && forall j :: 0 <= j < |b| ==> HasKey(a, b[j].key) {
      CoversBack(a, b, prec);
    }
    if Covers(b, a, prec) {
      CoversHasKeys(b, a, prec);
    }
  }

  /** Canonical forms are equal exactly for equivalent values. */
  lemma {:induction false} CanonExact(a: Json, b: Json, field: Option<string>, prec: Precisions)
    requires WellFormed(a) && WellFormed(b)
    ensures Canon(a, field, prec) == Canon(b, field, prec) <==> Equiv(a, b, field, prec)
    decreases a
  {
    hide CanonItems, CanonFields, Round, WellFormed, ByKey;
    if a.List? && b.List? {
      ItemsExact(a, b, prec);
    } else if a.Dict? && b.Dict? {
      DictExact(a, b, prec);
    } else {
      LeavesExact(a, b, field, prec);
    }
  }

  lemma LeavesExact(a: Json, b: Json, field: Option<string>, prec: Precisions)
    requires !(a.List? && b.List?) && !(a.Dict? && b.Dict?)
    ensures Canon(a, field, prec) == Canon(b, field, prec) <==> Equiv(a, b, field, prec)
  {
    hide CanonItems, CanonFields, Round, ByKey;
    ZeroStays(Places(field, prec));
    CanonOfLeaf(a, field, prec);
    CanonOfLeaf(b, field, prec);
  }

  /** Canonicalising keeps the kind of a value, and changes no leaf but a finite float. */
  lemma CanonOfLeaf(v: Json, field: Option<string>, prec: Precisions)
    ensures var c := Canon(v, field, prec);
      && (v.List? <==> c.List?) && (v.Dict? <==> c.Dict?) && (Finite(v).Some? <==> c.Float?)
      && (Finite(v).Some? ==> c == Float(Round(Finite(v).value, Places(field, prec))))
      && (Finite(v).None? && !v.List? && !v.Dict? ==> c == v)
  {
    hide CanonItems, CanonFields, Round, ByKey;
    ZeroStays(Places(field, prec));
  }

  lemma ZeroStays(places: nat)
    ensures Round(Dec(0, 0), places) == Dec(0, 0)
  {
  }

  lemma {:induction false} DictExact(a: Json, b: Json, prec: Precisions)
    requires a.Dict? && b.Dict? && WellFormed(a) && WellFormed(b)
    ensures ByKey(CanonFields(a.fields, prec)) == ByKey(CanonFields(b.fields, prec)) <==>
      (forall j :: 0 <= j < |b.fields| ==> HasKey(a.fields, b.fields[j].key)) &&
      (forall i :: 0 <= i < |a.fields| ==>
        HasKey(b.fields, a.fields[i].key) &&
        Equiv(a.fields[i].value, Get(b.fields, a.fields[i].key), Some(a.fields[i].key), prec))
    decreases a, 1
  {
    hide ByKey, CanonFields, Covers, Equiv;
    DictsAgree(a.fields, b.fields, prec);
    FieldsExact(a, b, prec);
  }

  lemma {:induction false} ItemsExact(a: Json, b: Json, prec: Precisions)
    requires a.List? && b.List? && WellFormed(a) && WellFormed(b)
    ensures CanonItems(a.items, prec) == CanonItems(b.items, prec) <==>
      |a.items| == |b.items| && forall i :: 0 <= i < |a.items| ==> Equiv(a.items[i], b.items[i], None, prec)
    decreases a, 0
  {
    var ca, cb := CanonItems(a.items, prec), CanonItems(b.items, prec);
    if |a.items| == |b.items| {
      forall i | 0 <= i < |a.items| ensures ca[i] == cb[i] <==> Equiv(a.items[i], b.items[i], None, prec) {
        CanonExact(a.items[i], b.items[i], None, prec);
      }
    }
  }

  lemma {:induction false} FieldsExact(a: Json, b: Json, prec: Precisions)
    requires a.Dict? && b.Dict? && WellFormed(a) && WellFormed(b)
    ensures Covers(a.fields, b.fields, prec) <==>
      forall i :: 0 <= i < |a.fields| ==>
        HasKey(b.fields, a.fields[i].key) &&
        Equiv(a.fields[i].value, Get(b.fields, a.fields[i].key), Some(a.fields[i].key), prec)
    decreases a, 0
  {
    forall i | 0 <= i < |a.fields| && HasKey(b.fields, a.fields[i].key)
      ensures Canon(a.fields[i].value, Some(a.fields[i].key), prec)
           == Canon(Get(b.fields, a.fields[i].key), Some(a.fields[i].key), prec)
          <==> Equiv(a.fields[i].value, Get(b.fields, a.fields[i].key), Some(a.fields[i].key), prec)
    {
      CanonExact(a.fields[i].value, Get(b.fields, a.fields[i].key), Some(a.fields[i].key), prec);
    }
  }

  /** Canonicalising twice is canonicalising once. */
  lemma {:induction false} CanonIdempotent(v: Json, field: Option<string>, prec: Precisions)
    requires WellFormed(v)
    ensures Canon(Canon(v, field, prec), field, prec) == Canon(v, field, prec)
    decreases v
  {
    match v
    case Float(x) => RoundTwice(x, Places(field, prec));
    case List(items) => ItemsIdempotent(v, prec);
    case Dict(fields) => FieldsIdempotent(v, prec);
    case _ =>
  }

  lemma {:induction false} ItemsIdempotent(v: Json, prec: Precisions)
    requires v.List? && WellFormed(v)
    ensures CanonItems(CanonItems(v.items, prec), prec) == CanonItems(v.items, prec)
    decreases v, 0
  {
    var c := CanonItems(v.items, prec);
    forall i | 0 <= i < |v.items| ensures CanonItems(c, prec)[i] == c[i] {
      CanonIdempotent(v.items[i], None, prec);
    }
  }

  lemma {:induction false} FieldsIdempotent(v: Json, prec: Precisions)
    requires v.Dict? && WellFormed(v)
    ensures var sorted := ByKey(CanonFields(v.fields, prec)); ByKey(CanonFields(sorted, prec)) == sorted
    decreases v, 0
  {
    var c := CanonFields(v.fields, prec);
    var sorted := ByKey(c);
    FieldsStayUnique(v.fields, prec);
    ByKeySame(c);
    forall i | 0 <= i < |c| ensures Canon(c[i].value, Some(c[i].key), prec) == c[i].value {
      CanonIdempotent(v.fields[i].value, Some(v.fields[i].key), prec);
    }
    CanonOfCanonical(c, sorted, prec);
  }

  lemma CanonOfCanonical(c: seq<Entry<Json>>, sorted: seq<Entry<Json>>, prec: Precisions)
    requires multiset(c) == multiset(sorted)
    requires forall i :: 0 <= i < |c| ==> Canon(c[i].value, Some(c[i].key), prec) == c[i].value
    ensures CanonFields(sorted, prec) == sorted
  {
    forall k | 0 <= k < |sorted| ensures CanonFields(sorted, prec)[k] == sorted[k] {
      assert sorted[k] in multiset(c);
      var i :| 0 <= i < |c| && c[i] == sorted[k];
    }
  }

  lemma ByKeySame(es: seq<Entry<Json>>)
    requires Unique(es)
    ensures multiset(ByKey(es)) == multiset(es) && ByKey(ByKey(es)) == ByKey(es)
  {
    SortKeeps(es, (e: Entry<Json>) => [e.key]);
    ByKeyForgetsOrder(es, ByKey(es));
  }

  // ---------------------------------------------------------------- what the documentation says of precisions

  /** As documented: a field precision applies to the floats of the outermost dict, and to nothing below. */
  function Documented(v: Json, prec: Precisions): Json {
    match v
    case Dict(fields) => Dict(ByKey(TopFields(fields, prec)))
    case _ => Canon(v, None, map[])
  }

  function TopField(f: Entry<Json>, prec: Precisions): Entry<Json> {
    Entry(f.key, Canon(f.value, Some(f.key), if f.value.Float? then prec else map[]))
  }

  function TopFields(fields: seq<Entry<Json>>, prec: Precisions): (r: seq<Entry<Json>>)
    ensures |r| == |fields| && forall i :: 0 <= i < |r| ==> r[i] == TopField(fields[i], prec)
  {
    seq(|fields|, i requires 0 <= i < |fields| => TopField(fields[i], prec))
  }

  /** Every float in `v` rounds under its own field's precision as it does under the default. */
  predicate Indifferent(v: Json, field: Option<string>, prec: Precisions)
    decreases v
  {
    match v
    case Float(x) => Round(x, Places(field, prec)) == Round(x, DEFAULT_FLOAT_PRECISION)
    case List(items) => forall i :: 0 <= i < |items| ==> Indifferent(items[i], None, prec)
    case Dict(fields) => forall i :: 0 <= i < |fields| ==> Indifferent(fields[i].value, Some(fields[i].key), prec)
    case _ => true
  }

  /** The same of every float below the outermost dict. */
  predicate IndifferentBelow(v: Json, prec: Precisions)
    requires v.Dict?
  {
    forall i :: 0 <= i < |v.fields| ==>
      v.fields[i].value.Float? || Indifferent(v.fields[i].value, Some(v.fields[i].key), prec)
  }

  /** Sorting tells two dicts apart that have the same keys in the same places. */
  lemma ByKeyTells(a: seq<Entry<Json>>, b: seq<Entry<Json>>)
    requires Unique(a) && |a| == |b| && forall i :: 0 <= i < |a| ==> a[i].key == b[i].key
    ensures ByKey(a) == ByKey(b) <==> a == b
  {
    hide ByKey;
    ByKeyForgetsOrder(a, b);
    if multiset(a) == multiset(b) {
      forall i | 0 <= i < |a| ensures a[i] == b[i] {
        assert a[i] in multiset(b);
        var j :| 0 <= j < |b| && b[j] == a[i];
      }
    }
  }

  /** Without the precisions the canonical form is the same exactly for a value indifferent to them. */
  lemma {:induction false} IndifferentExactly(v: Json, field: Option<string>, prec: Precisions)
    requires WellFormed(v)
    ensures Canon(v, field, prec) == Canon(v, field, map[]) <==> Indifferent(v, field, prec)
    decreases v
  {
    hide ByKey, Round, CanonItems, CanonFields, Unique;
    match v
    case List(items) => IndifferentItems(v, prec);
    case Dict(fields) => IndifferentFields(v, prec);
    case _ =>
  }

  lemma {:induction false} IndifferentItems(v: Json, prec: Precisions)
    requires v.List? && WellFormed(v)
    ensures CanonItems(v.items, prec) == CanonItems(v.items, map[]) <==>
      forall i :: 0 <= i < |v.items| ==> Indifferent(v.items[i], None, prec)
    decreases v, 0
  {
    var a, b := CanonItems(v.items, prec), CanonItems(v.items, map[]);
    forall i | 0 <= i < |v.items| ensures a[i] == b[i] <==> Indifferent(v.items[i], None, prec) {
      IndifferentExactly(v.items[i], None, prec);
    }
  }

  lemma {:induction false} IndifferentFields(v: Json, prec: Precisions)
    requires v.Dict? && WellFormed(v)
    ensures ByKey(CanonFields(v.fields, prec)) == ByKey(CanonFields(v.fields, map[])) <==>
      forall i :: 0 <= i < |v.fields| ==> Indifferent(v.fields[i].value, Some(v.fields[i].key), prec)
    decreases v, 0
  {
    hide ByKey;
    var a, b := CanonFields(v.fields, prec), CanonFields(v.fields, map[]);
    FieldsStayUnique(v.fields, prec);
    ByKeyTells(a, b);
    forall i | 0 <= i < |v.fields| ensures a[i] == b[i] <==> Indifferent(v.fields[i].value, Some(v.fields[i].key), prec) {
      IndifferentExactly(v.fields[i].value, Some(v.fields[i].key), prec);
    }
  }

  /** The program canonicalises as documented exactly if every float below the outermost dict that stands under a
      name with a precision rounds the same with and without it. */
  lemma DocumentedExactly(v: Json, prec: Precisions)
    requires WellFormed(v) && v.Dict?
    ensures Canon(v, None, prec) == Documented(v, prec) <==> IndifferentBelow(v, prec)
  {
    hide ByKey, Canon, Indifferent;
    var a, b := CanonFields(v.fields, prec), TopFields(v.fields, prec);
    FieldsStayUnique(v.fields, prec);
    CanonOfDict(v, prec);
    ByKeyTells(a, b);
    forall i | 0 <= i < |a|
      ensures a[i] == b[i] <==> v.fields[i].value.Float? || Indifferent(v.fields[i].value, Some(v.fields[i].key), prec)
    {
      IndifferentExactly(v.fields[i].value, Some(v.fields[i].key), prec);
    }
  }

  lemma CanonOfDict(v: Json, prec: Precisions)
    requires v.Dict?
    ensures Canon(v, None, prec) == Dict(ByKey(CanonFields(v.fields, prec)))
  {
  }

  /** A field precision reaches a float in a nested dict, also in one that is an item of a list; it does not reach
      a float that is itself an item of a list. */
  lemma PrecisionReachesNestedDicts(outer: string, key: string, x: Decimal, prec: Precisions)
    requires key in prec
    ensures Canon(Dict([Entry(outer, Dict([Entry(key, Float(x))]))]), None, prec)
         == Dict([Entry(outer, Dict([Entry(key, Float(Round(x, prec[key])))]))])
    ensures Canon(Dict([Entry(outer, List([Dict([Entry(key, Float(x))])]))]), None, prec)
         == Dict([Entry(outer, List([Dict([Entry(key, Float(Round(x, prec[key])))])]))])
    ensures Canon(Dict([Entry(key, List([Float(x)]))]), None, prec)
         == Dict([Entry(key, List([Float(Round(x, DEFAULT_FLOAT_PRECISION))]))])
  {
    hide Canon, Round, ByKey;
    var rounded := Float(Round(x, prec[key]));
    CanonFloat(x, key, prec);
    CanonOne(key, Float(x), rounded, Some(outer), prec);
    CanonOne(outer, Dict([Entry(key, Float(x))]), Dict([Entry(key, rounded)]), None, prec);
    CanonOne(key, Float(x), rounded, None, prec);
    CanonOneItem(Dict([Entry(key, Float(x))]), Dict([Entry(key, rounded)]), Some(outer), prec);
    CanonOne(outer, List([Dict([Entry(key, Float(x))])]), List([Dict([Entry(key, rounded)])]), None, prec);
    CanonFloat(x, key, prec);
    CanonOneItem(Float(x), Float(Round(x, DEFAULT_FLOAT_PRECISION)), Some(key), prec);
    CanonOne(key, List([Float(x)]), List([Float(Round(x, DEFAULT_FLOAT_PRECISION))]), None, prec);
  }

  /** So a thousandth under a name with two places is lost in a nested dict, where the documentation keeps it. */
  lemma NestedThousandth(outer: string, key: string, prec: Precisions)
    requires key in prec && prec[key] == 2
    ensures var v := Dict([Entry(outer, Dict([Entry(key, Float(Dec(1, 3)))]))]);
      Canon(v, None, prec) != Documented(v, prec)
  {
    hide Canon, ByKey, Documented;
    var inner := Dict([Entry(key, Float(Dec(1, 3)))]);
    var v := Dict([Entry(outer, inner)]);
    assert Unique(inner.fields) && WellFormed(inner) && Unique(v.fields);
    Thousandth();
    assert !Indifferent(inner.fields[0].value, Some(key), prec);
    assert !Indifferent(inner, Some(outer), prec);
    assert v.fields[0].value == inner;
    DocumentedExactly(v, prec);
  }

  lemma Thousandth()
    ensures Round(Dec(1, 3), 2) == Dec(0, 0) && Round(Dec(1, 3), DEFAULT_FLOAT_PRECISION) == Dec(1, 3)
  {
    assert Pow10(1) == 10 * Pow10(0);
    assert Nearest(1, 10) == 0;
    assert Strip(Dec(0, 1)) == Dec(0, 0);
  }

  lemma CanonFloat(x: Decimal, key: string, prec: Precisions)
    ensures key in prec ==> Canon(Float(x), Some(key), prec) == Float(Round(x, prec[key]))
    ensures Canon(Float(x), None, prec) == Float(Round(x, DEFAULT_FLOAT_PRECISION))
  {
  }

  lemma CanonOne(key: string, v: Json, c: Json, field: Option<string>, prec: Precisions)
    requires Canon(v, Some(key), prec) == c
    ensures Canon(Dict([Entry(key, v)]), field, prec) == Dict([Entry(key, c)])
  {
    OneField(key, c);
    assert CanonFields([Entry(key, v)], prec) == [Entry(key, c)];
  }

  lemma CanonOneItem(v: Json, c: Json, field: Option<string>, prec: Precisions)
    requires Canon(v, None, prec) == c
    ensures Canon(List([v]), field, prec) == List([c])
  {
    assert CanonItems([v], prec) == [c];
  }

  lemma OneField(key: string, v: Json)
    ensures ByKey([Entry(key, v)]) == [Entry(key, v)]
  {
    var rank := (e: Entry<Json>) => [e.key];
    assert [Entry(key, v)][..0] == [];
    assert Sort([], rank) == [];
  }
}
