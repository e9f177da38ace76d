/** Two node executions get the same cache key exactly when they agree on everything that matters:
    class id, version, the parameters up to item order and float noise, the extra keys, and on each port
    the same ref or the same collection of refs. */
module KeyMeaning {
  import opened Wrappers
  import opened Sorting
  import opened Decimals
  import opened Canonical
  import opened JsonText
  import opened NodeHash

  // ---------------------------------------------------------------- what a request means to the key

  /** External refs count by path, internal ones by producer. */
  datatype RefKey = ExtKey(port: string, path: string) | IntKey(hash: string, port: string)

  /** A list counts without its order. */
  datatype InputKey = OneKey(ref: RefKey) | ManyKey(refs: multiset<RefKey>)

  function RefKeyOf(r: Ref): RefKey {
    if r.hash == "ext" then ExtKey(r.port, r.path) else IntKey(r.hash, r.port)
  }

  function RefKeys(refs: seq<Ref>): (r: seq<RefKey>)
    ensures |r| == |refs| && forall i :: 0 <= i < |refs| ==> r[i] == RefKeyOf(refs[i])
  {
    seq(|refs|, i requires 0 <= i < |refs| => RefKeyOf(refs[i]))
  }

  function InputKeyOf(v: Input): InputKey {
    match v
    case One(r) => OneKey(RefKeyOf(r))
    case Many(refs) => ManyKey(multiset(RefKeys(refs)))
  }

  function Lookup<V>(es: seq<Entry<V>>): map<string, V> {
    if |es| == 0 then map[] else Lookup(es[..|es| - 1])[es[|es| - 1].key := es[|es| - 1].value]
  }

  function InputKeys(es: seq<Entry<Input>>): (r: seq<Entry<InputKey>>)
    ensures |r| == |es| && forall i :: 0 <= i < |es| ==> r[i] == Entry(es[i].key, InputKeyOf(es[i].value))
  {
    seq(|es|, i requires 0 <= i < |es| => Entry(es[i].key, InputKeyOf(es[i].value)))
  }

  /** The requests agree on all that the key is about. */
  ghost predicate SameExecution(a: Request, b: Request) {
    && a.id == b.id && a.version == b.version
    && Lookup(InputKeys(a.inputs)) == Lookup(InputKeys(b.inputs))
    && Lookup(a.extra) == Lookup(b.extra)
    && Equiv(a.params, b.params, None, a.prec)
  }

  // ---------------------------------------------------------------- requests without delimiters in their names

  predicate Free(c: char, s: string) {
    c !in s
  }

  predicate CleanRef(r: Ref) {
    && Free('/', r.hash) && Free(',', r.hash) && Free(';', r.hash) && Free('\0', r.hash)
    && (r.hash == [] || r.hash[0] != '[')
    && Free('@', r.port) && Free(',', r.port) && Free(';', r.port) && Free('\0', r.port)
    && (r.hash == "ext" ==> Free(',', r.path) && Free(';', r.path) && Free('\0', r.path))
  }

  predicate CleanInput(v: Input) {
    match v
    case One(r) => CleanRef(r)
    case Many(refs) => forall i :: 0 <= i < |refs| ==> CleanRef(refs[i])
  }

  predicate CleanName(s: string) {
    Free('=', s) && Free(';', s) && Free('\0', s)
  }

  /** Class ids, ports, hashes, paths and extra keys hold none of the characters that separate them. */
  predicate Clean(q: Request) {
    && Free('\0', q.id)
    && Unique(q.inputs) && Unique(q.extra)
    && (forall i :: 0 <= i < |q.inputs| ==> CleanName(q.inputs[i].key) && CleanInput(q.inputs[i].value))
    && (forall i :: 0 <= i < |q.extra| ==> CleanName(q.extra[i].key) && Free(';', q.extra[i].value))
    && WellFormed(q.params) && AllFinite(q.params)
  }

  // ---------------------------------------------------------------- cutting texts

  /** A text up to the first separator is determined. */
  lemma SplitFirst(c: char, a: string, b: string, r: string, t: string)
    requires Free(c, a) && Free(c, b) && a + ([c] + r) == b + ([c] + t)
    ensures a == b && r == t
  {
    if |a| < |b| {
      EarlierDiffers(c, a, b, r, t);
    }
    if |b| < |a| {
      EarlierDiffers(c, b, a, t, r);
    }
    SameLengthCut(a, b, [c] + r, [c] + t);
    Cut([c], r, t);
  }

  lemma EarlierDiffers(c: char, a: string, b: string, r: string, t: string)
    requires Free(c, b) && |a| < |b|
    ensures a + ([c] + r) != b + ([c] + t)
  {
    var x, y := a + ([c] + r), b + ([c] + t);
    assert x[|a|] == c && y[|a|] == b[|a|] && b[|a|] in b;
  }

  predicate Closed(c: char, x: string) {
    x == [] || x[|x| - 1] == c
  }

  /** And so is the text after the last one. */
  lemma SplitLast(c: char, x: string, p: string, y: string, q: string)
    requires Free(c, p) && Free(c, q) && Closed(c, x) && Closed(c, y) && x + p == y + q
    ensures x == y && p == q
  {
    if |x| < |y| {
      LaterDiffers(c, x, p, y, q);
    }
    if |y| < |x| {
      LaterDiffers(c, y, q, x, p);
    }
    SameLengthCut(x, y, p, q);
  }

  lemma LaterDiffers(c: char, x: string, p: string, y: string, q: string)
    requires Free(c, p) && Closed(c, y) && |x| < |y|
    ensures x + p != y + q
  {
    if |x + p| == |y + q| {
      var i := |y| - 1 - |x|;
      assert (x + p)[|y| - 1] == p[i] && (y + q)[|y| - 1] == c;
      assert p[i] in p;
    }
  }

  lemma FreeConcat(c: char, a: string, b: string)
    ensures Free(c, a + b) <==> Free(c, a) && Free(c, b)
  {
  }

  // ---------------------------------------------------------------- one ref

  lemma RefTextParts(r: Ref)
    ensures RefText(r) == r.hash + (['/'] + (r.port + if r.hash == "ext" then "@" + r.path else ""))
    ensures RefText(r) != []
  {
  }

  lemma RefTextFree(c: char, r: Ref)
    requires Free(c, r.hash) && Free(c, r.port) && c != '/' && c != '@' && (r.hash == "ext" ==> Free(c, r.path))
    ensures Free(c, RefText(r))
  {
    var tail := if r.hash == "ext" then "@" + r.path else "";
    FreeConcat(c, "@", r.path);
    FreeConcat(c, r.port, tail);
    FreeConcat(c, "/", r.port + tail);
    FreeConcat(c, r.hash, "/" + (r.port + tail));
  }

  lemma RefTextClean(r: Ref)
    requires CleanRef(r)
    ensures Free(',', RefText(r)) && Free(';', RefText(r)) && Free('\0', RefText(r))
    ensures RefText(r) != [] && RefText(r)[0] != '['
  {
    RefTextFree(',', r);
    RefTextFree(';', r);
    RefTextFree('\0', r);
    RefTextParts(r);
    if r.hash == [] {
      assert RefText(r)[0] == '/';
    } else {
      assert RefText(r)[0] == r.hash[0];
    }
  }

  lemma RefTextUnique(a: Ref, b: Ref)
    requires CleanRef(a) && CleanRef(b)
    ensures RefText(a) == RefText(b) <==> RefKeyOf(a) == RefKeyOf(b)
  {
    if RefText(a) == RefText(b) {
      RefTextParts(a);
      RefTextParts(b);
      SplitFirst('/', a.hash, b.hash, a.port + if a.hash == "ext" then "@" + a.path else "",
                 b.port + if b.hash == "ext" then "@" + b.path else "");
      if a.hash == "ext" {
        assert a.port + ("@" + a.path) == b.port + ("@" + b.path);
        SplitFirst('@', a.port, b.port, a.path, b.path);
      } else {
        assert a.port + "" == a.port && b.port + "" == b.port;
      }
    }
  }

  // ---------------------------------------------------------------- lists of refs

  predicate CleanRefs(refs: seq<Ref>) {
    forall i :: 0 <= i < |refs| ==> CleanRef(refs[i])
  }

  lemma {:induction false} ListedUnique(a: seq<Ref>, b: seq<Ref>)
    requires CleanRefs(a) && CleanRefs(b)
    ensures Listed(a) == Listed(b) <==> RefKeys(a) == RefKeys(b)
    decreases |a|
  {
    if |a| == 0 || |b| == 0 {
      ListedEmpty(a);
      ListedEmpty(b);
    } else {
      ListedUnique(a[..|a| - 1], b[..|b| - 1]);
      LastKeys(a, b);
      ListedLast(a, b);
    }
  }

  lemma ListedEmpty(a: seq<Ref>)
    ensures Listed(a) == [] <==> |a| == 0
  {
    if |a| > 0 {
      RefTextParts(a[|a| - 1]);
    }
  }

  /** Listed texts agree when their beginnings and their last refs do. */
  lemma ListedLast(a: seq<Ref>, b: seq<Ref>)
    requires |a| > 0 && |b| > 0 && CleanRefs(a) && CleanRefs(b)
    ensures Listed(a) == Listed(b) <==>
      Listed(a[..|a| - 1]) == Listed(b[..|b| - 1]) && RefKeyOf(a[|a| - 1]) == RefKeyOf(b[|b| - 1])
  {
    var r, s := a[|a| - 1], b[|b| - 1];
    RefTextUnique(r, s);
    RefTextClean(r);
    RefTextClean(s);
    BeforeUnique(a, b);
    if Listed(a) == Listed(b) {
      SplitLast(',', Before(a), RefText(r), Before(b), RefText(s));
    }
  }

  lemma LastKeys(a: seq<Ref>, b: seq<Ref>)
    requires |a| > 0 && |b| > 0
    ensures RefKeys(a) == RefKeys(b) <==>
      RefKeys(a[..|a| - 1]) == RefKeys(b[..|b| - 1]) && RefKeyOf(a[|a| - 1]) == RefKeyOf(b[|b| - 1])
  {
    assert RefKeys(a) == RefKeys(a[..|a| - 1]) + [RefKeyOf(a[|a| - 1])];
    assert RefKeys(b) == RefKeys(b[..|b| - 1]) + [RefKeyOf(b[|b| - 1])];
  }

  lemma BeforeUnique(a: seq<Ref>, b: seq<Ref>)
    requires |a| > 0 && |b| > 0
    ensures Before(a) == Before(b) <==> Listed(a[..|a| - 1]) == Listed(b[..|b| - 1])
  {
    ListedEmpty(a[..|a| - 1]);
    ListedEmpty(b[..|b| - 1]);
    if |a| > 1 && |b| > 1 && Before(a) == Before(b) {
      SplitTail(Listed(a[..|a| - 1]), Listed(b[..|b| - 1]), ",");
    }
  }

  lemma SplitTail(x: string, y: string, p: string)
    requires x + p == y + p
    ensures x == y
  {
    SameLengthCut(x, y, p, p);
  }

  function KeyRank(k: RefKey): Rank {
    match k
    case ExtKey(port, path) => ["ext", port, path]
    case IntKey(hash, port) => [hash, port, ""]
  }

  predicate ProperKey(k: RefKey) {
    k.IntKey? ==> k.hash != "ext"
  }

  lemma KeyRankInjective(a: RefKey, b: RefKey)
    requires ProperKey(a) && ProperKey(b) && KeyRank(a) == KeyRank(b)
    ensures a == b
  {
    assert KeyRank(a)[0] == KeyRank(b)[0] && KeyRank(a)[1] == KeyRank(b)[1] && KeyRank(a)[2] == KeyRank(b)[2];
  }

  /** Refs sorted by hash, port and path have their keys sorted too. */
  lemma RankCoarser(a: Ref, b: Ref)
    requires RankLeq(RefRank(a), RefRank(b))
    ensures RankLeq(KeyRank(RefKeyOf(a)), KeyRank(RefKeyOf(b)))
  {
    var x, y := RefRank(a), RefRank(b);
    var k, l := KeyRank(RefKeyOf(a)), KeyRank(RefKeyOf(b));
    assert x[1..] == [a.port, a.path] && y[1..] == [b.port, b.path];
    assert x[1..][1..] == [a.path] && y[1..][1..] == [b.path];
    assert k[1..] == [k[1], k[2]] && l[1..] == [l[1], l[2]];
    assert k[1..][1..] == [k[2]] && l[1..][1..] == [l[2]];
    assert k[1..][1..][1..] == [] && l[1..][1..][1..] == [] && x[1..][1..][1..] == [];
    if a.hash == b.hash && a.port == b.port {
      assert RankLeq([a.path], [b.path]);
      if k[2] != l[2] {
        assert StrLeq(a.path, b.path);
      }
      assert RankLeq([k[2]], [l[2]]);
    }
  }

  lemma SortedKeys(refs: seq<Ref>)
    ensures Sorted(Ranks(RefKeys(Sort(refs, RefRank)), KeyRank))
  {
    var s := Sort(refs, RefRank);
    SortSorted(refs, RefRank);
    var keys := Ranks(RefKeys(s), KeyRank);
    forall i, j | 0 <= i < j < |keys| ensures RankLeq(keys[i], keys[j]) {
      assert RankLeq(Ranks(s, RefRank)[i], Ranks(s, RefRank)[j]);
      RankCoarser(s[i], s[j]);
    }
  }

  lemma RefKeysPerm(a: seq<Ref>, b: seq<Ref>)
    requires multiset(a) == multiset(b)
    ensures multiset(RefKeys(a)) == multiset(RefKeys(b))
    decreases |a|
  {
    hide RefKeys, Drop;
    if |a| == 0 {
      assert |multiset(b)| == 0;
    } else {
      assert a[0] in multiset(b);
      var j :| 0 <= j < |b| && b[j] == a[0];
      DropKeeps(a, 0);
      DropKeeps(b, j);
      SameRest(multiset(Drop(a, 0)), multiset(Drop(b, j)), multiset{a[0]});
      RefKeysPerm(Drop(a, 0), Drop(b, j));
      DropKeeps(RefKeys(a), 0);
      DropKeeps(RefKeys(b), j);
      RefKeysDrop(a, 0);
      RefKeysDrop(b, j);
    }
  }

  lemma RefKeysDrop(s: seq<Ref>, j: nat)
    requires j < |s|
    ensures RefKeys(Drop(s, j)) == Drop(RefKeys(s), j)
  {
  }

  /** The sorted keys of a list are determined by the collection of its keys. */
  lemma SortedKeysUnique(a: seq<Ref>, b: seq<Ref>)
    ensures RefKeys(Sort(a, RefRank)) == RefKeys(Sort(b, RefRank)) <==> multiset(RefKeys(a)) == multiset(RefKeys(b))
  {
    hide RefKeys, Sort, Sorted;
    var x, y := RefKeys(Sort(a, RefRank)), RefKeys(Sort(b, RefRank));
    SortKeeps(a, RefRank);
    SortKeeps(b, RefRank);
    RefKeysPerm(a, Sort(a, RefRank));
    RefKeysPerm(b, Sort(b, RefRank));
    if multiset(RefKeys(a)) == multiset(RefKeys(b)) {
      SortedKeys(a);
      SortedKeys(b);
      RanksPerm(x, y, KeyRank);
      SortedUnique(Ranks(x, KeyRank), Ranks(y, KeyRank));
      SameRanksSameKeys(Sort(a, RefRank), Sort(b, RefRank));
    }
  }

  lemma SameRanksSameKeys(a: seq<Ref>, b: seq<Ref>)
    requires Ranks(RefKeys(a), KeyRank) == Ranks(RefKeys(b), KeyRank)
    ensures RefKeys(a) == RefKeys(b)
  {
    var x, y := RefKeys(a), RefKeys(b);
    assert |x| == |Ranks(x, KeyRank)| == |Ranks(y, KeyRank)| == |y|;
    forall i | 0 <= i < |x| ensures x[i] == y[i] {
      assert KeyRank(x[i]) == Ranks(x, KeyRank)[i] == Ranks(y, KeyRank)[i] == KeyRank(y[i]);
      KeyRankInjective(x[i], y[i]);
    }
  }

  // ---------------------------------------------------------------- one port

  lemma SortedClean(refs: seq<Ref>)
    requires CleanRefs(refs)
    ensures CleanRefs(Sort(refs, RefRank))
  {
    var s := Sort(refs, RefRank);
    SortKeeps(refs, RefRank);
    forall i | 0 <= i < |s| ensures CleanRef(s[i]) {
      assert s[i] in multiset(refs);
    }
  }

  lemma ListUnique(a: seq<Ref>, b: seq<Ref>)
    requires CleanRefs(a) && CleanRefs(b)
    ensures ValueText(Many(a)) == ValueText(Many(b)) <==> multiset(RefKeys(a)) == multiset(RefKeys(b))
  {
    hide Sort, Listed, RefKeys, CleanRefs;
    var x, y := Sort(a, RefRank), Sort(b, RefRank);
    SortedClean(a);
    SortedClean(b);
    ListedUnique(x, y);
    SortedKeysUnique(a, b);
    if ValueText(Many(a)) == ValueText(Many(b)) {
      Cut("[", Listed(x) + "]", Listed(y) + "]");
      SplitTail(Listed(x), Listed(y), "]");
    }
  }

  lemma ValueUnique(a: Input, b: Input)
    requires CleanInput(a) && CleanInput(b)
    ensures ValueText(a) == ValueText(b) <==> InputKeyOf(a) == InputKeyOf(b)
  {
    match a
    case One(r) =>
      RefTextClean(r);
      match b {
        case One(s) => RefTextUnique(r, s);
        case Many(refs) => assert ValueText(b)[0] == '[';
      }
    case Many(refs) =>
      match b {
        case One(s) =>
          RefTextClean(s);
          assert ValueText(a)[0] == '[';
        case Many(more) => ListUnique(refs, more);
      }
  }

  // ---------------------------------------------------------------- items

  predicate CleanItems(es: seq<Entry<string>>) {
    forall i :: 0 <= i < |es| ==> CleanName(es[i].key) && Free(';', es[i].value)
  }

  lemma UnitUnique(a: Entry<string>, b: Entry<string>)
    requires CleanName(a.key) && CleanName(b.key)
    ensures Unit(a.key, a.value) == Unit(b.key, b.value) <==> a == b
  {
    if Unit(a.key, a.value) == Unit(b.key, b.value) {
      SplitFirst('=', a.key, b.key, a.value, b.value);
    }
  }

  lemma UnitFree(e: Entry<string>)
    requires CleanName(e.key) && Free(';', e.value)
    ensures Free(';', Unit(e.key, e.value))
  {
    FreeConcat(';', "=", e.value);
    FreeConcat(';', e.key, "=" + e.value);
  }

  lemma UnitsClosed(es: seq<Entry<string>>)
    ensures Closed(';', Units(es)) && (Units(es) == [] <==> |es| == 0)
  {
  }

  /** The items can be read back from their text. */
  lemma {:induction false} UnitsUnique(a: seq<Entry<string>>, b: seq<Entry<string>>)
    requires CleanItems(a) && CleanItems(b) && Units(a) == Units(b)
    ensures a == b
    decreases |a|
  {
    hide CleanName, Unit, Free;
    UnitsClosed(a);
    UnitsClosed(b);
    if |a| > 0 {
      var n, m := |a| - 1, |b| - 1;
      UnitsClosed(a[..n]);
      UnitsClosed(b[..m]);
      UnitFree(a[n]);
      UnitFree(b[m]);
      var x, y := Unit(a[n].key, a[n].value), Unit(b[m].key, b[m].value);
      Assoc(Units(a[..n]), x, ";");
      Assoc(Units(b[..m]), y, ";");
      SplitTail(Units(a[..n]) + x, Units(b[..m]) + y, ";");
      SplitLast(';', Units(a[..n]), x, Units(b[..m]), y);
      UnitUnique(a[n], b[m]);
      UnitsUnique(a[..n], b[..m]);
      assert a == a[..n] + [a[n]] && b == b[..m] + [b[m]];
    }
  }

  lemma {:induction false} LookupIs<V>(es: seq<Entry<V>>, e: Entry<V>)
    requires Unique(es)
    ensures e in es <==> e.key in Lookup(es) && Lookup(es)[e.key] == e.value
  {
    if |es| > 0 {
      var n := |es| - 1;
      LookupIs(es[..n], e);
      LookupKeys(es[..n]);
      assert es == es[..n] + [es[n]];
    }
  }

  lemma {:induction false} LookupKeys<V>(es: seq<Entry<V>>)
    ensures forall k :: k in Lookup(es) <==> exists i :: 0 <= i < |es| && es[i].key == k
  {
    if |es| > 0 {
      var n := |es| - 1;
      LookupKeys(es[..n]);
      assert forall i :: 0 <= i < n ==> es[..n][i] == es[i];
    }
  }

  lemma LookupWithin<V>(a: seq<Entry<V>>, b: seq<Entry<V>>, k: string)
    requires Unique(a) && Unique(b) && k in Lookup(a) && forall e :: e in a ==> e in b
    ensures k in Lookup(b) && Lookup(b)[k] == Lookup(a)[k]
  {
    hide Lookup, Unique;
    var e := Entry(k, Lookup(a)[k]);
    LookupIs(a, e);
    LookupIs(b, e);
  }

  lemma SameLookup<V>(a: seq<Entry<V>>, b: seq<Entry<V>>)
    requires Unique(a) && Unique(b)
    ensures Lookup(a) == Lookup(b) <==> forall e :: e in a <==> e in b
  {
    hide Lookup, Unique;
    if forall e :: e in a <==> e in b {
      forall k | k in Lookup(a) ensures k in Lookup(b) && Lookup(b)[k] == Lookup(a)[k] {
        LookupWithin(a, b, k);
      }
      forall k | k in Lookup(b) ensures k in Lookup(a) {
        LookupWithin(b, a, k);
      }
      assert Lookup(a) == Lookup(b);
    }
    if Lookup(a) == Lookup(b) {
      forall e ensures e in a <==> e in b {
        LookupIs(a, e);
        LookupIs(b, e);
      }
    }
  }

  lemma SortedCleanItems(es: seq<Entry<string>>)
    requires CleanItems(es)
    ensures CleanItems(ByKey(es))
  {
    var s := ByKey(es);
    SortKeeps(es, (e: Entry<string>) => [e.key]);
    forall i | 0 <= i < |s| ensures CleanName(s[i].key) && Free(';', s[i].value) {
      assert s[i] in multiset(es);
    }
  }

  /** The text of sorted items stands for the mapping. */
  lemma ItemsMeaning(a: seq<Entry<string>>, b: seq<Entry<string>>)
    requires Unique(a) && Unique(b) && CleanItems(a) && CleanItems(b)
    ensures Units(ByKey(a)) == Units(ByKey(b)) <==> Lookup(a) == Lookup(b)
  {
    hide Units, ByKey, Lookup, Unique, CleanItems;
    ByKeyForgetsOrder(a, b);
    SameElements(a, b);
    SameLookup(a, b);
    SortedCleanItems(a);
    SortedCleanItems(b);
    if Units(ByKey(a)) == Units(ByKey(b)) {
      UnitsUnique(ByKey(a), ByKey(b));
    }
  }

  // ---------------------------------------------------------------- all ports

  lemma {:induction false} ListedFree(c: char, refs: seq<Ref>)
    requires c != ',' && forall i :: 0 <= i < |refs| ==> Free(c, RefText(refs[i]))
    ensures Free(c, Listed(refs))
    decreases |refs|
  {
    if |refs| > 0 {
      var n := |refs| - 1;
      ListedFree(c, refs[..n]);
      FreeConcat(c, Listed(refs[..n]), ",");
      FreeConcat(c, Before(refs), RefText(refs[n]));
    }
  }

  lemma ValueFree(v: Input)
    requires CleanInput(v)
    ensures Free(';', ValueText(v)) && Free('\0', ValueText(v))
  {
    match v
    case One(r) => RefTextClean(r);
    case Many(refs) =>
      var s := Sort(refs, RefRank);
      SortedClean(refs);
      forall i | 0 <= i < |s| ensures Free(';', RefText(s[i])) && Free('\0', RefText(s[i])) {
        RefTextClean(s[i]);
      }
      ListedFree(';', s);
      ListedFree('\0', s);
      BracketsFree(';', Listed(s));
      BracketsFree('\0', Listed(s));
  }

  lemma BracketsFree(c: char, s: string)
    requires Free(c, s) && c != '[' && c != ']'
    ensures Free(c, "[" + (s + "]"))
  {
    FreeConcat(c, s, "]");
    FreeConcat(c, "[", s + "]");
  }

  predicate CleanInputs(es: seq<Entry<Input>>) {
    forall i :: 0 <= i < |es| ==> CleanName(es[i].key) && CleanInput(es[i].value)
  }

  predicate NulFree(es: seq<Entry<string>>) {
    forall i :: 0 <= i < |es| ==> Free('\0', es[i].key) && Free('\0', es[i].value)
  }

  lemma TextsClean(es: seq<Entry<Input>>)
    requires CleanInputs(es)
    ensures CleanItems(Texts(es)) && NulFree(Texts(es))
    ensures Unique(es) ==> Unique(Texts(es)) && Unique(InputKeys(es))
  {
    forall i | 0 <= i < |es| ensures Free(';', Texts(es)[i].value) && Free('\0', Texts(es)[i].value) {
      ValueFree(es[i].value);
    }
  }

  lemma UnitNulFree(key: string, text: string)
    requires Free('\0', key) && Free('\0', text)
    ensures Free('\0', Unit(key, text) + ";")
  {
    FreeConcat('\0', "=", text);
    FreeConcat('\0', key, "=" + text);
    FreeConcat('\0', Unit(key, text), ";");
  }

  lemma {:induction false} UnitsNulFree(es: seq<Entry<string>>)
    requires NulFree(es)
    ensures Free('\0', Units(es))
  {
    hide Unit, Free;
    if |es| > 0 {
      var n := |es| - 1;
      UnitsNulFree(es[..n]);
      UnitNulFree(es[n].key, es[n].value);
      FreeConcat('\0', Units(es[..n]), Unit(es[n].key, es[n].value) + ";");
    } else {
      NothingFree();
    }
  }

  lemma NothingFree()
    ensures Free('\0', "")
  {
  }

  lemma SortedNulFree(es: seq<Entry<string>>)
    requires NulFree(es)
    ensures NulFree(ByKey(es))
  {
    var s := ByKey(es);
    SortKeeps(es, (e: Entry<string>) => [e.key]);
    forall i | 0 <= i < |s| ensures Free('\0', s[i].key) && Free('\0', s[i].value) {
      assert s[i] in multiset(es);
    }
  }

  lemma TextsWithin(a: seq<Entry<Input>>, b: seq<Entry<Input>>)
    requires CleanInputs(a) && CleanInputs(b)
    ensures (forall e :: e in Texts(a) ==> e in Texts(b)) <==> (forall e :: e in InputKeys(a) ==> e in InputKeys(b))
  {
    forall i, j | 0 <= i < |a| && 0 <= j < |b|
      ensures Texts(a)[i] == Texts(b)[j] <==> InputKeys(a)[i] == InputKeys(b)[j]
    {
      ValueUnique(a[i].value, b[j].value);
    }
    if forall e :: e in Texts(a) ==> e in Texts(b) {
      forall e | e in InputKeys(a) ensures e in InputKeys(b) {
        var i :| 0 <= i < |a| && InputKeys(a)[i] == e;
        assert Texts(a)[i] in Texts(b);
        var j :| 0 <= j < |b| && Texts(b)[j] == Texts(a)[i];
        assert InputKeys(b)[j] == e;
      }
    }
    if forall e :: e in InputKeys(a) ==> e in InputKeys(b) {
      forall e | e in Texts(a) ensures e in Texts(b) {
        var i :| 0 <= i < |a| && Texts(a)[i] == e;
        assert InputKeys(a)[i] in InputKeys(b);
        var j :| 0 <= j < |b| && InputKeys(b)[j] == InputKeys(a)[i];
        assert Texts(b)[j] == e;
      }
    }
  }

  /** The inputs section stands for the ports and their values. */
  lemma InputsMeaning(a: seq<Entry<Input>>, b: seq<Entry<Input>>)
    requires CleanInputs(a) && CleanInputs(b) && Unique(a) && Unique(b)
    ensures Units(ByKey(Texts(a))) == Units(ByKey(Texts(b))) <==> Lookup(InputKeys(a)) == Lookup(InputKeys(b))
    ensures Free('\0', Units(ByKey(Texts(a))))
  {
    hide Units, ByKey, Lookup, Texts, InputKeys, Unique, CleanInputs, CleanItems, NulFree, Free;
    TextsClean(a);
    TextsClean(b);
    ItemsMeaning(Texts(a), Texts(b));
    SameLookup(Texts(a), Texts(b));
    SameLookup(InputKeys(a), InputKeys(b));
    TextsWithin(a, b);
    TextsWithin(b, a);
    SortedNulFree(Texts(a));
    UnitsNulFree(ByKey(Texts(a)));
  }

  // ---------------------------------------------------------------- the whole stream

  lemma ExtraMeaning(a: seq<Entry<string>>, b: seq<Entry<string>>)
    requires Unique(a) && Unique(b) && CleanItems(a) && CleanItems(b)
    ensures ExtraText(a) == ExtraText(b) <==> Lookup(a) == Lookup(b)
  {
    hide Units, ByKey, Unique, CleanItems;
    ItemsMeaning(a, b);
    LookupKeys(a);
    LookupKeys(b);
    if |a| > 0 && |b| > 0 {
      if ExtraText(a) == ExtraText(b) {
        Cut("\0extra=", Units(ByKey(a)), Units(ByKey(b)));
      }
    } else {
      if |a| > 0 { assert a[0].key in Lookup(a); }
      if |b| > 0 { assert b[0].key in Lookup(b); }
    }
  }

  /** One tagged section of the stream. */
  lemma Section(tag: string, x: string, y: string, r: string, t: string)
    requires tag != [] && tag[0] == '\0' && Free('\0', x) && Free('\0', y)
    requires x + (tag + r) == y + (tag + t)
    ensures x == y && r == t
  {
    assert tag == ['\0'] + tag[1..];
    Assoc(['\0'], tag[1..], r);
    Assoc(['\0'], tag[1..], t);
    SplitFirst('\0', x, y, tag[1..] + r, tag[1..] + t);
    Cut(tag[1..], r, t);
  }

  lemma VersionFree(v: int)
    ensures Free('\0', IntText(v))
  {
    IntIsNumeric(v);
    assert forall c :: c in IntText(v) ==> NumChar(c);
  }

  lemma VersionUnique(v: int, w: int)
    requires IntText(v) == IntText(w)
    ensures v == w
  {
    ReadIntText(v);
    ReadIntText(w);
  }

  /** The sections of equal streams are equal, one by one. */
  lemma SectionsEqual(a: Request, b: Request, ja: string, jb: string)
    requires Free('\0', a.id) && Free('\0', b.id)
    requires Free('\0', Units(ByKey(Texts(a.inputs)))) && Free('\0', Units(ByKey(Texts(b.inputs))))
    requires Stream(a, ja) == Stream(b, jb)
    ensures a.id == b.id && a.version == b.version
    ensures Units(ByKey(Texts(a.inputs))) == Units(ByKey(Texts(b.inputs)))
    ensures ja + ExtraText(a.extra) == jb + ExtraText(b.extra)
  {
    hide Units, ByKey, Texts, ExtraText, IntText, Free;
    VersionFree(a.version);
    VersionFree(b.version);
    var ea, eb := ja + ExtraText(a.extra), jb + ExtraText(b.extra);
    var ia, ib := Units(ByKey(Texts(a.inputs))), Units(ByKey(Texts(b.inputs)));
    var pa, pb := ia + ("\0params=" + ea), ib + ("\0params=" + eb);
    var va, vb := IntText(a.version) + ("\0inputs=" + pa), IntText(b.version) + ("\0inputs=" + pb);
    Cut("id=", a.id + ("\0v=" + va), b.id + ("\0v=" + vb));
    Section("\0v=", a.id, b.id, va, vb);
    Section("\0inputs=", IntText(a.version), IntText(b.version), pa, pb);
    VersionUnique(a.version, b.version);
    Section("\0params=", ia, ib, ea, eb);
  }

  lemma ExtraDelimited(extra: seq<Entry<string>>)
    ensures Delimited(ExtraText(extra))
  {
  }

  lemma CleanParts(q: Request)
    requires Clean(q)
    ensures CleanInputs(q.inputs) && CleanItems(q.extra) && Unique(q.inputs) && Unique(q.extra) && Free('\0', q.id)
    ensures WellFormed(q.params) && AllFinite(q.params)
  {
  }

  /** The parameters and the extra keys share the end of the stream. */
  lemma TailUnique(a: Request, b: Request)
    requires AllFinite(a.params) && AllFinite(b.params) && a.prec == b.prec
    requires CanonicalText(a.params, a.prec).Ok? && CanonicalText(b.params, b.prec).Ok?
    requires CanonicalText(a.params, a.prec).value + ExtraText(a.extra) == CanonicalText(b.params, b.prec).value + ExtraText(b.extra)
    ensures CanonicalText(a.params, a.prec) == CanonicalText(b.params, b.prec) && ExtraText(a.extra) == ExtraText(b.extra)
  {
    hide Text, Canon, ExtraText, Printable, Delimited;
    ExtraDelimited(a.extra);
    ExtraDelimited(b.extra);
    TextUnique(Canon(a.params, None, a.prec), Canon(b.params, None, b.prec), ExtraText(a.extra), ExtraText(b.extra));
  }

  /** The key is faithful: the streams of two requests of one parameter model are equal exactly when the
      requests agree on all that matters. */
  lemma KeyIsFaithful(a: Request, b: Request)
    requires Clean(a) && Clean(b) && a.prec == b.prec
    ensures CanonicalText(a.params, a.prec).Ok? && CanonicalText(b.params, b.prec).Ok?
    ensures Stream(a, CanonicalText(a.params, a.prec).value) == Stream(b, CanonicalText(b.params, b.prec).value)
      <==> SameExecution(a, b)
  {
    hide Clean, Units, ByKey, Texts, InputKeys, Lookup, ExtraText, IntText, CanonicalText, CleanInputs, CleanItems, Unique, Free,
      WellFormed, AllFinite, Equiv;
    CleanParts(a);
    CleanParts(b);
    TextFaithful(a.params, b.params, a.prec);
    InputsMeaning(a.inputs, b.inputs);
    InputsMeaning(b.inputs, a.inputs);
    ExtraMeaning(a.extra, b.extra);
    var ja, jb := CanonicalText(a.params, a.prec).value, CanonicalText(b.params, b.prec).value;
    if Stream(a, ja) == Stream(b, jb) {
      SectionsEqual(a, b, ja, jb);
      TailUnique(a, b);
    }
  }
}
