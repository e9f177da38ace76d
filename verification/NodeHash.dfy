/** The cache key of a node execution (server/canonical.py): the stream of text fed to the digest.
    The digest is injective, so two keys are equal when their streams are. */
module NodeHash {
  import opened Wrappers
  import opened Sorting
  import opened Decimals
  import opened Canonical
  import opened JsonText

  datatype Ref = Ref(hash: string, port: string, path: string)

  /** A port's value: one ref, or a list of them. */
  datatype Input = One(ref: Ref) | Many(refs: seq<Ref>)

  datatype Request = Request(
    id: string, version: int, inputs: seq<Entry<Input>>, params: Json, prec: Precisions, extra: seq<Entry<string>>)

  // ---------------------------------------------------------------- the stream

  /** The digest under construction. */
  class Hasher {
    var fed: string

    constructor ()
      ensures fed == ""
    {
      fed := "";
    }

    method Update(s: string)
      modifies this
      ensures fed == old(fed) + s
    {
      fed := fed + s;
    }
  }

  /** Only an external ref is told apart by its path. */
  function RefText(r: Ref): string {
    r.hash + ("/" + (r.port + if r.hash == "ext" then "@" + r.path else ""))
  }

  function RefRank(r: Ref): Rank {
    [r.hash, r.port, r.path]
  }

  function Listed(refs: seq<Ref>): string
    decreases |refs|, 1
  {
    if |refs| == 0 then "" else Before(refs) + RefText(refs[|refs| - 1])
  }

  /** What stands before the last of the listed refs. */
  function Before(refs: seq<Ref>): string
    requires |refs| > 0
    decreases |refs|, 0
  {
    if |refs| == 1 then "" else Listed(refs[..|refs| - 1]) + ","
  }

  function ValueText(v: Input): string {
    match v
    case One(r) => RefText(r)
    case Many(refs) => "[" + (Listed(Sort(refs, RefRank)) + "]")
  }

  function Unit(key: string, text: string): string {
    key + ("=" + text)
  }

  /** Items in order, each closed by a semicolon. */
  function Units(es: seq<Entry<string>>): string {
    if |es| == 0 then "" else Units(es[..|es| - 1]) + (Unit(es[|es| - 1].key, es[|es| - 1].value) + ";")
  }

  /** The items with their values as text. */
  function Texts(es: seq<Entry<Input>>): (r: seq<Entry<string>>)
    ensures |r| == |es| && forall i :: 0 <= i < |es| ==> r[i] == Entry(es[i].key, ValueText(es[i].value))
  {
    seq(|es|, i requires 0 <= i < |es| => Entry(es[i].key, ValueText(es[i].value)))
  }

  function ExtraText(extra: seq<Entry<string>>): string {
    if |extra| == 0 then "" else "\0extra=" + Units(ByKey(extra))
  }

  /** The whole stream; `json` is the canonical text of the parameters. */
  function Stream(q: Request, json: string): string {
    "id=" + (q.id + ("\0v=" + (IntText(q.version) +
      ("\0inputs=" + (Units(ByKey(Texts(q.inputs))) + ("\0params=" + (json + ExtraText(q.extra))))))))
  }

  lemma RefFed(fed: string, r: Ref)
    ensures var base := ((fed + r.hash) + "/") + r.port;
      (if r.hash == "ext" then (base + "@") + r.path else base) == fed + RefText(r)
  {
    var tail := if r.hash == "ext" then "@" + r.path else "";
    Assoc(fed, r.hash, "/" + (r.port + tail));
    Assoc(fed + r.hash, "/", r.port + tail);
    Assoc((fed + r.hash) + "/", r.port, tail);
    Assoc(((fed + r.hash) + "/") + r.port, "@", r.path);
    assert (((fed + r.hash) + "/") + r.port) + "" == ((fed + r.hash) + "/") + r.port;
  }

  method EncodeRef(h: Hasher, r: Ref)
    modifies h
    ensures h.fed == old(h.fed) + RefText(r)
  {
    hide RefText;
    RefFed(h.fed, r);
    h.Update(r.hash);
    h.Update("/");
    h.Update(r.port);
    if r.hash == "ext" {
      h.Update("@");
      h.Update(r.path);
    }
  }

  lemma ListedNothing()
    ensures Listed([]) == ""
  {
  }

  lemma ListFed(fed: string, ordered: seq<Ref>, i: nat)
    requires i < |ordered|
    ensures (if i > 0 then (fed + Listed(ordered[..i])) + "," else fed + Listed(ordered[..i])) + RefText(ordered[i])
         == fed + Listed(ordered[..i + 1])
  {
    hide RefText;
    assert ordered[..i + 1][..i] == ordered[..i];
    Assoc(fed, Before(ordered[..i + 1]), RefText(ordered[i]));
    Assoc(fed, Listed(ordered[..i]), ",");
    assert fed + "" == fed;
  }

  /** Refs in order, separated by commas. */
  method EncodeList(h: Hasher, ordered: seq<Ref>)
    modifies h
    ensures h.fed == old(h.fed) + Listed(ordered)
  {
    hide RefText, Listed;
    ListedNothing();
    assert ordered[..0] == [];
    assert old(h.fed) + "" == old(h.fed);
    for i := 0 to |ordered|
      invariant h.fed == old(h.fed) + Listed(ordered[..i])
    {
      ListFed(old(h.fed), ordered, i);
      if i > 0 {
        h.Update(",");
      }
      EncodeRef(h, ordered[i]);
    }
    assert ordered[..|ordered|] == ordered;
  }

  method EncodeInput(h: Hasher, v: Input)
    modifies h
    ensures h.fed == old(h.fed) + ValueText(v)
  {
    match v
    case One(r) => EncodeRef(h, r);
    case Many(refs) =>
      var ordered := Sort(refs, RefRank);
      ghost var fed := h.fed;
      h.Update("[");
      EncodeList(h, ordered);
      h.Update("]");
      Assoc(fed, "[", Listed(ordered));
      Assoc(fed, "[" + Listed(ordered), "]");
      Assoc("[", Listed(ordered), "]");
  }

  lemma UnitsNext(es: seq<Entry<string>>, i: nat)
    requires i < |es|
    ensures Units(es[..i + 1]) == Units(es[..i]) + (Unit(es[i].key, es[i].value) + ";")
  {
    assert es[..i + 1][..i] == es[..i];
  }

  lemma UnitFed(fed: string, units: string, key: string, text: string)
    ensures (((fed + units) + key + "=") + text) + ";" == fed + (units + (Unit(key, text) + ";"))
  {
    Assoc(fed, units, Unit(key, text) + ";");
    Assoc(fed + units, key, "=");
    Assoc(fed + units, key + "=", text);
    Assoc(key, "=", text);
    Assoc(fed + units, Unit(key, text), ";");
  }

  method EncodeInputs(h: Hasher, inputs: seq<Entry<Input>>)
    modifies h
    ensures h.fed == old(h.fed) + Units(Texts(inputs))
  {
    hide Texts, Unit, ValueText;
    for i := 0 to |inputs|
      invariant h.fed == old(h.fed) + Units(Texts(inputs)[..i])
    {
      UnitsNext(Texts(inputs), i);
      UnitFed(old(h.fed), Units(Texts(inputs)[..i]), inputs[i].key, ValueText(inputs[i].value));
      h.Update(inputs[i].key);
      h.Update("=");
      EncodeInput(h, inputs[i].value);
      h.Update(";");
    }
    assert Texts(inputs)[..|inputs|] == Texts(inputs);
  }

  method EncodeExtra(h: Hasher, extra: seq<Entry<string>>)
    modifies h
    ensures h.fed == old(h.fed) + ExtraText(extra)
  {
    hide Unit, ByKey;
    if |extra| > 0 {
      var ordered := ByKey(extra);
      h.Update("\0extra=");
      ghost var fed := h.fed;
      for i := 0 to |ordered|
        invariant h.fed == fed + Units(ordered[..i])
      {
        UnitsNext(ordered, i);
        UnitFed(fed, Units(ordered[..i]), ordered[i].key, ordered[i].value);
        h.Update(ordered[i].key);
        h.Update("=");
        h.Update(ordered[i].value);
        h.Update(";");
      }
      assert ordered[..|ordered|] == ordered;
      Assoc(old(h.fed), "\0extra=", Units(ordered));
    }
  }

  /** Feeds a request; parameters that JSON cannot express are refused. */
  method ComputeHash(q: Request) returns (r: Result<string, string>)
    ensures CanonicalText(q.params, q.prec).Err? ==> r == CanonicalText(q.params, q.prec)
    ensures CanonicalText(q.params, q.prec).Ok? ==> r == Ok(Stream(q, CanonicalText(q.params, q.prec).value))
  {
    hide Units, ByKey, Texts, ExtraText, IntText, CanonicalText, Stream;
    var h := new Hasher();
    h.Update("id=");
    assert h.fed == "id=";
    h.Update(q.id);
    h.Update("\0v=");
    h.Update(IntText(q.version));
    h.Update("\0inputs=");
    SortTexts(q.inputs);
    EncodeInputs(h, ByKey(q.inputs));
    h.Update("\0params=");
    var json := CanonicalText(q.params, q.prec);
    if json.Err? {
      return json;
    }
    h.Update(json.value);
    EncodeExtra(h, q.extra);
    StreamPieces(q, json.value);
    return Ok(h.fed);
  }

  lemma StreamPieces(q: Request, json: string)
    ensures Stream(q, json) == "id=" + q.id + "\0v=" + IntText(q.version) + "\0inputs=" + Units(ByKey(Texts(q.inputs)))
      + "\0params=" + json + ExtraText(q.extra)
  {
    hide IntText, Units, ByKey, ExtraText;
  }

  lemma {:induction false} InsertTexts(e: Entry<Input>, es: seq<Entry<Input>>)
    ensures Texts(Insert(e, es, (x: Entry<Input>) => [x.key])) ==
            Insert(Entry(e.key, ValueText(e.value)), Texts(es), (x: Entry<string>) => [x.key])
  {
    if |es| > 0 && RankLeq([es[0].key], [e.key]) {
      InsertTexts(e, es[1..]);
      assert Texts(es)[1..] == Texts(es[1..]);
    }
  }

  lemma {:induction false} SortRankTexts(es: seq<Entry<Input>>)
    ensures Texts(Sort(es, (x: Entry<Input>) => [x.key])) == Sort(Texts(es), (x: Entry<string>) => [x.key])
  {
    if |es| > 0 {
      var n := |es| - 1;
      SortRankTexts(es[..n]);
      assert Texts(es)[..n] == Texts(es[..n]);
      InsertTexts(es[n], Sort(es[..n], (x: Entry<Input>) => [x.key]));
    }
  }

  /** Encoding the sorted items is encoding the items, sorted. */
  lemma SortTexts(es: seq<Entry<Input>>)
    ensures Texts(ByKey(es)) == ByKey(Texts(es))
  {
    SortRankTexts(es);
  }
}
