/** The runner's structured keys and the digests of the cache (server/runtime.py, server/canonical.py): two keys are
    the same exactly when the digested texts of the requests that stand for them are. */
module KeyDigests {
  import opened Wrappers
  import opened Sorting
  import opened Canonical
  import opened JsonText
  import opened NodeHash
  import opened KeyMeaning
  import M = Models
  import R = Runtime

  // ---------------------------------------------------------------- what stands for a key

  /** The digested text of a request. */
  function Digested(q: Request): string {
    Stream(q, if CanonicalText(q.params, q.prec).Ok? then CanonicalText(q.params, q.prec).value else "")
  }

  function FileKey(f: M.ExtRef): RefKey {
    ExtKey(f.port, f.path)
  }

  /** A list of files as the key has it: each as often, and nothing else. */
  ghost predicate SameFiles(files: multiset<M.ExtRef>, keys: multiset<RefKey>) {
    && (forall f :: files[f] == keys[FileKey(f)])
    && (forall k :: k in keys ==> k.ExtKey?)
  }

  /** The value of a port stands for the runner's input; `name` gives the digest of each key. */
  ghost predicate InputFits(name: R.Hash -> string, v: Input, k: R.KeyInput) {
    match k
    case KFile(f) => InputKeyOf(v) == OneKey(FileKey(f))
    case KFiles(fs) => InputKeyOf(v).ManyKey? && SameFiles(fs, InputKeyOf(v).refs)
    case KOutput(h, p) => InputKeyOf(v) == OneKey(IntKey(name(h), p))
  }

  /** The canonical text of a parameter of the request. */
  function ParamText(q: Request, k: string): string
    requires q.params.Dict? && HasKey(q.params.fields, k)
  {
    Text(Canon(Get(q.params.fields, k), Some(k), q.prec))
  }

  ghost predicate ParamsFit(q: Request, params: M.Params) {
    && q.params.Dict?
    && (forall k :: k in params <==> HasKey(q.params.fields, k))
    && (forall k :: k in params ==> params[k] == ParamText(q, k))
  }

  /** The request stands for the key. Precisions belong to the parameter model of a node class. */
  ghost predicate Encodes(name: R.Hash -> string, model: (string, int) -> Precisions, h: R.Hash, q: Request) {
    && Clean(q) && q.id == h.id && q.version == h.version && q.prec == model(h.id, h.version)
    && Lookup(q.extra) == h.extra && ParamsFit(q, h.params)
    && Lookup(q.inputs).Keys == h.inputs.Keys
    && (forall p :: p in h.inputs ==> InputFits(name, Lookup(q.inputs)[p], h.inputs[p]))
  }

  // ---------------------------------------------------------------- parameters

  lemma SameText(a: Json, b: Json, field: Option<string>, prec: Precisions)
    requires WellFormed(a) && WellFormed(b) && AllFinite(a) && AllFinite(b)
    ensures Text(Canon(a, field, prec)) == Text(Canon(b, field, prec)) <==> Equiv(a, b, field, prec)
  {
    hide Text, Canon, Equiv, Printable, AllFinite, WellFormed;
    RefusedExactly(a, field, prec);
    RefusedExactly(b, field, prec);
    CanonExact(a, b, field, prec);
    var x, y := Canon(a, field, prec), Canon(b, field, prec);
    if Text(x) == Text(y) {
      assert Text(x) + [] == Text(y) + [];
      NothingDelimits();
      TextUnique(x, y, [], []);
    }
  }

  lemma NothingDelimits()
    ensures Delimited([])
  {
  }

  lemma ValueOfField(v: Json, k: string)
    requires v.Dict? && WellFormed(v) && AllFinite(v) && HasKey(v.fields, k)
    ensures WellFormed(Get(v.fields, k)) && AllFinite(Get(v.fields, k))
  {
    var i :| 0 <= i < |v.fields| && v.fields[i].key == k && v.fields[i].value == Get(v.fields, k);
  }

  /** Equal parameter maps exactly for equivalent parameters. */
  lemma ParamsTell(a: Request, b: Request, pa: M.Params, pb: M.Params)
    requires ParamsFit(a, pa) && ParamsFit(b, pb) && a.prec == b.prec
    requires WellFormed(a.params) && WellFormed(b.params) && AllFinite(a.params) && AllFinite(b.params)
    ensures pa == pb <==> Equiv(a.params, b.params, None, a.prec)
  {
    hide Canon, AllFinite, WellFormed, Text;
    forall k | k in pa && k in pb
      ensures pa[k] == pb[k] <==> Equiv(Get(a.params.fields, k), Get(b.params.fields, k), Some(k), a.prec)
    {
      ValueOfField(a.params, k);
      ValueOfField(b.params, k);
      SameText(Get(a.params.fields, k), Get(b.params.fields, k), Some(k), a.prec);
    }
    DictsEquiv(a.params, b.params, a.prec);
    if Equiv(a.params, b.params, None, a.prec) {
      forall k ensures k in pa <==> k in pb {
        assert HasKey(a.params.fields, k) <==> HasKey(b.params.fields, k);
      }
    }
  }

  ghost predicate SameKeys(a: seq<Entry<Json>>, b: seq<Entry<Json>>) {
    forall k :: HasKey(a, k) <==> HasKey(b, k)
  }

  /** Equivalent values under each key of both. */
  ghost predicate AgreeByKey(a: seq<Entry<Json>>, b: seq<Entry<Json>>, prec: Precisions) {
    forall k :: HasKey(a, k) && HasKey(b, k) ==> Equiv(Get(a, k), Get(b, k), Some(k), prec)
  }

  /** Each field of `a` has its key in `b`, under an equivalent value. */
  ghost predicate Found(a: seq<Entry<Json>>, b: seq<Entry<Json>>, prec: Precisions) {
    forall i :: 0 <= i < |a| ==> HasKey(b, a[i].key) && Equiv(a[i].value, Get(b, a[i].key), Some(a[i].key), prec)
  }

  lemma FoundByKey(a: seq<Entry<Json>>, b: seq<Entry<Json>>, prec: Precisions)
    requires Found(a, b, prec)
    ensures AgreeByKey(a, b, prec) && forall k :: HasKey(a, k) ==> HasKey(b, k)
  {
    hide Equiv;
    forall k | HasKey(a, k) ensures HasKey(b, k) && Equiv(Get(a, k), Get(b, k), Some(k), prec) {
      var i :| 0 <= i < |a| && a[i].key == k && a[i].value == Get(a, k);
    }
  }

  lemma ByKeyFound(a: seq<Entry<Json>>, b: seq<Entry<Json>>, prec: Precisions)
    requires Unique(a) && AgreeByKey(a, b, prec) && SameKeys(a, b)
    ensures Found(a, b, prec)
  {
    hide Equiv, HasKey, Get, Unique;
    forall i | 0 <= i < |a| ensures HasKey(b, a[i].key) && Equiv(a[i].value, Get(b, a[i].key), Some(a[i].key), prec) {
      GetIs(a, i);
    }
  }

  lemma AllKeys(a: seq<Entry<Json>>, b: seq<Entry<Json>>)
    ensures (forall j :: 0 <= j < |b| ==> HasKey(a, b[j].key)) <==> forall k :: HasKey(b, k) ==> HasKey(a, k)
  {
    forall j | 0 <= j < |b| ensures HasKey(b, b[j].key) {
    }
    if forall j :: 0 <= j < |b| ==> HasKey(a, b[j].key) {
      forall k | HasKey(b, k) ensures HasKey(a, k) {
        var j :| 0 <= j < |b| && b[j].key == k;
      }
    }
  }

  lemma DictParts(a: Json, b: Json, prec: Precisions)
    requires a.Dict? && b.Dict? && WellFormed(a)
    ensures Unique(a.fields)
    ensures Equiv(a, b, None, prec) <==>
      (forall j :: 0 <= j < |b.fields| ==> HasKey(a.fields, b.fields[j].key)) && Found(a.fields, b.fields, prec)
  {
    hide HasKey, Get, Unique;
  }

  /** Equivalence of dicts, key by key. */
  lemma DictsEquiv(a: Json, b: Json, prec: Precisions)
    requires a.Dict? && b.Dict? && WellFormed(a)
    ensures Equiv(a, b, None, prec) <==> SameKeys(a.fields, b.fields) && AgreeByKey(a.fields, b.fields, prec)
  {
    hide Equiv, HasKey, Get, WellFormed, Found, AgreeByKey, Unique;
    DictParts(a, b, prec);
    AllKeys(a.fields, b.fields);
    if Found(a.fields, b.fields, prec) {
      FoundByKey(a.fields, b.fields, prec);
    }
    if SameKeys(a.fields, b.fields) && AgreeByKey(a.fields, b.fields, prec) {
      ByKeyFound(a.fields, b.fields, prec);
    }
  }

  // ---------------------------------------------------------------- inputs

  lemma {:induction false} LookupInputKeys(es: seq<Entry<Input>>)
    ensures Lookup(InputKeys(es)).Keys == Lookup(es).Keys
    ensures forall p :: p in Lookup(es) ==> Lookup(InputKeys(es))[p] == InputKeyOf(Lookup(es)[p])
    decreases |es|
  {
    if |es| > 0 {
      var n := |es| - 1;
      LookupInputKeys(es[..n]);
      assert InputKeys(es)[..n] == InputKeys(es[..n]);
    }
  }

  lemma SameFilesTell(f: multiset<M.ExtRef>, g: multiset<M.ExtRef>, a: multiset<RefKey>, b: multiset<RefKey>)
    requires SameFiles(f, a) && SameFiles(g, b)
    ensures f == g <==> a == b
  {
    if f == g {
      forall k ensures a[k] == b[k] {
        if k.ExtKey? {
          assert k == FileKey(M.ExtRef(k.port, k.path));
          assert f[M.ExtRef(k.port, k.path)] == a[k] && g[M.ExtRef(k.port, k.path)] == b[k];
        } else {
          assert k !in a && k !in b;
        }
      }
    }
    if a == b {
      forall x ensures f[x] == g[x] {
        assert f[x] == a[FileKey(x)] && g[x] == b[FileKey(x)];
      }
    }
  }

  /** One input of a key against one of another, when names tell the keys of their producers apart. */
  lemma InputTells(name: R.Hash -> string, v: Input, u: Input, k: R.KeyInput, l: R.KeyInput)
    requires InputFits(name, v, k) && InputFits(name, u, l)
    requires k.KOutput? && l.KOutput? && name(k.hash) == name(l.hash) ==> k.hash == l.hash
    ensures InputKeyOf(v) == InputKeyOf(u) <==> k == l
  {
    hide InputKeyOf, SameFiles;
    if k.KFiles? && l.KFiles? {
      SameFilesTell(k.files, l.files, InputKeyOf(v).refs, InputKeyOf(u).refs);
    }
  }

  /** Names tell the producers of two keys apart. */
  ghost predicate ProducersTold(name: R.Hash -> string, a: R.Hash, b: R.Hash) {
    forall p, q :: p in a.inputs && q in b.inputs && a.inputs[p].KOutput? && b.inputs[q].KOutput? ==>
      (name(a.inputs[p].hash) == name(b.inputs[q].hash) ==> a.inputs[p].hash == b.inputs[q].hash)
  }

  lemma InputsTell(name: R.Hash -> string, a: R.Hash, b: R.Hash, x: seq<Entry<Input>>, y: seq<Entry<Input>>)
    requires Lookup(x).Keys == a.inputs.Keys && Lookup(y).Keys == b.inputs.Keys && ProducersTold(name, a, b)
    requires forall p :: p in a.inputs ==> InputFits(name, Lookup(x)[p], a.inputs[p])
    requires forall p :: p in b.inputs ==> InputFits(name, Lookup(y)[p], b.inputs[p])
    ensures Lookup(InputKeys(x)) == Lookup(InputKeys(y)) <==> a.inputs == b.inputs
  {
    hide Lookup, InputKeys, InputKeyOf, InputFits;
    LookupInputKeys(x);
    LookupInputKeys(y);
    forall p | p in a.inputs && p in b.inputs
      ensures Lookup(InputKeys(x))[p] == Lookup(InputKeys(y))[p] <==> a.inputs[p] == b.inputs[p]
    {
      InputTells(name, Lookup(x)[p], Lookup(y)[p], a.inputs[p], b.inputs[p]);
    }
    if Lookup(InputKeys(x)) == Lookup(InputKeys(y)) {
      assert a.inputs.Keys == b.inputs.Keys;
      assert forall p :: p in a.inputs ==> a.inputs[p] == b.inputs[p];
    }
    if a.inputs == b.inputs {
      assert forall p :: p in Lookup(InputKeys(x)) ==> Lookup(InputKeys(x))[p] == Lookup(InputKeys(y))[p];
    }
  }

  // ---------------------------------------------------------------- one key

  lemma SameClass(a: Request, b: Request)
    requires Clean(a) && Clean(b) && Digested(a) == Digested(b)
    ensures a.id == b.id && a.version == b.version
  {
    hide Clean, Units, ByKey, Texts, InputKeys, Lookup, ExtraText, CanonicalText, CleanInputs, CleanItems, Unique, Free,
      Stream;
    CleanParts(a);
    CleanParts(b);
    InputsMeaning(a.inputs, b.inputs);
    InputsMeaning(b.inputs, a.inputs);
    SectionsEqual(a, b, if CanonicalText(a.params, a.prec).Ok? then CanonicalText(a.params, a.prec).value else "",
                  if CanonicalText(b.params, b.prec).Ok? then CanonicalText(b.params, b.prec).value else "");
  }

  lemma SameModel(a: Request, b: Request)
    requires Clean(a) && Clean(b) && a.prec == b.prec
    ensures Digested(a) == Digested(b) <==> SameExecution(a, b)
  {
    hide Clean, Stream, SameExecution, CanonicalText;
    KeyIsFaithful(a, b);
  }

  /** Requests that stand for two keys have one digested text exactly if the keys are the same. */
  lemma DigestsTell(name: R.Hash -> string, model: (string, int) -> Precisions, a: R.Hash, b: R.Hash, x: Request, y: Request)
    requires Encodes(name, model, a, x) && Encodes(name, model, b, y) && ProducersTold(name, a, b)
    ensures Digested(x) == Digested(y) <==> a == b
  {
    hide Digested, Lookup, InputKeys, InputFits, ParamsFit, ProducersTold, Clean, Equiv;
    if Digested(x) == Digested(y) {
      SameClass(x, y);
    }
    if a.id == b.id && a.version == b.version {
      CleanParts(x);
      CleanParts(y);
      SameModel(x, y);
      ParamsTell(x, y, a.params, b.params);
      InputsTell(name, a, b, x.inputs, y.inputs);
    }
  }

  // ---------------------------------------------------------------- keys all the way up

  /** Each key is named by the digest of a request that stands for it, and so are the keys of its producers. */
  ghost predicate Named(digest: string -> string, name: R.Hash -> string, model: (string, int) -> Precisions, h: R.Hash)
    decreases h
  {
    && (exists q :: Encodes(name, model, h, q) && name(h) == digest(Digested(q)))
    && (forall p :: p in h.inputs ==> NamedInput(digest, name, model, h.inputs[p]))
  }

  ghost predicate NamedInput(digest: string -> string, name: R.Hash -> string, model: (string, int) -> Precisions, k: R.KeyInput)
    decreases k
  {
    k.KOutput? ==> Named(digest, name, model, k.hash)
  }

  ghost predicate Injective(digest: string -> string) {
    forall x, y :: digest(x) == digest(y) ==> x == y
  }

  /** With an injective digest the names of keys tell the keys apart, however deep they are nested: comparing digests, as
      the cache does, is comparing what the runner's keys are made of. */
  lemma {:induction false} NamesTellKeys(digest: string -> string, name: R.Hash -> string, model: (string, int) -> Precisions,
                                         a: R.Hash, b: R.Hash)
    requires Injective(digest) && Named(digest, name, model, a) && Named(digest, name, model, b)
    ensures name(a) == name(b) <==> a == b
    decreases a
  {
    hide Encodes, Digested, Injective;
    var x :| Encodes(name, model, a, x) && name(a) == digest(Digested(x));
    var y :| Encodes(name, model, b, y) && name(b) == digest(Digested(y));
    forall p, q | p in a.inputs && q in b.inputs && a.inputs[p].KOutput? && b.inputs[q].KOutput?
      ensures name(a.inputs[p].hash) == name(b.inputs[q].hash) ==> a.inputs[p].hash == b.inputs[q].hash
    {
      assert NamedInput(digest, name, model, a.inputs[p]) && NamedInput(digest, name, model, b.inputs[q]);
      NamesTellKeys(digest, name, model, a.inputs[p].hash, b.inputs[q].hash);
    }
    DigestsTell(name, model, a, b, x, y);
    InjectiveAt(digest, Digested(x), Digested(y));
  }

  lemma InjectiveAt(digest: string -> string, x: string, y: string)
    requires Injective(digest)
    ensures digest(x) == digest(y) <==> x == y
  {
  }
}
