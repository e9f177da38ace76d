/** Evaluation from scratch as the one solution of the template's data-flow equations. */
module FromScratch {
  import opened Models
  import opened Wrappers
  import opened Topology
  import opened Runtime
  import opened Incremental

  /** `s` has the result of running it on the values of its inputs, and its outputs carry that result. */
  ghost predicate NodeEvaluated(w: World, rq: Request, s: NodeSpec, sc: Scratch) {
    && s.id in sc.results
    && sc.results[s.id] == ScratchNode(w, rq, sc.made, s)
    && OutputsCarry(w, s, sc)
  }

  ghost predicate OutputsCarry(w: World, s: NodeSpec, sc: Scratch)
    requires s.id in sc.results
  {
    forall p :: p in OutputsOf(w, s) ==>
      Key(s.id, p) in sc.made && sc.made[Key(s.id, p)] == PortValue(sc.results[s.id], p)
  }

  /** Every node is evaluated; nothing is said about an order of evaluation, keys or a cache. */
  ghost predicate Evaluates(w: World, rq: Request, nodes: seq<NodeSpec>, sc: Scratch) {
    && sc.made.Keys == AllOutputKeys(w, nodes)
    && (forall s :: s in nodes ==> NodeEvaluated(w, rq, s, sc))
  }

  /** A node only depends on the values its edges name. */
  lemma ScratchNodeLocal(w: World, rq: Request, m1: map<string, Option<Value>>, m2: map<string, Option<Value>>, s: NodeSpec)
    requires forall p :: p in s.edges ==> (s.edges[p] in m1 <==> s.edges[p] in m2)
    requires forall p :: p in s.edges && s.edges[p] in m1 ==> m1[s.edges[p]] == m2[s.edges[p]]
    ensures ScratchNode(w, rq, m1, s) == ScratchNode(w, rq, m2, s)
  {
    if s.kind in w.registry {
      var cls := w.registry[s.kind];
      assert forall p :: HasInput(rq.job, m1, s, p) <==> HasInput(rq.job, m2, s, p);
      assert forall p :: HasInput(rq.job, m1, s, p) ==> InputValue(rq.job, m1, s, p) == InputValue(rq.job, m2, s, p);
      if InputsReady(rq.job, m1, s, cls) {
        assert InputsReady(rq.job, m2, s, cls);
        var f1, f2 := FedInputs(rq.job, m1, s, cls), FedInputs(rq.job, m2, s, cls);
        assert f1.Keys == f2.Keys;
        assert f1 == f2;
      }
    }
  }

  /** No edge of a node reads from a later node, or from itself. */
  lemma NoLateEdge(specs: seq<NodeSpec>, ids: set<string>, i: nat, n: nat, p: string)
    requires ProperIds(specs) && ProducersFirst(specs, ids) && i <= n < |specs| && Ids(specs) <= ids
    requires p in specs[i].edges
    ensures NodeOf(specs[i].edges[p]) != specs[n].id
  {
    assert ReadsBack(specs[i], ids, Ids(specs[..i]));
    assert specs[n].id in Ids(specs);
  }

  lemma EdgeOutside(w: World, specs: seq<NodeSpec>, ids: set<string>, i: nat, n: nat, p: string)
    requires ProperIds(specs) && ProducersFirst(specs, ids) && i <= n < |specs| && Ids(specs) <= ids
    requires p in specs[i].edges
    ensures specs[i].edges[p] !in OutputKeys(specs[n].id, OutputsOf(w, specs[n]))
  {
    NoLateEdge(specs, ids, i, n, p);
    if specs[i].edges[p] in OutputKeys(specs[n].id, OutputsOf(w, specs[n])) {
      var q :| q in OutputsOf(w, specs[n]) && Key(specs[n].id, q) == specs[i].edges[p];
      NodeOfKey(specs[n].id, q);
    }
  }

  lemma EvaluatedStays(w: World, rq: Request, s: NodeSpec, sc: Scratch, spec: NodeSpec, r: Option<map<string, Content>>)
    requires NodeEvaluated(w, rq, s, sc) && DotFree(s.id) && DotFree(spec.id) && s.id != spec.id
    requires forall p :: p in s.edges ==> s.edges[p] !in OutputKeys(spec.id, OutputsOf(w, spec))
    ensures NodeEvaluated(w, rq, s, Scratch(sc.results[spec.id := r], sc.made + OutputValues(spec.id, OutputsOf(w, spec), r)))
  {
    var made' := sc.made + OutputValues(spec.id, OutputsOf(w, spec), r);
    ScratchNodeLocal(w, rq, sc.made, made', s);
    forall q | q in OutputsOf(w, s) ensures Key(s.id, q) !in OutputValues(spec.id, OutputsOf(w, spec), r) {
      OtherKey(spec.id, OutputsOf(w, spec), s.id, q);
    }
  }

  lemma EvaluatedNew(w: World, rq: Request, sc: Scratch, spec: NodeSpec)
    requires forall p :: p in spec.edges ==> spec.edges[p] !in OutputKeys(spec.id, OutputsOf(w, spec))
    ensures var r := ScratchNode(w, rq, sc.made, spec);
      NodeEvaluated(w, rq, spec, Scratch(sc.results[spec.id := r], sc.made + OutputValues(spec.id, OutputsOf(w, spec), r)))
  {
    var r := ScratchNode(w, rq, sc.made, spec);
    ScratchNodeLocal(w, rq, sc.made, sc.made + OutputValues(spec.id, OutputsOf(w, spec), r), spec);
    forall q | q in OutputsOf(w, spec)
      ensures Key(spec.id, q) in OutputKeys(spec.id, OutputsOf(w, spec)) && PortIn(spec.id, Key(spec.id, q)) == q
    {
    }
  }

  /** Evaluating node `n` evaluates it and keeps the nodes before it evaluated. */
  lemma PrefixStep(w: World, rq: Request, specs: seq<NodeSpec>, ids: set<string>, n: nat, i: nat, sc: Scratch)
    requires ProperIds(specs) && ProducersFirst(specs, ids) && Ids(specs) <= ids && i <= n < |specs|
    requires i < n ==> NodeEvaluated(w, rq, specs[i], sc)
    ensures NodeEvaluated(w, rq, specs[i], ScratchNext(w, rq, specs[n], sc))
  {
    forall p | p in specs[i].edges ensures specs[i].edges[p] !in OutputKeys(specs[n].id, OutputsOf(w, specs[n])) {
      EdgeOutside(w, specs, ids, i, n, p);
    }
    if i < n {
      EvaluatedStays(w, rq, specs[i], sc, specs[n], ScratchNode(w, rq, sc.made, specs[n]));
    } else {
      EvaluatedNew(w, rq, sc, specs[n]);
    }
  }

  lemma ScratchUnfold(w: World, rq: Request, specs: seq<NodeSpec>, n: nat)
    requires n < |specs|
    ensures ScratchAll(w, rq, specs[..n + 1]) == ScratchNext(w, rq, specs[n], ScratchAll(w, rq, specs[..n]))
  {
    TakeNext(specs, n);
  }

  lemma {:induction false} PrefixEvaluates(w: World, rq: Request, specs: seq<NodeSpec>, ids: set<string>, n: nat)
    requires ProperIds(specs) && ProducersFirst(specs, ids) && Ids(specs) <= ids && n <= |specs|
    ensures forall i :: 0 <= i < n ==> NodeEvaluated(w, rq, specs[i], ScratchAll(w, rq, specs[..n]))
  {
    if n > 0 {
      PrefixEvaluates(w, rq, specs, ids, n - 1);
      ScratchUnfold(w, rq, specs, n - 1);
      var sc := ScratchAll(w, rq, specs[..n - 1]);
      forall i | 0 <= i < n ensures NodeEvaluated(w, rq, specs[i], ScratchNext(w, rq, specs[n - 1], sc)) {
        PrefixStep(w, rq, specs, ids, n - 1, i, sc);
      }
    }
  }

  /** Evaluating in a topological order solves the equations. */
  lemma ScratchEvaluates(w: World, rq: Request, specs: seq<NodeSpec>, ids: set<string>)
    requires ProperIds(specs) && ProducersFirst(specs, ids) && Ids(specs) <= ids
    ensures Evaluates(w, rq, specs, ScratchAll(w, rq, specs))
  {
    PrefixEvaluates(w, rq, specs, ids, |specs|);
    assert specs[..|specs|] == specs;
    ScratchHasKeys(w, rq, specs);
  }

  /** An output key that is read belongs to an earlier node. */
  lemma ProducerIsEarlier(w: World, specs: seq<NodeSpec>, ids: set<string>, i: nat, p: string) returns (j: nat, q: string)
    requires ProperIds(specs) && ProducersFirst(specs, ids) && Ids(specs) <= ids && i < |specs|
    requires p in specs[i].edges && specs[i].edges[p] in AllOutputKeys(w, specs)
    ensures j < i && q in OutputsOf(w, specs[j]) && specs[i].edges[p] == Key(specs[j].id, q)
  {
    var s, port := OutputKeyOwner(w, specs, specs[i].edges[p]);
    var k :| 0 <= k < |specs| && specs[k] == s;
    NodeOfKey(s.id, port);
    assert ReadsBack(specs[i], ids, Ids(specs[..i]));
    assert s.id in Ids(specs);
    j, q := k, port;
  }

  /** Solutions that agree on the earlier nodes agree on the next one. */
  lemma SolutionStep(w: World, rq: Request, specs: seq<NodeSpec>, ids: set<string>, a: Scratch, b: Scratch, n: nat)
    requires ProperIds(specs) && ProducersFirst(specs, ids) && Ids(specs) <= ids && n < |specs|
    requires Evaluates(w, rq, specs, a) && Evaluates(w, rq, specs, b)
    requires forall i :: 0 <= i < n ==>
      specs[i].id in a.results && specs[i].id in b.results && a.results[specs[i].id] == b.results[specs[i].id]
    ensures ScratchNode(w, rq, a.made, specs[n]) == ScratchNode(w, rq, b.made, specs[n])
  {
    var s := specs[n];
    forall p | p in s.edges && s.edges[p] in a.made ensures a.made[s.edges[p]] == b.made[s.edges[p]] {
      var j, q := ProducerIsEarlier(w, specs, ids, n, p);
      assert NodeEvaluated(w, rq, specs[j], a) && NodeEvaluated(w, rq, specs[j], b);
    }
    ScratchNodeLocal(w, rq, a.made, b.made, s);
  }

  /** The equations have one solution. */
  lemma {:induction false} SolutionUnique(w: World, rq: Request, specs: seq<NodeSpec>, ids: set<string>, a: Scratch, b: Scratch, n: nat)
    requires ProperIds(specs) && ProducersFirst(specs, ids) && Ids(specs) <= ids && n <= |specs|
    requires Evaluates(w, rq, specs, a) && Evaluates(w, rq, specs, b)
    ensures forall i :: 0 <= i < n ==>
      specs[i].id in a.results && specs[i].id in b.results && a.results[specs[i].id] == b.results[specs[i].id]
  {
    if n > 0 {
      SolutionUnique(w, rq, specs, ids, a, b, n - 1);
      SolutionStep(w, rq, specs, ids, a, b, n - 1);
      assert NodeEvaluated(w, rq, specs[n - 1], a) && NodeEvaluated(w, rq, specs[n - 1], b);
    }
  }

  /** So any two solutions give every output key the same value. */
  lemma SolutionsAgree(w: World, rq: Request, specs: seq<NodeSpec>, ids: set<string>, a: Scratch, b: Scratch)
    requires ProperIds(specs) && ProducersFirst(specs, ids) && Ids(specs) <= ids
    requires Evaluates(w, rq, specs, a) && Evaluates(w, rq, specs, b)
    ensures a.made == b.made
  {
    SolutionUnique(w, rq, specs, ids, a, b, |specs|);
    forall k | k in a.made ensures a.made[k] == b.made[k] {
      var s, q := OutputKeyOwner(w, specs, k);
      assert NodeEvaluated(w, rq, s, a) && NodeEvaluated(w, rq, s, b);
    }
  }
}
