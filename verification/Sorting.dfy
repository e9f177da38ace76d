/** Python's `sorted`: code-point order on strings, lexicographic order on tuples of strings,
    and a stable sort by a key. */
module Sorting {

  predicate StrLeq(a: string, b: string) {
    a == [] || (b != [] && (a[0] < b[0] || (a[0] == b[0] && StrLeq(a[1..], b[1..]))))
  }

  lemma {:induction false} StrAntisymmetric(a: string, b: string)
    requires StrLeq(a, b) && StrLeq(b, a)
    ensures a == b
  {
    if a != [] && b != [] {
      StrAntisymmetric(a[1..], b[1..]);
      assert a == [a[0]] + a[1..] && b == [b[0]] + b[1..];
    }
  }

  lemma {:induction false} StrTotal(a: string, b: string)
    ensures StrLeq(a, b) || StrLeq(b, a)
  {
    if a != [] && b != [] {
      StrTotal(a[1..], b[1..]);
    }
  }

  lemma {:induction false} StrTransitive(a: string, b: string, c: string)
    requires StrLeq(a, b) && StrLeq(b, c)
    ensures StrLeq(a, c)
  {
    if a != [] && b != [] && c != [] && a[0] == b[0] == c[0] {
      StrTransitive(a[1..], b[1..], c[1..]);
    }
  }

  /** A sort key: a tuple of strings. */
  type Rank = seq<string>

  predicate RankLeq(a: Rank, b: Rank) {
    a == [] || (b != [] && (if a[0] == b[0] then RankLeq(a[1..], b[1..]) else StrLeq(a[0], b[0])))
  }

  lemma {:induction false} RankAntisymmetric(a: Rank, b: Rank)
    requires RankLeq(a, b) && RankLeq(b, a)
    ensures a == b
  {
    if a != [] && b != [] {
      if a[0] == b[0] {
        RankAntisymmetric(a[1..], b[1..]);
        assert a == [a[0]] + a[1..] && b == [b[0]] + b[1..];
      } else {
        StrAntisymmetric(a[0], b[0]);
      }
    }
  }

  lemma {:induction false} RankTotal(a: Rank, b: Rank)
    ensures RankLeq(a, b) || RankLeq(b, a)
  {
    if a != [] && b != [] {
      if a[0] == b[0] {
        RankTotal(a[1..], b[1..]);
      } else {
        StrTotal(a[0], b[0]);
      }
    }
  }

  lemma {:induction false} RankTransitive(a: Rank, b: Rank, c: Rank)
    requires RankLeq(a, b) && RankLeq(b, c)
    ensures RankLeq(a, c)
  {
    if a != [] && b != [] && c != [] {
      if a[0] == b[0] == c[0] {
        RankTransitive(a[1..], b[1..], c[1..]);
      } else {
        if a[0] == b[0] || b[0] == c[0] {
        } else {
          StrTransitive(a[0], b[0], c[0]);
          if a[0] == c[0] {
            StrAntisymmetric(a[0], b[0]);
          }
        }
      }
    }
  }

  ghost predicate Sorted(ranks: seq<Rank>) {
    forall i, j :: 0 <= i < j < |ranks| ==> RankLeq(ranks[i], ranks[j])
  }

  function Ranks<T>(s: seq<T>, rank: T -> Rank): (r: seq<Rank>)
    ensures |r| == |s| && forall i :: 0 <= i < |s| ==> r[i] == rank(s[i])
  {
    if s == [] then [] else [rank(s[0])] + Ranks(s[1..], rank)
  }

  /** Puts `x` before the first element of strictly higher rank. */
  function Insert<T>(x: T, s: seq<T>, rank: T -> Rank): seq<T> {
    if s == [] || !RankLeq(rank(s[0]), rank(x)) then [x] + s else [s[0]] + Insert(x, s[1..], rank)
  }

  function Sort<T>(s: seq<T>, rank: T -> Rank): seq<T> {
    if s == [] then [] else Insert(s[|s| - 1], Sort(s[..|s| - 1], rank), rank)
  }

  lemma {:induction false} InsertKeeps<T>(x: T, s: seq<T>, rank: T -> Rank)
    ensures multiset(Insert(x, s, rank)) == multiset(s) + multiset{x}
  {
    if s == [] || !RankLeq(rank(s[0]), rank(x)) {
    } else {
      InsertKeeps(x, s[1..], rank);
      assert s == [s[0]] + s[1..];
    }
  }

  lemma {:induction false} SortKeeps<T>(s: seq<T>, rank: T -> Rank)
    ensures multiset(Sort(s, rank)) == multiset(s)
  {
    if s != [] {
      var n := |s| - 1;
      SortKeeps(s[..n], rank);
      InsertKeeps(s[n], Sort(s[..n], rank), rank);
      assert s == s[..n] + [s[n]];
    }
  }

  lemma SortedTail(ranks: seq<Rank>)
    requires ranks != [] && Sorted(ranks)
    ensures Sorted(ranks[1..]) && forall r :: r in ranks[1..] ==> RankLeq(ranks[0], r)
  {
  }

  lemma SortedCons(r: Rank, ranks: seq<Rank>)
    requires Sorted(ranks) && forall q :: q in ranks ==> RankLeq(r, q)
    ensures Sorted([r] + ranks)
  {
  }

  lemma {:induction false} InsertSorted<T>(x: T, s: seq<T>, rank: T -> Rank)
    requires Sorted(Ranks(s, rank))
    ensures Sorted(Ranks(Insert(x, s, rank), rank))
    ensures forall r :: r in Ranks(Insert(x, s, rank), rank) ==> r == rank(x) || r in Ranks(s, rank)
  {
    if s == [] {
      assert Ranks([x], rank) == [rank(x)];
    } else if !RankLeq(rank(s[0]), rank(x)) {
      assert Ranks([x] + s, rank) == [rank(x)] + Ranks(s, rank);
      RankTotal(rank(s[0]), rank(x));
      forall q | q in Ranks(s, rank) ensures RankLeq(rank(x), q) {
        SortedTail(Ranks(s, rank));
        if q != rank(s[0]) {
          assert q in Ranks(s, rank)[1..];
          RankTransitive(rank(x), rank(s[0]), q);
        }
      }
      SortedCons(rank(x), Ranks(s, rank));
    } else {
      assert Ranks(s, rank)[1..] == Ranks(s[1..], rank);
      SortedTail(Ranks(s, rank));
      InsertSorted(x, s[1..], rank);
      var tail := Insert(x, s[1..], rank);
      assert Ranks([s[0]] + tail, rank) == [rank(s[0])] + Ranks(tail, rank);
      SortedCons(rank(s[0]), Ranks(tail, rank));
    }
  }

  lemma {:induction false} SortSorted<T>(s: seq<T>, rank: T -> Rank)
    ensures Sorted(Ranks(Sort(s, rank), rank))
  {
    if s != [] {
      SortSorted(s[..|s| - 1], rank);
      InsertSorted(s[|s| - 1], Sort(s[..|s| - 1], rank), rank);
    }
  }

  lemma HeadKeeps<T>(s: seq<T>)
    requires s != []
    ensures s == [s[0]] + s[1..] && multiset(s) == multiset(s[1..]) + multiset{s[0]}
  {
    assert s == [s[0]] + s[1..];
  }

  lemma SameRest<T>(a: multiset<T>, b: multiset<T>, x: multiset<T>)
    requires a + x == b + x
    ensures a == b
  {
    forall t ensures a[t] == b[t] {
      assert (a + x)[t] == (b + x)[t];
    }
  }

  /** Sorted sequences with the same contents are the same sequence. */
  lemma {:induction false} SortedUnique(a: seq<Rank>, b: seq<Rank>)
    requires Sorted(a) && Sorted(b) && multiset(a) == multiset(b)
    ensures a == b
  {
    if a == [] {
      assert |multiset(b)| == 0;
    } else {
      assert a[0] in multiset(b) && b != [] && b[0] in multiset(a);
      assert a[0] in b && b[0] in a;
      if a[0] != b[0] {
        SortedTail(a);
        SortedTail(b);
        assert b[0] in a[1..] && a[0] in b[1..];
        RankAntisymmetric(a[0], b[0]);
      }
      HeadKeeps(a);
      HeadKeeps(b);
      SameRest(multiset(a[1..]), multiset(b[1..]), multiset{a[0]});
      SortedTail(a);
      SortedTail(b);
      SortedUnique(a[1..], b[1..]);
    }
  }

  // ---------------------------------------------------------------- dicts

  /** One item of a dict. */
  datatype Entry<+V> = Entry(key: string, value: V)

  /** No key twice, as in any dict. The sequence is the insertion order. */
  predicate Unique<V>(es: seq<Entry<V>>) {
    forall i, j :: 0 <= i < j < |es| ==> es[i].key != es[j].key
  }

  function ByKey<V>(es: seq<Entry<V>>): seq<Entry<V>> {
    Sort(es, (e: Entry<V>) => [e.key])
  }

  function Drop<T>(s: seq<T>, j: nat): (r: seq<T>)
    requires j < |s|
    ensures |r| == |s| - 1
  {
    s[..j] + s[j + 1..]
  }

  lemma DropKeeps<T>(s: seq<T>, j: nat)
    requires j < |s|
    ensures multiset(s) == multiset(Drop(s, j)) + multiset{s[j]}
  {
    assert s == s[..j] + [s[j]] + s[j + 1..];
  }

  lemma DropAt<T>(s: seq<T>, j: nat, i: nat)
    requires j < |s| && i < |s| - 1
    ensures Drop(s, j)[i] == if i < j then s[i] else s[i + 1]
  {
  }

  lemma RanksDrop<T>(s: seq<T>, rank: T -> Rank, j: nat)
    requires j < |s|
    ensures Ranks(Drop(s, j), rank) == Drop(Ranks(s, rank), j)
  {
    hide Ranks, Drop;
    var a, b := Ranks(Drop(s, j), rank), Drop(Ranks(s, rank), j);
    forall i | 0 <= i < |a| ensures a[i] == b[i] {
      DropAt(s, j, i);
      DropAt(Ranks(s, rank), j, i);
    }
  }

  lemma {:induction false} RanksPerm<T>(a: seq<T>, b: seq<T>, rank: T -> Rank)
    requires multiset(a) == multiset(b)
    ensures multiset(Ranks(a, rank)) == multiset(Ranks(b, rank))
    decreases |a|
  {
    hide Drop, Ranks;
    if a == [] {
      assert |multiset(b)| == 0;
    } else {
      assert a[0] in multiset(b);
      var j :| 0 <= j < |b| && b[j] == a[0];
      DropKeeps(a, 0);
      DropKeeps(b, j);
      SameRest(multiset(Drop(a, 0)), multiset(Drop(b, j)), multiset{a[0]});
      RanksPerm(Drop(a, 0), Drop(b, j), rank);
      DropKeeps(Ranks(a, rank), 0);
      DropKeeps(Ranks(b, rank), j);
      RanksDrop(a, rank, 0);
      RanksDrop(b, rank, j);
    }
  }

  /** Sorting a dict by key forgets its insertion order, and only that. */
  lemma ByKeyForgetsOrder<V>(a: seq<Entry<V>>, b: seq<Entry<V>>)
    requires Unique(a)
    ensures ByKey(a) == ByKey(b) <==> multiset(a) == multiset(b)
  {
    var rank := (e: Entry<V>) => [e.key];
    SortKeeps(a, rank);
    SortKeeps(b, rank);
    if multiset(a) == multiset(b) {
      var x, y := Sort(a, rank), Sort(b, rank);
      SortSorted(a, rank);
      SortSorted(b, rank);
      RanksPerm(x, y, rank);
      SortedUnique(Ranks(x, rank), Ranks(y, rank));
      forall i | 0 <= i < |x| ensures x[i] == y[i] {
        assert x[i] in multiset(a) && y[i] in multiset(a);
        assert rank(x[i]) == Ranks(x, rank)[i] == Ranks(y, rank)[i] == rank(y[i]);
        SameKeySameEntry(a, x[i], y[i]);
      }
      assert |x| == |Ranks(x, rank)| == |Ranks(y, rank)| == |y|;
      assert x == y;
    }
  }

  lemma SameKeySameEntry<V>(es: seq<Entry<V>>, x: Entry<V>, y: Entry<V>)
    requires Unique(es) && x in es && y in es && x.key == y.key
    ensures x == y
  {
  }

  lemma {:induction false} CountOne<V>(es: seq<Entry<V>>, e: Entry<V>)
    requires Unique(es)
    ensures multiset(es)[e] == if e in es then 1 else 0
  {
    if |es| > 0 {
      var n := |es| - 1;
      assert es == es[..n] + [es[n]];
      CountOne(es[..n], e);
    }
  }

  /** Two dicts hold the same items if each item of one is in the other. */
  lemma SameElements<V>(a: seq<Entry<V>>, b: seq<Entry<V>>)
    requires Unique(a) && Unique(b)
    ensures multiset(a) == multiset(b) <==> forall e :: e in a <==> e in b
  {
    if multiset(a) == multiset(b) {
      forall e ensures e in a <==> e in b {
        assert (e in multiset(a) <==> e in a) && (e in multiset(b) <==> e in b);
      }
    }
    if forall e :: e in a <==> e in b {
      forall e ensures multiset(a)[e] == multiset(b)[e] {
        CountOne(a, e);
        CountOne(b, e);
      }
    }
  }
}
