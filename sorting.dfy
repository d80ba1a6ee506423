/** A stable sort by a comparator, as JavaScript's `Array.prototype.sort`
    (stable since ES2019) and a stable `sort_values` behave. `le(a, b)` reads
    "a may come before b"; elements that compare both ways keep their input
    order. */
module Sorting {
  import opened Common

  ghost predicate TotalPreorder<T(!new)>(le: (T, T) -> bool)
  {
    && (forall a, b :: le(a, b) || le(b, a))
    && (forall a, b, c :: le(a, b) && le(b, c) ==> le(a, c))
  }

  ghost predicate Sorted<T>(s: seq<T>, le: (T, T) -> bool)
  {
    forall i, j :: 0 <= i < j < |s| ==> le(s[i], s[j])
  }

  /** Places `x` before the first element it may precede. */
  function Insert<T>(x: T, s: seq<T>, le: (T, T) -> bool): (r: seq<T>)
    ensures |r| == |s| + 1
  {
    if s == [] then [x]
    else if le(x, s[0]) then [x] + s
    else
      assert s == [s[0]] + s[1..];
      [s[0]] + Insert(x, s[1..], le)
  }

  function Sort<T>(s: seq<T>, le: (T, T) -> bool): (r: seq<T>)
    ensures |r| == |s|
  {
    if s == [] then [] else Insert(s[0], Sort(s[1..], le), le)
  }

  lemma {:induction false} InsertPermutes<T>(x: T, s: seq<T>, le: (T, T) -> bool)
    ensures multiset(Insert(x, s, le)) == multiset(s) + multiset{x}
  {
    if s != [] && !le(x, s[0]) {
      InsertPermutes(x, s[1..], le);
      assert s == [s[0]] + s[1..];
    }
  }

  /** Sorting only reorders. */
  lemma {:induction false} SortPermutes<T>(s: seq<T>, le: (T, T) -> bool)
    ensures multiset(Sort(s, le)) == multiset(s)
  {
    if s != [] {
      SortPermutes(s[1..], le);
      InsertPermutes(s[0], Sort(s[1..], le), le);
      assert s == [s[0]] + s[1..];
    }
  }

  lemma {:induction false} InsertSorted<T(!new)>(x: T, s: seq<T>, le: (T, T) -> bool)
    requires TotalPreorder(le)
    requires Sorted(s, le)
    ensures Sorted(Insert(x, s, le), le)
  {
    if s != [] && !le(x, s[0]) {
      InsertSorted(x, s[1..], le);
      var r := Insert(x, s, le);
      assert le(s[0], x);
      forall j | 1 <= j < |r|
        ensures le(s[0], r[j])
      {
        InsertPermutes(x, s[1..], le);
        var m := multiset(s[1..]) + multiset{x};
        assert r[j] in multiset(r[1..]) by { assert r[j] == r[1..][j - 1]; }
        assert multiset(r[1..]) == m;
        if r[j] != x {
          assert r[j] in multiset(s[1..]);
          var k :| 0 <= k < |s[1..]| && s[1..][k] == r[j];
          assert le(s[0], s[k + 1]);
        }
      }
    }
  }

  lemma {:induction false} SortSorted<T(!new)>(s: seq<T>, le: (T, T) -> bool)
    requires TotalPreorder(le)
    ensures Sorted(Sort(s, le), le)
  {
    if s != [] {
      SortSorted(s[1..], le);
      InsertSorted(s[0], Sort(s[1..], le), le);
    }
  }

  /** Sorting a sequence without repeats gives one without repeats. */
  lemma SortKeepsDistinct<T>(s: seq<T>, le: (T, T) -> bool, i: nat, j: nat)
    requires forall a, b :: 0 <= a < b < |s| ==> s[a] != s[b]
    requires i < j < |Sort(s, le)|
    ensures Sort(s, le)[i] != Sort(s, le)[j]
  {
    var r := Sort(s, le);
    SortPermutes(s, le);
    CountAtMostOne(s, r[i]);
    TwoPositions(r, i, j);
  }

  lemma {:induction false} CountAtMostOne<T>(s: seq<T>, x: T)
    requires forall a, b :: 0 <= a < b < |s| ==> s[a] != s[b]
    ensures multiset(s)[x] <= 1
  {
    if s != [] {
      var init := s[..|s| - 1];
      CountAtMostOne(init, x);
      assert s == init + [s[|s| - 1]];
      if s[|s| - 1] == x {
        assert x !in init by {
          forall a | 0 <= a < |init| ensures init[a] != x { assert init[a] == s[a]; }
        }
      }
    }
  }

  lemma TwoPositions<T>(s: seq<T>, i: nat, j: nat)
    requires i < j < |s|
    ensures s[i] == s[j] ==> multiset(s)[s[i]] >= 2
  {
    assert s == s[..j] + s[j..];
    assert s[..j][i] == s[i];
    assert s[j..][0] == s[j];
  }

  /** The amounts `f` assigns to the elements of `s`, in order. */
  function Amounts<T>(s: seq<T>, f: T -> real): (r: seq<real>)
    ensures |r| == |s|
    ensures forall i :: 0 <= i < |s| ==> r[i] == f(s[i])
  {
    seq(|s|, i requires 0 <= i < |s| => f(s[i]))
  }

  lemma AmountsAppend<T>(a: seq<T>, b: seq<T>, f: T -> real)
    ensures Amounts(a + b, f) == Amounts(a, f) + Amounts(b, f)
  {
  }

  lemma SumAmountsCons<T>(a: T, s: seq<T>, f: T -> real)
    ensures Sum(Amounts([a] + s, f)) == f(a) + Sum(Amounts(s, f))
  {
    assert Amounts([a] + s, f) == [f(a)] + Amounts(s, f);
    SumCons(f(a), Amounts(s, f));
  }

  lemma {:induction false} InsertKeepsTotal<T>(x: T, s: seq<T>, le: (T, T) -> bool, f: T -> real)
    ensures Sum(Amounts(Insert(x, s, le), f)) == f(x) + Sum(Amounts(s, f))
  {
    if s == [] {
      SumAmountsCons(x, [], f);
      assert [x] + [] == [x];
    } else if le(x, s[0]) {
      SumAmountsCons(x, s, f);
    } else {
      InsertKeepsTotal(x, s[1..], le, f);
      SumAmountsCons(s[0], Insert(x, s[1..], le), f);
      assert s == [s[0]] + s[1..];
      SumAmountsCons(s[0], s[1..], f);
    }
  }

  /** Sorting never changes the total of any amount carried by the elements. */
  lemma {:induction false} SortKeepsTotal<T>(s: seq<T>, le: (T, T) -> bool, f: T -> real)
    ensures Sum(Amounts(Sort(s, le), f)) == Sum(Amounts(s, f))
  {
    if s != [] {
      SortKeepsTotal(s[1..], le, f);
      InsertKeepsTotal(s[0], Sort(s[1..], le), le, f);
      assert s == [s[0]] + s[1..];
      SumAmountsCons(s[0], s[1..], f);
    }
  }

  function MapSeq<A, B>(s: seq<A>, f: A -> B): (r: seq<B>)
    ensures |r| == |s|
    ensures forall i :: 0 <= i < |s| ==> r[i] == f(s[i])
  {
    if s == [] then [] else [f(s[0])] + MapSeq(s[1..], f)
  }

  lemma {:induction false} InsertMap<A, B>(x: A, s: seq<A>, f: A -> B, leA: (A, A) -> bool, leB: (B, B) -> bool)
    requires forall a, b :: leA(a, b) == leB(f(a), f(b))
    ensures Insert(f(x), MapSeq(s, f), leB) == MapSeq(Insert(x, s, leA), f)
  {
    if s == [] {
      assert MapSeq([x], f) == [f(x)] + MapSeq([], f);
    } else if leA(x, s[0]) {
      assert leB(f(x), f(s[0]));
      assert ([x] + s)[1..] == s;
    } else {
      assert !leB(f(x), f(s[0]));
      InsertMap(x, s[1..], f, leA, leB);
      var t := [s[0]] + Insert(x, s[1..], leA);
      assert t[1..] == Insert(x, s[1..], leA);
    }
  }

  /** Sorting the images of the elements by a comparator on images gives the
      images of the elements sorted by the comparator it induces. */
  lemma {:induction false} SortMap<A, B>(s: seq<A>, f: A -> B, leA: (A, A) -> bool, leB: (B, B) -> bool)
    requires forall a, b :: leA(a, b) == leB(f(a), f(b))
    ensures Sort(MapSeq(s, f), leB) == MapSeq(Sort(s, leA), f)
  {
    if s != [] {
      assert MapSeq(s, f)[0] == f(s[0]);
      assert MapSeq(s, f)[1..] == MapSeq(s[1..], f);
      SortMap(s[1..], f, leA, leB);
      InsertMap(s[0], Sort(s[1..], leA), f, leA, leB);
    }
  }
}
