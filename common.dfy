/** Values shared by every part of the dashboard model: optional values,
    sums of money amounts, and rounding to whole cents. */
module Common {

  datatype Option<+T> = None | Some(value: T)

  datatype Result<+T, +E> = Ok(value: T) | Err(error: E)

  /** The sum of a sequence of amounts, accumulated left to right as
      `reduce((sum, x) => sum + x, 0)` and Python's `sum` do. */
  function Sum(s: seq<real>): real
  {
    if s == [] then 0.0 else Sum(s[..|s| - 1]) + s[|s| - 1]
  }

  lemma {:induction false} SumAppend(a: seq<real>, b: seq<real>)
    ensures Sum(a + b) == Sum(a) + Sum(b)
    decreases |b|
  {
    if b == [] {
      assert a + b == a;
    } else {
      var b' := b[..|b| - 1];
      assert (a + b)[..|a + b| - 1] == a + b';
      SumAppend(a, b');
    }
  }

  lemma SumSingleton(x: real)
    ensures Sum([x]) == x
  {
    assert [x][..0] == [];
  }

  lemma {:induction false} SumCons(x: real, s: seq<real>)
    ensures Sum([x] + s) == x + Sum(s)
  {
    SumAppend([x], s);
    SumSingleton(x);
  }

  lemma {:induction false} SumNonNegative(s: seq<real>)
    requires forall i :: 0 <= i < |s| ==> s[i] >= 0.0
    ensures Sum(s) >= 0.0
    decreases |s|
  {
    if s != [] {
      SumNonNegative(s[..|s| - 1]);
    }
  }

  /** Rounding to two decimals, half away from zero for the non-negative
      amounts the dashboard handles (`toFixed(2)`, Python's `round(x, 2)`). */
  function Round2(x: real): (r: real)
    ensures -1.0 / 200.0 < r - x <= 1.0 / 200.0
    ensures x >= 0.0 ==> r >= 0.0
  {
    (x * 100.0 + 0.5).Floor as real / 100.0
  }

  /** An amount that is a whole number of cents. */
  predicate IsCents(x: real)
  {
    (x * 100.0).Floor as real == x * 100.0
  }

  lemma RoundCentsIdentity(x: real)
    requires IsCents(x)
    ensures Round2(x) == x
  {
    var k := (x * 100.0).Floor;
    assert (x * 100.0 + 0.5).Floor == k;
  }

  lemma RoundIsCents(x: real)
    ensures IsCents(Round2(x))
  {
    var k := (x * 100.0 + 0.5).Floor;
    assert Round2(x) * 100.0 == k as real;
  }

  lemma CentsSum(a: real, b: real)
    requires IsCents(a) && IsCents(b)
    ensures IsCents(a + b)
  {
    var i, j := (a * 100.0).Floor, (b * 100.0).Floor;
    assert (a + b) * 100.0 == (i + j) as real;
  }

  lemma {:induction false} SumOfCents(s: seq<real>)
    requires forall i :: 0 <= i < |s| ==> IsCents(s[i])
    ensures IsCents(Sum(s))
    decreases |s|
  {
    if s == [] {
      assert 0.0 * 100.0 == 0.0;
    } else {
      SumOfCents(s[..|s| - 1]);
      CentsSum(Sum(s[..|s| - 1]), s[|s| - 1]);
    }
  }

  /** A positive amount below half a cent is stored as zero. */
  lemma TinyAmountRoundsToZero(x: real)
    requires 0.0 < x < 1.0 / 200.0
    ensures x > 0.0 && Round2(x) == 0.0
  {
    assert 0.5 <= x * 100.0 + 0.5 < 1.0;
  }

  /** The elements of `s` in order of first appearance, each once, as
      pandas' `unique()` and `[...new Set(s)]` give them. */
  function Distinct<T(==)>(s: seq<T>): (r: seq<T>)
    ensures |r| <= |s|
    ensures forall i :: 0 <= i < |s| ==> s[i] in r
    ensures forall i :: 0 <= i < |r| ==> r[i] in s
    ensures forall i, j :: 0 <= i < j < |r| ==> r[i] != r[j]
  {
    if s == [] then []
    else
      var r := Distinct(s[..|s| - 1]);
      assert s == s[..|s| - 1] + [s[|s| - 1]];
      if s[|s| - 1] in r then r else r + [s[|s| - 1]]
  }

  /** Keep the elements `f` maps to a value, in order, as a `forEach` that
      pushes conditionally does. */
  function FilterMap<A, B>(xs: seq<A>, f: A -> Option<B>): (r: seq<B>)
    ensures |r| <= |xs|
  {
    if xs == [] then []
    else
      FilterMap(xs[..|xs| - 1], f)
      + match f(xs[|xs| - 1])
        case Some(y) => [y]
        case None => []
  }

  lemma FilterMapSnoc<A, B>(xs: seq<A>, x: A, f: A -> Option<B>)
    ensures FilterMap(xs + [x], f) == FilterMap(xs, f) + (if f(x).Some? then [f(x).value] else [])
  {
    assert (xs + [x])[..|xs|] == xs;
  }

  /** `idx` picks, in increasing order, exactly the inputs `f` maps to a
      value, and their values are `out`. */
  ghost predicate ChosenIndices<A, B>(xs: seq<A>, f: A -> Option<B>, out: seq<B>, idx: seq<nat>)
  {
    && |idx| == |out|
    && (forall j :: 0 <= j < |idx| ==> idx[j] < |xs| && f(xs[idx[j]]) == Some(out[j]))
    && (forall j, k :: 0 <= j < k < |idx| ==> idx[j] < idx[k])
    && (forall i :: 0 <= i < |xs| && f(xs[i]).Some? ==> i in idx)
  }

  /** The output of `FilterMap` is the image of an increasing choice of
      inputs, and every input that maps to a value is chosen. */
  lemma {:induction false} FilterMapIndices<A, B>(xs: seq<A>, f: A -> Option<B>) returns (idx: seq<nat>)
    ensures |idx| == |FilterMap(xs, f)|
    ensures forall j :: 0 <= j < |idx| ==> idx[j] < |xs| && f(xs[idx[j]]) == Some(FilterMap(xs, f)[j])
    ensures forall j, k :: 0 <= j < k < |idx| ==> idx[j] < idx[k]
    ensures forall i :: 0 <= i < |xs| && f(xs[i]).Some? ==> i in idx
  {
    if xs == [] {
      idx := [];
    } else {
      var init := xs[..|xs| - 1];
      var x := xs[|xs| - 1];
      var prev := FilterMapIndices(init, f);
      assert xs == init + [x];
      FilterMapSnoc(init, x, f);
      if f(x).Some? {
        idx := ChosenKeep(init, x, f, FilterMap(init, f), prev);
      } else {
        ChosenSkip(init, x, f, FilterMap(init, f), prev);
        idx := prev;
      }
      assert ChosenIndices(xs, f, FilterMap(xs, f), idx);
    }
  }

  lemma ChosenKeep<A, B>(init: seq<A>, x: A, f: A -> Option<B>, out: seq<B>, prev: seq<nat>) returns (idx: seq<nat>)
    requires ChosenIndices(init, f, out, prev) && f(x).Some?
    ensures idx == prev + [|init|] && ChosenIndices(init + [x], f, out + [f(x).value], idx)
  {
    var xs := init + [x];
    idx := prev + [|init|];
    forall j | 0 <= j < |idx| ensures idx[j] < |xs| && f(xs[idx[j]]) == Some((out + [f(x).value])[j]) {
      if j < |prev| {
        assert idx[j] == prev[j] && xs[prev[j]] == init[prev[j]];
      }
    }
    forall i | 0 <= i < |xs| && f(xs[i]).Some? ensures i in idx {
      if i < |init| {
        assert xs[i] == init[i] && i in prev;
      } else {
        assert idx[|prev|] == i;
      }
    }
  }

  lemma ChosenSkip<A, B>(init: seq<A>, x: A, f: A -> Option<B>, out: seq<B>, prev: seq<nat>)
    requires ChosenIndices(init, f, out, prev) && f(x).None?
    ensures ChosenIndices(init + [x], f, out, prev)
  {
    var xs := init + [x];
    forall j | 0 <= j < |prev| ensures prev[j] < |xs| && f(xs[prev[j]]) == Some(out[j]) {
      assert xs[prev[j]] == init[prev[j]];
    }
    forall i | 0 <= i < |xs| && f(xs[i]).Some? ensures i in prev {
      assert xs[i] == init[i];
    }
  }

  /** An input that maps to a value has its value in the output. */
  lemma FilterMapContains<A, B>(xs: seq<A>, f: A -> Option<B>, d: nat) returns (p: nat)
    requires d < |xs| && f(xs[d]).Some?
    ensures p < |FilterMap(xs, f)| && FilterMap(xs, f)[p] == f(xs[d]).value
  {
    var idx := FilterMapIndices(xs, f);
    assert d in idx;
    p :| 0 <= p < |idx| && idx[p] == d;
  }

  lemma {:induction false} FilterMapCongruent<A, B>(xs: seq<A>, f: A -> Option<B>, g: A -> Option<B>)
    requires forall i :: 0 <= i < |xs| ==> f(xs[i]) == g(xs[i])
    ensures FilterMap(xs, f) == FilterMap(xs, g)
  {
    if xs != [] {
      var init := xs[..|xs| - 1];
      assert forall i :: 0 <= i < |init| ==> init[i] == xs[i];
      FilterMapCongruent(init, f, g);
    }
  }

  /** The sequences of `parts` one after another. */
  function Concat<T>(parts: seq<seq<T>>): seq<T>
  {
    if parts == [] then [] else Concat(parts[..|parts| - 1]) + parts[|parts| - 1]
  }

  lemma ConcatSnoc<T>(parts: seq<seq<T>>, p: seq<T>)
    ensures Concat(parts + [p]) == Concat(parts) + p
  {
    assert (parts + [p])[..|parts|] == parts;
  }

  /** Every element of the concatenation comes from some part. */
  lemma {:induction false} ConcatOrigin<T>(parts: seq<seq<T>>, i: nat) returns (k: nat, j: nat)
    requires i < |Concat(parts)|
    ensures k < |parts| && j < |parts[k]| && Concat(parts)[i] == parts[k][j]
  {
    var init := parts[..|parts| - 1];
    if i < |Concat(init)| {
      k, j := ConcatOrigin(init, i);
      assert parts[k] == init[k];
    } else {
      k, j := |parts| - 1, i - |Concat(init)|;
    }
  }

  /** Every element of every part is in the concatenation, after the
      elements of the parts before it. */
  lemma {:induction false} ConcatContains<T>(parts: seq<seq<T>>, k: nat, j: nat) returns (i: nat)
    requires k < |parts| && j < |parts[k]|
    ensures i < |Concat(parts)| && Concat(parts)[i] == parts[k][j]
  {
    var init := parts[..|parts| - 1];
    if k == |parts| - 1 {
      i := |Concat(init)| + j;
    } else {
      assert parts[k] == init[k];
      i := ConcatContains(init, k, j);
    }
  }

  /** `xs.filter(keep)`: the elements `keep` accepts, in order. */
  function Filter<T>(xs: seq<T>, keep: T -> bool): (r: seq<T>)
    ensures |r| <= |xs|
    ensures forall i :: 0 <= i < |r| ==> keep(r[i])
  {
    if xs == [] then []
    else Filter(xs[..|xs| - 1], keep) + (if keep(xs[|xs| - 1]) then [xs[|xs| - 1]] else [])
  }

  lemma FilterSnoc<T>(xs: seq<T>, x: T, keep: T -> bool)
    ensures Filter(xs + [x], keep) == Filter(xs, keep) + (if keep(x) then [x] else [])
  {
    assert (xs + [x])[..|xs|] == xs;
  }

  /** The output of `Filter` is an increasing choice of inputs, and every
      accepted input is chosen. */
  lemma {:induction false} FilterIndices<T>(xs: seq<T>, keep: T -> bool) returns (idx: seq<nat>)
    ensures |idx| == |Filter(xs, keep)|
    ensures forall j :: 0 <= j < |idx| ==> idx[j] < |xs| && xs[idx[j]] == Filter(xs, keep)[j]
    ensures forall j, k :: 0 <= j < k < |idx| ==> idx[j] < idx[k]
    ensures forall i :: 0 <= i < |xs| && keep(xs[i]) ==> i in idx
  {
    if xs == [] {
      idx := [];
    } else {
      var init := xs[..|xs| - 1];
      var last := |xs| - 1;
      var prev := FilterIndices(init, keep);
      var out := Filter(init, keep);
      assert forall i :: 0 <= i < |init| ==> init[i] == xs[i];
      if keep(xs[last]) {
        idx := prev + [last];
        assert Filter(xs, keep) == out + [xs[last]];
        forall j | 0 <= j < |idx|
          ensures idx[j] < |xs| && xs[idx[j]] == Filter(xs, keep)[j]
        {
          if j < |prev| {
            assert idx[j] == prev[j];
            assert Filter(xs, keep)[j] == out[j];
          }
        }
        forall i | 0 <= i < |xs| && keep(xs[i]) ensures i in idx {
          if i < last {
            assert i in prev;
          } else {
            assert idx[|prev|] == i;
          }
        }
      } else {
        idx := prev;
        assert Filter(xs, keep) == out;
      }
    }
  }

  /** A filter that accepts everything keeps the whole sequence. */
  lemma {:induction false} FilterKeepsAll<T>(xs: seq<T>, keep: T -> bool)
    requires forall i :: 0 <= i < |xs| ==> keep(xs[i])
    ensures Filter(xs, keep) == xs
  {
    if xs != [] {
      FilterKeepsAll(xs[..|xs| - 1], keep);
    }
  }

  lemma {:induction false} FilterCongruent<T>(xs: seq<T>, f: T -> bool, g: T -> bool)
    requires forall i :: 0 <= i < |xs| ==> f(xs[i]) == g(xs[i])
    ensures Filter(xs, f) == Filter(xs, g)
  {
    if xs != [] {
      var init := xs[..|xs| - 1];
      assert forall i :: 0 <= i < |init| ==> init[i] == xs[i];
      FilterCongruent(init, f, g);
    }
  }

  /** Two filters in a row are one filter by their conjunction. */
  lemma {:induction false} FilterFilter<T>(xs: seq<T>, f: T -> bool, g: T -> bool, h: T -> bool)
    requires forall i :: 0 <= i < |xs| ==> h(xs[i]) == (f(xs[i]) && g(xs[i]))
    ensures Filter(Filter(xs, f), g) == Filter(xs, h)
  {
    if xs != [] {
      var init := xs[..|xs| - 1];
      var last := xs[|xs| - 1];
      assert forall i :: 0 <= i < |init| ==> init[i] == xs[i];
      FilterFilter(init, f, g, h);
      assert h(last) == (f(last) && g(last));
      if f(last) {
        assert Filter(xs, f) == Filter(init, f) + [last];
        FilterSnoc(Filter(init, f), last, g);
      } else {
        assert Filter(xs, f) == Filter(init, f);
      }
    }
  }

  /** Rounding each of `n` amounts moves their sum by at most `n` half cents. */
  lemma {:induction false} SumOfRoundedClose(xs: seq<real>, ys: seq<real>)
    requires |xs| == |ys|
    requires forall i :: 0 <= i < |xs| ==> ys[i] == Round2(xs[i])
    ensures -(|xs| as real) / 200.0 <= Sum(ys) - Sum(xs) <= (|xs| as real) / 200.0
  {
    if xs != [] {
      SumOfRoundedClose(xs[..|xs| - 1], ys[..|ys| - 1]);
    }
  }
}
