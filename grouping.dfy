/** Group-by-sum over a JavaScript `Map` (or a pandas `groupby`): each item
    carries a key, a payload and an amount; the first item with a key opens a
    bucket that keeps that item's payload, and every later item with the same
    key adds its amount to the bucket. Buckets stay in order of first
    appearance, as a `Map` iterates in insertion order. */
module Grouping {
  import opened Common
  import opened Sorting

  datatype Item<K, P> = Item(key: K, payload: P, amount: real)
  datatype Bucket<K, P> = Bucket(key: K, first: P, total: real)

  function KeysOf<K, P>(items: seq<Item<K, P>>): set<K>
  {
    set i | 0 <= i < |items| :: items[i].key
  }

  function BucketKeys<K, P>(buckets: seq<Bucket<K, P>>): set<K>
  {
    set i | 0 <= i < |buckets| :: buckets[i].key
  }

  ghost predicate DistinctKeys<K, P>(buckets: seq<Bucket<K, P>>)
  {
    forall i, j :: 0 <= i < j < |buckets| ==> buckets[i].key != buckets[j].key
  }

  /** `map.has(key)` / `map.get(key)`: where the bucket for `k` is, if any. */
  function IndexOf<K(==), P>(buckets: seq<Bucket<K, P>>, k: K): (r: Option<nat>)
    ensures r.Some? ==> r.value < |buckets| && buckets[r.value].key == k
    ensures r.None? <==> k !in BucketKeys(buckets)
  {
    if buckets == [] then None
    else if buckets[|buckets| - 1].key == k then Some(|buckets| - 1)
    else
      var r := IndexOf(buckets[..|buckets| - 1], k);
      assert BucketKeys(buckets) == BucketKeys(buckets[..|buckets| - 1]) + {buckets[|buckets| - 1].key};
      r
  }

  /** One step of the `forEach`: add to the existing bucket or open a new one. */
  function Add<K(==), P>(buckets: seq<Bucket<K, P>>, it: Item<K, P>): seq<Bucket<K, P>>
  {
    match IndexOf(buckets, it.key)
    case None => buckets + [Bucket(it.key, it.payload, it.amount)]
    case Some(i) => buckets[i := buckets[i].(total := buckets[i].total + it.amount)]
  }

  /** The buckets after the whole `forEach`: one per distinct key, never
      more buckets than items. */
  function Group<K(==), P>(items: seq<Item<K, P>>): (r: seq<Bucket<K, P>>)
    ensures |r| <= |items|
  {
    if items == [] then [] else Add(Group(items[..|items| - 1]), items[|items| - 1])
  }

  /** The buckets have distinct keys, one per key among the items. */
  lemma {:induction false} GroupSpec<K, P>(items: seq<Item<K, P>>)
    ensures DistinctKeys(Group(items))
    ensures BucketKeys(Group(items)) == KeysOf(items)
  {
    if items != [] {
      var init := items[..|items| - 1];
      var last := items[|items| - 1];
      GroupSpec(init);
      var prev := Group(init);
      var r := Group(items);
      assert r == Add(prev, last);
      assert KeysOf(items) == KeysOf(init) + {last.key} by {
        forall k | k in KeysOf(items) ensures k in KeysOf(init) + {last.key} {
          var i :| 0 <= i < |items| && items[i].key == k;
          if i < |items| - 1 { assert init[i] == items[i]; }
        }
        forall k | k in KeysOf(init) ensures k in KeysOf(items) {
          var i :| 0 <= i < |init| && init[i].key == k;
          assert items[i] == init[i];
        }
        assert items[|items| - 1].key == last.key;
      }
      match IndexOf(prev, last.key)
      case None =>
        assert r == prev + [Bucket(last.key, last.payload, last.amount)];
        assert BucketKeys(r) == BucketKeys(prev) + {last.key} by {
          forall k | k in BucketKeys(r) ensures k in BucketKeys(prev) + {last.key} {
            var j :| 0 <= j < |r| && r[j].key == k;
            if j < |prev| { assert r[j] == prev[j]; }
          }
          assert r[|prev|].key == last.key;
          forall k | k in BucketKeys(prev) ensures k in BucketKeys(r) {
            var j :| 0 <= j < |prev| && prev[j].key == k;
            assert r[j] == prev[j];
          }
        }
        forall i, j | 0 <= i < j < |r| ensures r[i].key != r[j].key {
          if j < |prev| {
            assert r[i] == prev[i] && r[j] == prev[j];
          } else {
            assert r[i] == prev[i];
            assert prev[i].key in BucketKeys(prev);
          }
        }
      case Some(i) =>
        assert forall j :: 0 <= j < |r| ==> r[j].key == prev[j].key;
        assert BucketKeys(r) == BucketKeys(prev) by {
          forall k | k in BucketKeys(r) ensures k in BucketKeys(prev) {
            var j :| 0 <= j < |r| && r[j].key == k;
            assert prev[j].key == k;
          }
          forall k | k in BucketKeys(prev) ensures k in BucketKeys(r) {
            var j :| 0 <= j < |prev| && prev[j].key == k;
            assert r[j].key == k;
          }
        }
    }
  }

  /** An independent reference: the sum of the amounts of the items whose key is `k`. */
  function TotalFor<K(==), P>(items: seq<Item<K, P>>, k: K): real
  {
    if items == [] then 0.0
    else TotalFor(items[..|items| - 1], k)
         + (if items[|items| - 1].key == k then items[|items| - 1].amount else 0.0)
  }

  /** The payload of the first item whose key is `k`. */
  function FirstWith<K(==), P>(items: seq<Item<K, P>>, k: K): P
    requires k in KeysOf(items)
  {
    if items[0].key == k then items[0].payload
    else
      assert k in KeysOf(items[1..]) by {
        var i :| 0 <= i < |items| && items[i].key == k;
        assert items[1..][i - 1] == items[i];
      }
      FirstWith(items[1..], k)
  }

  /** The first item with key `k` is the one whose payload `FirstWith` gives. */
  lemma {:induction false} FirstWithIndex<K, P>(items: seq<Item<K, P>>, k: K) returns (m: nat)
    requires k in KeysOf(items)
    ensures m < |items| && items[m].key == k && FirstWith(items, k) == items[m].payload
    ensures forall j :: 0 <= j < m ==> items[j].key != k
  {
    if items[0].key == k {
      m := 0;
    } else {
      assert k in KeysOf(items[1..]) by {
        var i :| 0 <= i < |items| && items[i].key == k;
        assert items[1..][i - 1] == items[i];
      }
      var m' := FirstWithIndex(items[1..], k);
      m := m' + 1;
      forall j | 0 <= j < m ensures items[j].key != k {
        if j > 0 {
          assert items[j] == items[1..][j - 1];
        }
      }
    }
  }

  lemma FirstWithSnoc<K, P>(items: seq<Item<K, P>>, it: Item<K, P>, k: K)
    requires k in KeysOf(items)
    ensures k in KeysOf(items + [it]) && FirstWith(items + [it], k) == FirstWith(items, k)
  {
    var i :| 0 <= i < |items| && items[i].key == k;
    assert (items + [it])[i] == items[i];
    if items[0].key != k {
      assert (items + [it])[1..] == items[1..] + [it];
      assert items[1..][i - 1] == items[i];
      FirstWithSnoc(items[1..], it, k);
    }
  }

  lemma FirstWithNew<K, P>(items: seq<Item<K, P>>, it: Item<K, P>)
    requires it.key !in KeysOf(items)
    ensures it.key in KeysOf(items + [it]) && FirstWith(items + [it], it.key) == it.payload
  {
    assert (items + [it])[|items|] == it;
    if items != [] {
      assert items[0].key != it.key;
      assert (items + [it])[1..] == items[1..] + [it];
      assert it.key !in KeysOf(items[1..]) by {
        forall i | 0 <= i < |items[1..]| ensures items[1..][i].key != it.key {
          assert items[1..][i] == items[i + 1];
        }
      }
      FirstWithNew(items[1..], it);
    }
  }

  /** Every bucket holds the total of exactly the items with its key, and the
      payload of the first of them. */
  lemma GroupBuckets<K, P>(items: seq<Item<K, P>>)
    ensures forall i :: 0 <= i < |Group(items)| ==>
      Group(items)[i].key in KeysOf(items)
      && Group(items)[i].total == TotalFor(items, Group(items)[i].key)
      && Group(items)[i].first == FirstWith(items, Group(items)[i].key)
  {
    forall i | 0 <= i < |Group(items)|
      ensures Group(items)[i].key in KeysOf(items)
      ensures Group(items)[i].total == TotalFor(items, Group(items)[i].key)
      ensures Group(items)[i].first == FirstWith(items, Group(items)[i].key)
    {
      GroupBucket(items, i);
    }
  }

  /** The `i`-th bucket, by induction on the items. */
  lemma {:induction false} GroupBucket<K, P>(items: seq<Item<K, P>>, i: nat)
    requires i < |Group(items)|
    ensures Group(items)[i].key in KeysOf(items)
    ensures Group(items)[i].total == TotalFor(items, Group(items)[i].key)
    ensures Group(items)[i].first == FirstWith(items, Group(items)[i].key)
  {
    var init := items[..|items| - 1];
    var last := items[|items| - 1];
    assert items == init + [last];
    GroupSpec(init);
    GroupSpec(items);
    var prev := Group(init);
    var r := Group(items);
    assert r == Add(prev, last);
    assert r[i].key in BucketKeys(r);
    match IndexOf(prev, last.key)
    case None =>
      if i < |prev| {
        assert r[i] == prev[i];
        assert prev[i].key in BucketKeys(prev);
        GroupBucket(init, i);
        FirstWithSnoc(init, last, r[i].key);
      } else {
        assert r[i] == Bucket(last.key, last.payload, last.amount);
        TotalForAbsent(init, last.key);
        FirstWithNew(init, last);
      }
    case Some(j) =>
      assert prev[i].key in BucketKeys(prev);
      GroupBucket(init, i);
      FirstWithSnoc(init, last, r[i].key);
      if i != j {
        assert r[i] == prev[i];
        assert prev[i].key != prev[j].key;
      }
  }

  lemma {:induction false} TotalForAbsent<K, P>(items: seq<Item<K, P>>, k: K)
    requires k !in KeysOf(items)
    ensures TotalFor(items, k) == 0.0
  {
    if items != [] {
      var init := items[..|items| - 1];
      assert k !in KeysOf(init) by {
        forall i | 0 <= i < |init| ensures init[i].key != k { assert init[i] == items[i]; }
      }
      TotalForAbsent(init, k);
      assert items[|items| - 1].key != k;
    }
  }

  /** Grouping neither creates nor loses money: the buckets' totals add up to
      the items' amounts. */
  lemma {:induction false} GroupKeepsTotal<K, P>(items: seq<Item<K, P>>)
    ensures Sum(Amounts(Group(items), BucketTotal)) == Sum(Amounts(items, ItemAmount))
  {
    if items != [] {
      var init := items[..|items| - 1];
      var last := items[|items| - 1];
      GroupKeepsTotal(init);
      AddKeepsTotal(Group(init), last);
      assert Amounts(init, ItemAmount) == Amounts(items, ItemAmount)[..|items| - 1];
    }
  }

  /** One step of the `forEach` adds the item's amount to the buckets' sum. */
  lemma AddKeepsTotal<K, P>(buckets: seq<Bucket<K, P>>, it: Item<K, P>)
    ensures Sum(Amounts(Add(buckets, it), BucketTotal)) == Sum(Amounts(buckets, BucketTotal)) + it.amount
  {
    var a := Amounts(buckets, BucketTotal);
    var r := Add(buckets, it);
    match IndexOf(buckets, it.key)
    case None =>
      assert Amounts(r, BucketTotal) == a + [it.amount];
      assert Amounts(r, BucketTotal)[..|a|] == a;
    case Some(j) =>
      assert Amounts(r, BucketTotal) == a[j := a[j] + it.amount];
      SumUpdate(a, j, it.amount);
  }

  lemma SumUpdate(a: seq<real>, j: nat, d: real)
    requires j < |a|
    ensures Sum(a[j := a[j] + d]) == Sum(a) + d
  {
    var b := a[j := a[j] + d];
    assert a == a[..j] + [a[j]] + a[j + 1..];
    assert b == a[..j] + [a[j] + d] + a[j + 1..];
    SumAppend(a[..j] + [a[j]], a[j + 1..]);
    SumAppend(a[..j], [a[j]]);
    SumAppend(a[..j] + [a[j] + d], a[j + 1..]);
    SumAppend(a[..j], [a[j] + d]);
    SumSingleton(a[j]);
    SumSingleton(a[j] + d);
  }

  lemma BucketKeysCons<K, P>(b: Bucket<K, P>, s: seq<Bucket<K, P>>)
    ensures BucketKeys([b] + s) == {b.key} + BucketKeys(s)
  {
    var r := [b] + s;
    forall k | k in BucketKeys(r) ensures k in {b.key} + BucketKeys(s) {
      var i :| 0 <= i < |r| && r[i].key == k;
      if i > 0 { assert r[i] == s[i - 1]; }
    }
    forall k | k in BucketKeys(s) ensures k in BucketKeys(r) {
      var i :| 0 <= i < |s| && s[i].key == k;
      assert r[i + 1] == s[i];
    }
    assert r[0] == b;
  }

  lemma DistinctKeysCons<K, P>(b: Bucket<K, P>, s: seq<Bucket<K, P>>)
    requires DistinctKeys(s) && b.key !in BucketKeys(s)
    ensures DistinctKeys([b] + s)
  {
    var r := [b] + s;
    forall i, j | 0 <= i < j < |r| ensures r[i].key != r[j].key {
      assert r[j] == s[j - 1];
      if i > 0 {
        assert r[i] == s[i - 1];
      } else {
        assert s[j - 1].key in BucketKeys(s);
      }
    }
  }

  lemma {:induction false} InsertKeepsKeys<K, P>(b: Bucket<K, P>, s: seq<Bucket<K, P>>, le: (Bucket<K, P>, Bucket<K, P>) -> bool)
    requires DistinctKeys(s) && b.key !in BucketKeys(s)
    ensures DistinctKeys(Insert(b, s, le))
    ensures BucketKeys(Insert(b, s, le)) == BucketKeys(s) + {b.key}
  {
    if s == [] {
      BucketKeysCons(b, s);
      assert [b] + s == [b];
    } else if le(b, s[0]) {
      BucketKeysCons(b, s);
      DistinctKeysCons(b, s);
    } else {
      var t := s[1..];
      assert s == [s[0]] + t;
      BucketKeysCons(s[0], t);
      assert DistinctKeys(t) by {
        forall i, j | 0 <= i < j < |t| ensures t[i].key != t[j].key {
          assert t[i] == s[i + 1] && t[j] == s[j + 1];
        }
      }
      assert s[0].key !in BucketKeys(t) by {
        forall i | 0 <= i < |t| ensures t[i].key != s[0].key {
          assert t[i] == s[i + 1];
        }
      }
      InsertKeepsKeys(b, t, le);
      BucketKeysCons(s[0], Insert(b, t, le));
      DistinctKeysCons(s[0], Insert(b, t, le));
    }
  }

  /** Sorting buckets neither merges nor splits keys. */
  lemma {:induction false} SortKeepsKeys<K, P>(s: seq<Bucket<K, P>>, le: (Bucket<K, P>, Bucket<K, P>) -> bool)
    requires DistinctKeys(s)
    ensures DistinctKeys(Sort(s, le))
    ensures BucketKeys(Sort(s, le)) == BucketKeys(s)
  {
    if s != [] {
      var t := s[1..];
      assert s == [s[0]] + t;
      BucketKeysCons(s[0], t);
      assert DistinctKeys(t) by {
        forall i, j | 0 <= i < j < |t| ensures t[i].key != t[j].key {
          assert t[i] == s[i + 1] && t[j] == s[j + 1];
        }
      }
      assert s[0].key !in BucketKeys(t) by {
        forall i | 0 <= i < |t| ensures t[i].key != s[0].key {
          assert t[i] == s[i + 1];
        }
      }
      SortKeepsKeys(t, le);
      InsertKeepsKeys(s[0], Sort(t, le), le);
    }
  }

  /** Sorting the buckets keeps their keys apart. */
  lemma SortedGroupKeysDistinct<K, P>(items: seq<Item<K, P>>, le: (Bucket<K, P>, Bucket<K, P>) -> bool, i: nat, j: nat)
    requires i < j < |Sort(Group(items), le)|
    ensures Sort(Group(items), le)[i].key != Sort(Group(items), le)[j].key
  {
    var g := Group(items);
    var r := Sort(g, le);
    GroupSpec(items);
    SortPermutes(g, le);
    SortKeepsDistinct(g, le, i, j);
    assert r[i] in multiset(g) && r[j] in multiset(g);
    var a :| 0 <= a < |g| && g[a] == r[i];
    var b :| 0 <= b < |g| && g[b] == r[j];
  }

  /** Group, then sort the buckets: one bucket per key of the items, each
      holding the total and the first payload for its key, and the buckets'
      totals adding up to the items' amounts. */
  lemma SortedGroup<K, P>(items: seq<Item<K, P>>, le: (Bucket<K, P>, Bucket<K, P>) -> bool)
    ensures |Sort(Group(items), le)| <= |items|
    ensures DistinctKeys(Sort(Group(items), le))
    ensures BucketKeys(Sort(Group(items), le)) == KeysOf(items)
    ensures forall i :: 0 <= i < |Sort(Group(items), le)| ==>
      Sort(Group(items), le)[i].key in KeysOf(items)
      && Sort(Group(items), le)[i].total == TotalFor(items, Sort(Group(items), le)[i].key)
      && Sort(Group(items), le)[i].first == FirstWith(items, Sort(Group(items), le)[i].key)
    ensures Sum(Amounts(Sort(Group(items), le), BucketTotal)) == Sum(Amounts(items, ItemAmount))
  {
    var g := Group(items);
    var r := Sort(g, le);
    GroupSpec(items);
    SortPermutes(g, le);
    GroupBuckets(items);
    SortKeepsKeys(g, le);
    GroupKeepsTotal(items);
    SortKeepsTotal(g, le, BucketTotal);
    forall i | 0 <= i < |r|
      ensures r[i].key in KeysOf(items)
      ensures r[i].total == TotalFor(items, r[i].key)
      ensures r[i].first == FirstWith(items, r[i].key)
    {
      assert r[i] in multiset(r);
      var j :| 0 <= j < |g| && g[j] == r[i];
    }
  }

  function BucketTotal<K, P>(b: Bucket<K, P>): real { b.total }
  function ItemAmount<K, P>(it: Item<K, P>): real { it.amount }

  /** One step of the `forEach`: `has`/`get` the key, then add to its
      entry or `set` a new one. */
  method AddItem<K(==), P>(buckets: seq<Bucket<K, P>>, it: Item<K, P>) returns (next: seq<Bucket<K, P>>)
    ensures next == Add(buckets, it)
  {
    match IndexOf(buckets, it.key) {
      case None =>
        next := buckets + [Bucket(it.key, it.payload, it.amount)];
      case Some(j) =>
        next := buckets[j := buckets[j].(total := buckets[j].total + it.amount)];
    }
  }

  /** The `forEach` loop that fills the `Map`. */
  method GroupInto<K(==), P>(items: seq<Item<K, P>>) returns (buckets: seq<Bucket<K, P>>)
    ensures buckets == Group(items)
  {
    buckets := [];
    var i := 0;
    while i < |items|
      invariant 0 <= i <= |items|
      invariant buckets == Group(items[..i])
    {
      assert items[..i + 1][..i] == items[..i];
      assert Group(items[..i + 1]) == Add(Group(items[..i]), items[i]);
      buckets := AddItem(buckets, items[i]);
      i := i + 1;
    }
    assert items[..|items|] == items;
  }
}
