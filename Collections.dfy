/**
 * The Kotlin collection operations the dashboard policy is written with:
 * `filter` by a key, `flatten` and `groupBy`. Kotlin's `groupBy` collects
 * into a `LinkedHashMap`, so its groups come in the order in which their
 * keys first appear, and each group keeps the input order of its elements.
 */
module Collections {

  /** The elements of `xs` whose key is `k`, in order (`filter { key(it) == k }`). */
  function FilterKey<T, K(==)>(xs: seq<T>, key: T -> K, k: K): (r: seq<T>)
    ensures |r| <= |xs|
    ensures forall x :: x in r ==> x in xs && key(x) == k
    ensures forall x :: x in xs && key(x) == k ==> x in r
  {
    if xs == [] then []
    else if key(xs[0]) == k then [xs[0]] + FilterKey(xs[1..], key, k)
    else FilterKey(xs[1..], key, k)
  }

  /** The elements of `xs` whose key is not `k`, in order. */
  function FilterOutKey<T, K(==)>(xs: seq<T>, key: T -> K, k: K): (r: seq<T>)
    ensures |r| <= |xs|
    ensures forall x :: x in r ==> x in xs && key(x) != k
    ensures forall x :: x in xs && key(x) != k ==> x in r
  {
    if xs == [] then []
    else if key(xs[0]) != k then [xs[0]] + FilterOutKey(xs[1..], key, k)
    else FilterOutKey(xs[1..], key, k)
  }

  /** Kotlin's `flatten` of a list of lists. */
  function Flatten<T>(ss: seq<seq<T>>): seq<T>
  {
    if ss == [] then [] else ss[0] + Flatten(ss[1..])
  }

  /**
   * Kotlin's `groupBy(key).values`: the first group holds the first element
   * and every later element with the same key; the remaining groups are
   * those of the elements with a different key.
   */
  function GroupBy<T, K(==)>(xs: seq<T>, key: T -> K): (gs: seq<seq<T>>)
    ensures forall i :: 0 <= i < |gs| ==> gs[i] != []
    ensures forall i, j :: 0 <= i < |gs| && 0 <= j < |gs[i]| ==>
      gs[i][j] in xs && key(gs[i][j]) == key(gs[i][0])
    ensures forall i, j :: 0 <= i < j < |gs| ==> key(gs[i][0]) != key(gs[j][0])
    decreases |xs|
  {
    if xs == [] then []
    else
      var k := key(xs[0]);
      assert forall x :: x in xs[1..] ==> x in xs;
      [[xs[0]] + FilterKey(xs[1..], key, k)] + GroupBy(FilterOutKey(xs[1..], key, k), key)
  }

  lemma {:induction false} FilterKeyAppend<T, K>(a: seq<T>, b: seq<T>, key: T -> K, k: K)
    ensures FilterKey(a + b, key, k) == FilterKey(a, key, k) + FilterKey(b, key, k)
  {
    if a == [] {
      assert a + b == b;
    } else {
      var ab := a + b;
      assert ab[0] == a[0] && ab[1..] == a[1..] + b;
      FilterKeyAppend(a[1..], b, key, k);
      if key(a[0]) == k {
        assert FilterKey(ab, key, k) == [a[0]] + FilterKey(a[1..] + b, key, k);
      } else {
        assert FilterKey(ab, key, k) == FilterKey(a[1..] + b, key, k);
      }
    }
  }

  /** Filtering by `k` what was already filtered by `k'` leaves all of it or nothing. */
  lemma {:induction false} FilterKeyOfFilterKey<T, K>(xs: seq<T>, key: T -> K, k: K, k': K)
    ensures FilterKey(FilterKey(xs, key, k'), key, k) == if k == k' then FilterKey(xs, key, k) else []
  {
    if xs != [] {
      FilterKeyOfFilterKey(xs[1..], key, k, k');
    }
  }

  /** Removing the elements with key `k'` does not change what key `k` selects, unless `k == k'`. */
  lemma {:induction false} FilterKeyOfFilterOut<T, K>(xs: seq<T>, key: T -> K, k: K, k': K)
    ensures FilterKey(FilterOutKey(xs, key, k'), key, k) == if k == k' then [] else FilterKey(xs, key, k)
  {
    if xs != [] {
      FilterKeyOfFilterOut(xs[1..], key, k, k');
    }
  }

  /** Every element goes to exactly one side of a filter. */
  lemma {:induction false} FilterPartition<T, K>(xs: seq<T>, key: T -> K, k: K)
    ensures multiset(FilterKey(xs, key, k)) + multiset(FilterOutKey(xs, key, k)) == multiset(xs)
  {
    if xs != [] {
      FilterPartition(xs[1..], key, k);
      assert xs == [xs[0]] + xs[1..];
    }
  }

  lemma {:induction false} FlattenCons<T>(s: seq<T>, ss: seq<seq<T>>)
    ensures Flatten([s] + ss) == s + Flatten(ss)
  {
    assert ([s] + ss)[1..] == ss;
  }

  /** Grouping only reorders: the groups hold exactly the input elements. */
  lemma {:induction false} GroupByPermutation<T, K>(xs: seq<T>, key: T -> K)
    ensures multiset(Flatten(GroupBy(xs, key))) == multiset(xs)
    decreases |xs|
  {
    if xs != [] {
      var k := key(xs[0]);
      var rest := FilterOutKey(xs[1..], key, k);
      FlattenCons([xs[0]] + FilterKey(xs[1..], key, k), GroupBy(rest, key));
      GroupByPermutation(rest, key);
      FilterPartition(xs[1..], key, k);
      assert xs == [xs[0]] + xs[1..];
    }
  }

  /** Grouping keeps, for every key, the elements with that key in their input order. */
  lemma {:induction false} GroupByKeepsOrder<T, K>(xs: seq<T>, key: T -> K, k: K)
    ensures FilterKey(Flatten(GroupBy(xs, key)), key, k) == FilterKey(xs, key, k)
    decreases |xs|
  {
    if xs != [] {
      var k0 := key(xs[0]);
      var g0 := [xs[0]] + FilterKey(xs[1..], key, k0);
      var rest := FilterOutKey(xs[1..], key, k0);
      FlattenCons(g0, GroupBy(rest, key));
      FilterKeyAppend(g0, Flatten(GroupBy(rest, key)), key, k);
      GroupByKeepsOrder(rest, key, k);
      FilterKeyOfFilterOut(xs[1..], key, k, k0);
      FilterKeyAppend([xs[0]], FilterKey(xs[1..], key, k0), key, k);
      FilterKeyOfFilterKey(xs[1..], key, k, k0);
    }
  }

  /** One step of `GroupBy`: the group of the first key, then the groups of the rest. */
  lemma GroupByCons<T, K>(xs: seq<T>, key: T -> K)
    requires xs != []
    ensures var k := key(xs[0]);
      GroupBy(xs, key) ==
        [[xs[0]] + FilterKey(xs[1..], key, k)] + GroupBy(FilterOutKey(xs[1..], key, k), key)
  {
  }

  /** The first group of `GroupBy` is what its key selects, and nothing else is selected from it. */
  lemma {:induction false} HeadGroup<T, K>(xs: seq<T>, key: T -> K, k: K)
    requires xs != []
    ensures var k0 := key(xs[0]);
      var g0 := [xs[0]] + FilterKey(xs[1..], key, k0);
      && FilterKey(xs, key, k0) == g0
      && FilterKey(g0, key, k) == (if k == k0 then g0 else [])
      && FilterKey(xs, key, k) == (if k == k0 then g0 else FilterKey(xs[1..], key, k))
  {
    var k0 := key(xs[0]);
    FilterKeyAppend([xs[0]], FilterKey(xs[1..], key, k0), key, k);
    FilterKeyOfFilterKey(xs[1..], key, k, k0);
  }

  /** Nothing is selected when no element has key `k`. */
  lemma {:induction false} FilterKeyEmpty<T, K>(xs: seq<T>, key: T -> K, k: K)
    requires forall j :: 0 <= j < |xs| ==> key(xs[j]) != k
    ensures FilterKey(xs, key, k) == []
  {
    if xs != [] {
      FilterKeyEmpty(xs[1..], key, k);
    }
  }

  /** When exactly one element has key `k`, the filter by `k` is that element alone. */
  lemma {:induction false} FilterKeyUnique<T, K>(xs: seq<T>, key: T -> K, k: K, i: nat)
    requires i < |xs| && key(xs[i]) == k
    requires forall j :: 0 <= j < |xs| && j != i ==> key(xs[j]) != k
    ensures FilterKey(xs, key, k) == [xs[i]]
  {
    if i == 0 {
      forall j | 0 <= j < |xs| - 1
        ensures key(xs[1..][j]) != k
      {
        assert xs[1..][j] == xs[j + 1];
      }
      FilterKeyEmpty(xs[1..], key, k);
    } else {
      FilterKeyUnique(xs[1..], key, k, i - 1);
    }
  }

  /** Two elements with key `k` at different positions put at least two elements into the filter. */
  lemma {:induction false} FilterKeyTwo<T, K>(xs: seq<T>, key: T -> K, k: K, i: nat, j: nat)
    requires i < j < |xs| && key(xs[i]) == k && key(xs[j]) == k
    ensures |FilterKey(xs, key, k)| >= 2
  {
    if i == 0 {
      assert xs[j] in xs[1..];
    } else {
      FilterKeyTwo(xs[1..], key, k, i - 1, j - 1);
    }
  }

  // ---------------------------------------------------------------------
  // The order of the groups

  /**
   * The position of the first element of `xs` whose key is `k`, or `|xs|`
   * when no element has that key.
   */
  function KeyIndex<T, K(==)>(xs: seq<T>, key: T -> K, k: K): (i: nat)
    ensures i <= |xs|
    ensures i < |xs| ==> key(xs[i]) == k
    ensures forall j :: 0 <= j < i ==> key(xs[j]) != k
  {
    if xs == [] then 0
    else if key(xs[0]) == k then 0
    else
      var i := KeyIndex(xs[1..], key, k);
      assert forall j :: 1 <= j < 1 + i ==> xs[j] == xs[1..][j - 1];
      1 + i
  }

  /**
   * Elements of `s` with different keys come in the order in which their
   * keys first appear in `xs`.
   */
  predicate BlocksInOrder<T, K(==)>(s: seq<T>, key: T -> K, xs: seq<T>)
  {
    forall i, j :: 0 <= i < j < |s| && key(s[i]) != key(s[j]) ==>
      KeyIndex(xs, key, key(s[i])) < KeyIndex(xs, key, key(s[j]))
  }

  /** Removing the elements with key `k0` keeps the order in which the other keys first appear. */
  lemma {:induction false} KeyIndexOfFilterOut<T, K>(xs: seq<T>, key: T -> K, k0: K, k1: K, k2: K)
    requires k1 != k0 && k2 != k0
    ensures KeyIndex(FilterOutKey(xs, key, k0), key, k1) < KeyIndex(FilterOutKey(xs, key, k0), key, k2)
        <==> KeyIndex(xs, key, k1) < KeyIndex(xs, key, k2)
  {
    if xs != [] {
      var tail := xs[1..];
      var r := FilterOutKey(xs, key, k0);
      var rt := FilterOutKey(tail, key, k0);
      KeyIndexOfFilterOut(tail, key, k0, k1, k2);
      if key(xs[0]) == k0 {
        assert r == rt;
        assert KeyIndex(xs, key, k1) == 1 + KeyIndex(tail, key, k1);
        assert KeyIndex(xs, key, k2) == 1 + KeyIndex(tail, key, k2);
      } else {
        assert r == [xs[0]] + rt;
        assert r[0] == xs[0] && r[1..] == rt;
        if key(xs[0]) != k1 && key(xs[0]) != k2 {
          assert KeyIndex(r, key, k1) == 1 + KeyIndex(rt, key, k1);
          assert KeyIndex(r, key, k2) == 1 + KeyIndex(rt, key, k2);
        }
      }
    }
  }

  /**
   * Keeping only the elements a coarser key selects keeps the order in
   * which two finer keys first appear, when both select only such elements.
   */
  lemma {:induction false} KeyIndexOfFilter<T, C, K>(
    xs: seq<T>, coarse: T -> C, c: C, fine: T -> K, k1: K, k2: K)
    requires forall x :: fine(x) == k1 ==> coarse(x) == c
    requires forall x :: fine(x) == k2 ==> coarse(x) == c
    ensures KeyIndex(FilterKey(xs, coarse, c), fine, k1) < KeyIndex(FilterKey(xs, coarse, c), fine, k2)
        <==> KeyIndex(xs, fine, k1) < KeyIndex(xs, fine, k2)
  {
    if xs != [] {
      KeyIndexOfFilter(xs[1..], coarse, c, fine, k1, k2);
      if coarse(xs[0]) == c {
        var r := [xs[0]] + FilterKey(xs[1..], coarse, c);
        assert r[0] == xs[0] && r[1..] == FilterKey(xs[1..], coarse, c);
      }
    }
  }

  /**
   * A block of the first element's key, followed by elements of other keys
   * that are in order with respect to the rest of the input, is in order.
   */
  lemma BlocksAppend<T, K>(xs: seq<T>, key: T -> K, head: seq<T>, tail: seq<T>)
    requires xs != []
    requires forall y :: y in head ==> key(y) == key(xs[0])
    requires forall y :: y in tail ==> key(y) != key(xs[0])
    requires BlocksInOrder(tail, key, FilterOutKey(xs[1..], key, key(xs[0])))
    ensures BlocksInOrder(head + tail, key, xs)
  {
    var k0 := key(xs[0]);
    var rest := FilterOutKey(xs[1..], key, k0);
    var out := head + tail;
    forall i, j | 0 <= i < j < |out| && key(out[i]) != key(out[j])
      ensures KeyIndex(xs, key, key(out[i])) < KeyIndex(xs, key, key(out[j]))
    {
      if j >= |head| {
        var kj := key(out[j]);
        assert out[j] == tail[j - |head|];
        assert kj != k0;
        if i >= |head| {
          assert out[i] == tail[i - |head|];
          var ki := key(out[i]);
          assert ki != k0;
          assert KeyIndex(rest, key, ki) < KeyIndex(rest, key, kj);
          KeyIndexOfFilterOut(xs[1..], key, k0, ki, kj);
        } else {
          assert out[i] == head[i];
        }
      }
    }
  }

  /** The first element a key selects is that key's first occurrence. */
  lemma {:induction false} FilterKeyHead<T, K>(xs: seq<T>, key: T -> K, k: K)
    requires FilterKey(xs, key, k) != []
    ensures KeyIndex(xs, key, k) < |xs|
    ensures FilterKey(xs, key, k)[0] == xs[KeyIndex(xs, key, k)]
  {
    if key(xs[0]) != k {
      FilterKeyHead(xs[1..], key, k);
    }
  }

  /** Every group of `GroupBy` holds exactly the elements of its key, in input order. */
  lemma {:induction false} GroupsAreFilters<T, K>(xs: seq<T>, key: T -> K)
    ensures var gs := GroupBy(xs, key);
      forall i :: 0 <= i < |gs| ==> gs[i] == FilterKey(xs, key, key(gs[i][0]))
    decreases |xs|
  {
    if xs != [] {
      var k0 := key(xs[0]);
      var tail := xs[1..];
      var rest := FilterOutKey(tail, key, k0);
      var rgs := GroupBy(rest, key);
      var gs := [[xs[0]] + FilterKey(tail, key, k0)] + rgs;
      GroupByCons(xs, key);
      GroupsAreFilters(rest, key);
      HeadGroup(xs, key, k0);
      forall i | 0 <= i < |gs|
        ensures gs[i] == FilterKey(xs, key, key(gs[i][0]))
      {
        if i > 0 {
          var ki := key(rgs[i - 1][0]);
          assert rgs[i - 1][0] in rest;
          FilterKeyOfFilterOut(tail, key, ki, k0);
          HeadGroup(xs, key, ki);
        }
      }
    }
  }

  /** Every key of the input has a group. */
  lemma {:induction false} GroupsCoverKeys<T, K>(xs: seq<T>, key: T -> K)
    ensures var gs := GroupBy(xs, key);
      forall x :: x in xs ==> exists i :: 0 <= i < |gs| && key(gs[i][0]) == key(x)
    decreases |xs|
  {
    if xs != [] {
      var k0 := key(xs[0]);
      var tail := xs[1..];
      var rest := FilterOutKey(tail, key, k0);
      var rgs := GroupBy(rest, key);
      var gs := [[xs[0]] + FilterKey(tail, key, k0)] + rgs;
      GroupByCons(xs, key);
      GroupsCoverKeys(rest, key);
      forall x | x in xs
        ensures exists i :: 0 <= i < |gs| && key(gs[i][0]) == key(x)
      {
        if key(x) != k0 {
          assert x in tail;
          assert x in rest;
          var i :| 0 <= i < |rgs| && key(rgs[i][0]) == key(x);
          assert gs[i + 1] == rgs[i];
        } else {
          assert key(gs[0][0]) == key(x);
        }
      }
    }
  }

  /** The groups come in the order in which their keys first appear. */
  lemma {:induction false} GroupsInOrder<T, K>(xs: seq<T>, key: T -> K)
    ensures var gs := GroupBy(xs, key);
      forall i, j :: 0 <= i < j < |gs| ==> KeyIndex(xs, key, key(gs[i][0])) < KeyIndex(xs, key, key(gs[j][0]))
    decreases |xs|
  {
    if xs != [] {
      var k0 := key(xs[0]);
      var tail := xs[1..];
      var rest := FilterOutKey(tail, key, k0);
      var rgs := GroupBy(rest, key);
      var gs := [[xs[0]] + FilterKey(tail, key, k0)] + rgs;
      GroupByCons(xs, key);
      GroupsInOrder(rest, key);
      assert KeyIndex(xs, key, k0) == 0;
      forall i, j | 0 <= i < j < |gs|
        ensures KeyIndex(xs, key, key(gs[i][0])) < KeyIndex(xs, key, key(gs[j][0]))
      {
        assert gs[j] == rgs[j - 1];
        var kj := key(rgs[j - 1][0]);
        assert rgs[j - 1][0] in rest;
        assert kj != k0;
        assert KeyIndex(xs, key, kj) == 1 + KeyIndex(tail, key, kj);
        if i > 0 {
          assert gs[i] == rgs[i - 1];
          var ki := key(rgs[i - 1][0]);
          assert rgs[i - 1][0] in rest;
          assert ki != k0;
          assert KeyIndex(rest, key, ki) < KeyIndex(rest, key, kj);
          KeyIndexOfFilterOut(tail, key, k0, ki, kj);
          assert KeyIndex(xs, key, ki) == 1 + KeyIndex(tail, key, ki);
        } else {
          assert key(gs[i][0]) == k0;
        }
      }
    }
  }

  /**
   * `groupBy` into a `LinkedHashMap`: every group holds exactly the
   * elements of its key, in input order; every key of the input has a
   * group; the groups come in the order in which their keys first appear,
   * each headed by its key's first occurrence.
   */
  lemma GroupByFirstAppearance<T, K>(xs: seq<T>, key: T -> K)
    ensures var gs := GroupBy(xs, key);
      && (forall i :: 0 <= i < |gs| ==> gs[i] == FilterKey(xs, key, key(gs[i][0])))
      && (forall x :: x in xs ==> exists i :: 0 <= i < |gs| && key(gs[i][0]) == key(x))
      && (forall i, j :: 0 <= i < j < |gs| ==>
            KeyIndex(xs, key, key(gs[i][0])) < KeyIndex(xs, key, key(gs[j][0])))
      && (forall i :: 0 <= i < |gs| ==> gs[i][0] == xs[KeyIndex(xs, key, key(gs[i][0]))])
  {
    var gs := GroupBy(xs, key);
    GroupsAreFilters(xs, key);
    GroupsCoverKeys(xs, key);
    GroupsInOrder(xs, key);
    forall i | 0 <= i < |gs|
      ensures gs[i][0] == xs[KeyIndex(xs, key, key(gs[i][0]))]
    {
      FilterKeyHead(xs, key, key(gs[i][0]));
    }
  }
}
