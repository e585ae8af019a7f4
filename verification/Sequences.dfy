/** Totals over sequences and the stable sort of Python's `sorted`. */
module Sequences {
  import opened OrderedGroups

  function Sum<T>(f: T -> int, xs: seq<T>): int {
    if xs == [] then 0 else
      var n := |xs| - 1;
      Sum(f, xs[..n]) + f(xs[n])
  }

  lemma {:induction false} SumConcat<T>(f: T -> int, xs: seq<T>, ys: seq<T>)
    ensures Sum(f, xs + ys) == Sum(f, xs) + Sum(f, ys)
  {
    if ys == [] {
      assert xs + ys == xs;
    } else {
      var n := |ys| - 1;
      assert (xs + ys)[..|xs| + n] == xs + ys[..n];
      SumConcat(f, xs, ys[..n]);
    }
  }

  lemma {:induction false} SumUpdate<T>(f: T -> int, xs: seq<T>, i: nat, x: T)
    requires i < |xs|
    ensures Sum(f, xs[i := x]) == Sum(f, xs) - f(xs[i]) + f(x)
  {
    var n := |xs| - 1;
    if i < n {
      SumUpdate(f, xs[..n], i, x);
      assert xs[i := x][..n] == xs[..n][i := x];
    } else {
      assert xs[i := x][..n] == xs[..n];
    }
  }

  /** Summing per group and then over the groups is summing over all elements. */
  lemma {:induction false} SumGrouped<K(!new), T(!new)>(f: T -> int, g: Bucket<K, T> -> int, key: T -> K, xs: seq<T>)
    requires forall b :: g(b) == Sum(f, b.items)
    ensures Sum(g, GroupBy(key, xs)) == Sum(f, xs)
  {
    if xs != [] {
      var n := |xs| - 1;
      SumGrouped(f, g, key, xs[..n]);
      SumAdd(f, g, GroupBy(key, xs[..n]), key(xs[n]), xs[n]);
    }
  }

  lemma {:induction false} SumAdd<K(!new), T(!new)>(f: T -> int, g: Bucket<K, T> -> int,
                                                    groups: seq<Bucket<K, T>>, k: K, x: T)
    requires forall b :: g(b) == Sum(f, b.items)
    ensures Sum(g, Add(groups, k, x)) == Sum(g, groups) + f(x)
  {
    SumOne(f, x);
    if groups == [] {
      SumOne(g, Bucket(k, [x]));
      assert Add(groups, k, x) == [Bucket(k, [x])];
    } else {
      var head, rest := groups[0], groups[1..];
      assert groups == [head] + rest;
      SumConcat(g, [head], rest);
      SumOne(g, head);
      if head.key == k {
        var grown := Bucket(k, head.items + [x]);
        SumConcat(f, head.items, [x]);
        SumConcat(g, [grown], rest);
        SumOne(g, grown);
      } else {
        SumAdd(f, g, rest, k, x);
        SumConcat(g, [head], Add(rest, k, x));
      }
    }
  }

  lemma SumOne<T>(f: T -> int, x: T)
    ensures Sum(f, [x]) == f(x)
  {
    assert [x][..0] == [];
  }

  // ------------------------------------------------------------------ stable sort

  /** Puts `x` behind every element of a rank not above its own. */
  function Insert<T(!new)>(rank: T -> int, ys: seq<T>, x: T): (r: seq<T>)
    ensures forall y {:trigger y in r} :: y in r <==> y in ys || y == x
    ensures |r| == |ys| + 1
  {
    var n := |ys| - 1;
    if ys == [] || rank(ys[n]) <= rank(x) then ys + [x]
    else
      assert ys == ys[..n] + [ys[n]];
      Insert(rank, ys[..n], x) + [ys[n]]
  }

  function SortBy<T(!new)>(rank: T -> int, xs: seq<T>): (r: seq<T>)
    ensures forall y {:trigger y in r} :: y in r <==> y in xs
    ensures |r| == |xs|
  {
    if xs == [] then [] else
      var n := |xs| - 1;
      assert xs == xs[..n] + [xs[n]];
      Insert(rank, SortBy(rank, xs[..n]), xs[n])
  }

  ghost predicate Sorted<T>(rank: T -> int, xs: seq<T>) {
    forall i, j :: 0 <= i < j < |xs| ==> rank(xs[i]) <= rank(xs[j])
  }

  lemma {:induction false} InsertSorted<T(!new)>(rank: T -> int, ys: seq<T>, x: T)
    requires Sorted(rank, ys)
    ensures Sorted(rank, Insert(rank, ys, x))
  {
    var n := |ys| - 1;
    if ys != [] && rank(ys[n]) > rank(x) {
      InsertSorted(rank, ys[..n], x);
      var inner := Insert(rank, ys[..n], x);
      forall i | 0 <= i < n + 1 ensures rank(inner[i]) <= rank(ys[n]) {
        assert inner[i] in inner;
      }
    }
  }

  lemma WithKeyPush<K(!new), T(!new)>(key: T -> K, k: K, xs: seq<T>, x: T)
    ensures WithKey(key, k, xs + [x]) == WithKey(key, k, xs) + if key(x) == k then [x] else []
  {
    assert (xs + [x])[..|xs|] == xs;
  }

  lemma {:induction false} InsertStable<T(!new)>(rank: T -> int, ys: seq<T>, x: T, r: int)
    ensures WithKey(rank, r, Insert(rank, ys, x)) == WithKey(rank, r, ys + [x])
  {
    if ys != [] && rank(ys[|ys| - 1]) > rank(x) {
      var init, last := ys[..|ys| - 1], ys[|ys| - 1];
      assert ys == init + [last];
      InsertStable(rank, init, x, r);
      InsertedLast(rank, r, init, last, x, Insert(rank, init, x));
    }
  }

  lemma InsertedLast<T(!new)>(rank: T -> int, r: int, init: seq<T>, last: T, x: T, inserted: seq<T>)
    requires rank(last) != rank(x)
    requires WithKey(rank, r, inserted) == WithKey(rank, r, init + [x])
    ensures WithKey(rank, r, inserted + [last]) == WithKey(rank, r, init + [last] + [x])
  {
    WithKeyPush(rank, r, inserted, last);
    WithKeyPush(rank, r, init, x);
    WithKeyPush(rank, r, init, last);
    WithKeyPush(rank, r, init + [last], x);
  }

  /** The sort is the stable one: sorted, and elements of equal rank keep their order. */
  lemma {:induction false} SortByIsStable<T(!new)>(rank: T -> int, xs: seq<T>, r: int)
    ensures Sorted(rank, SortBy(rank, xs))
    ensures WithKey(rank, r, SortBy(rank, xs)) == WithKey(rank, r, xs)
  {
    if xs != [] {
      var n := |xs| - 1;
      var before := SortBy(rank, xs[..n]);
      SortByIsStable(rank, xs[..n], r);
      InsertSorted(rank, before, xs[n]);
      InsertStable(rank, before, xs[n], r);
      WithKeyPush(rank, r, before, xs[n]);
    }
  }

  lemma {:induction false} SortedStays<T(!new)>(rank: T -> int, xs: seq<T>)
    requires Sorted(rank, xs)
    ensures SortBy(rank, xs) == xs
  {
    if xs != [] {
      var init := xs[..|xs| - 1];
      SortedStays(rank, init);
      assert xs == init + [xs[|xs| - 1]];
    }
  }

  ghost predicate SortedGroup<K, T(!new)>(rank: T -> int, b: Bucket<K, T>, xs: seq<T>) {
    b.items != [] && Sorted(rank, b.items) && forall x {:trigger x in b.items} :: x in b.items ==> x in xs
  }

  /** Sorted groups, in the order of their first elements. */
  ghost predicate SortedGroups<K, T(!new)>(rank: T -> int, groups: seq<Bucket<K, T>>, xs: seq<T>) {
    && (forall i :: 0 <= i < |groups| ==> SortedGroup(rank, groups[i], xs))
    && (forall i, j :: 0 <= i < j < |groups| ==> rank(groups[i].items[0]) <= rank(groups[j].items[0]))
  }

  lemma GroupPushed<K(!new), T(!new)>(rank: T -> int, b: Bucket<K, T>, xs: seq<T>, x: T)
    requires SortedGroup(rank, b, xs) && forall y {:trigger y in xs} :: y in xs ==> rank(y) <= rank(x)
    ensures SortedGroup(rank, b, xs + [x]) && SortedGroup(rank, Bucket(b.key, b.items + [x]), xs + [x])
    ensures b.items != [] && (b.items + [x])[0] == b.items[0] && rank(b.items[0]) <= rank(x)
  {
    assert forall i :: 0 <= i < |b.items| ==> b.items[i] in b.items;
  }

  lemma AddSorted<K(!new), T(!new)>(rank: T -> int, groups: seq<Bucket<K, T>>, xs: seq<T>, k: K, x: T)
    requires SortedGroups(rank, groups, xs) && forall y {:trigger y in xs} :: y in xs ==> rank(y) <= rank(x)
    ensures SortedGroups(rank, Add(groups, k, x), xs + [x])
  {
    hide Add, SortedGroup;
    AddAtFind(groups, k, x);
    forall i | 0 <= i < |groups| ensures groups[i].items != [] && SortedGroup(rank, groups[i], xs + [x])
                                      && SortedGroup(rank, Bucket(groups[i].key, groups[i].items + [x]), xs + [x])
                                      && (groups[i].items + [x])[0] == groups[i].items[0]
                                      && rank(groups[i].items[0]) <= rank(x) {
      GroupPushed(rank, groups[i], xs, x);
    }
    OneSorted(rank, k, xs, x);
  }

  lemma OneSorted<K(!new), T(!new)>(rank: T -> int, k: K, xs: seq<T>, x: T)
    ensures SortedGroup(rank, Bucket(k, [x]), xs + [x])
  {
  }

  /** Grouping a sorted sequence gives sorted groups, in the order of their first elements. */
  lemma {:induction false} GroupsOfSorted<K(!new), T(!new)>(rank: T -> int, key: T -> K, xs: seq<T>)
    requires Sorted(rank, xs)
    ensures SortedGroups(rank, GroupBy(key, xs), xs)
  {
    hide SortedGroups;
    if xs == [] {
      NoGroups(rank, key, xs);
    } else {
      var init, x := xs[..|xs| - 1], xs[|xs| - 1];
      assert xs == init + [x];
      GroupsOfSorted(rank, key, init);
      forall y | y in init ensures rank(y) <= rank(x) {
        var i :| 0 <= i < |init| && init[i] == y;
        assert xs[i] == y;
      }
      AddSorted(rank, GroupBy(key, init), init, key(x), x);
    }
  }

  lemma NoGroups<K(!new), T(!new)>(rank: T -> int, key: T -> K, xs: seq<T>)
    requires xs == []
    ensures SortedGroups(rank, GroupBy(key, xs), xs)
  {
  }

  lemma {:induction false} SumInserted<T(!new)>(f: T -> int, rank: T -> int, ys: seq<T>, x: T)
    ensures Sum(f, Insert(rank, ys, x)) == Sum(f, ys) + f(x)
  {
    if ys != [] && rank(ys[|ys| - 1]) > rank(x) {
      SumInserted(f, rank, ys[..|ys| - 1], x);
    }
  }

  lemma {:induction false} SumSorted<T(!new)>(f: T -> int, rank: T -> int, xs: seq<T>)
    ensures Sum(f, SortBy(rank, xs)) == Sum(f, xs)
  {
    if xs != [] {
      var n := |xs| - 1;
      SumSorted(f, rank, xs[..n]);
      SumInserted(f, rank, SortBy(rank, xs[..n]), xs[n]);
    }
  }
}
