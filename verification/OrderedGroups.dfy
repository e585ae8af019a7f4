/** The order-keeping dictionary idiom `groups.setdefault(key, []).append(x)` that the delivery
    run uses for every grouping, with a declarative account of what it builds: one bucket per
    key, buckets in order of first occurrence, items in input order. */
module OrderedGroups {

  datatype Bucket<K, T> = Bucket(key: K, items: seq<T>)

  function Add<K(==,!new), T(!new)>(groups: seq<Bucket<K, T>>, k: K, x: T): (r: seq<Bucket<K, T>>)
    ensures AllNonempty(groups) ==> AllNonempty(r)
  {
    if groups == [] then [Bucket(k, [x])]
    else if groups[0].key == k then [Bucket(k, groups[0].items + [x])] + groups[1..]
    else [groups[0]] + Add(groups[1..], k, x)
  }

  ghost predicate AllNonempty<K, T>(groups: seq<Bucket<K, T>>) {
    forall b :: b in groups ==> b.items != []
  }

  function GroupBy<K(==,!new), T(!new)>(key: T -> K, xs: seq<T>): (r: seq<Bucket<K, T>>)
    ensures AllNonempty(r)
  {
    if xs == [] then [] else
      var n := |xs| - 1;
      Add(GroupBy(key, xs[..n]), key(xs[n]), xs[n])
  }

  function Filter<T(!new)>(p: T -> bool, xs: seq<T>): (ys: seq<T>)
    ensures forall y {:trigger y in ys} :: y in ys <==> y in xs && p(y)
  {
    if xs == [] then [] else
      var n := |xs| - 1;
      assert xs == xs[..n] + [xs[n]];
      Filter(p, xs[..n]) + if p(xs[n]) then [xs[n]] else []
  }

  function Flatten<T(!new)>(xss: seq<seq<T>>): seq<T> {
    if xss == [] then [] else
      var n := |xss| - 1;
      Flatten(xss[..n]) + xss[n]
  }

  function Items<K, T>(groups: seq<Bucket<K, T>>): seq<seq<T>> {
    seq(|groups|, i requires 0 <= i < |groups| => groups[i].items)
  }

  function Keys<K, T>(groups: seq<Bucket<K, T>>): seq<K> {
    seq(|groups|, i requires 0 <= i < |groups| => groups[i].key)
  }

  /** The elements of `xs` with key `k`, in order: what the bucket of `k` has to hold. */
  function WithKey<K(==,!new), T(!new)>(key: T -> K, k: K, xs: seq<T>): (ys: seq<T>)
    ensures forall y {:trigger y in ys} :: y in ys <==> y in xs && key(y) == k
  {
    if xs == [] then [] else
      var n := |xs| - 1;
      assert xs == xs[..n] + [xs[n]];
      WithKey(key, k, xs[..n]) + if key(xs[n]) == k then [xs[n]] else []
  }

  /** The keys in order of first occurrence, without repetition. */
  function FirstKeys<K(==,!new), T(!new)>(key: T -> K, xs: seq<T>): (ks: seq<K>)
    ensures forall k {:trigger k in ks} :: k in ks <==> exists x :: x in xs && key(x) == k
    ensures forall i, j :: 0 <= i < j < |ks| ==> ks[i] != ks[j]
  {
    if xs == [] then [] else
      var n := |xs| - 1;
      assert xs == xs[..n] + [xs[n]];
      var before := FirstKeys(key, xs[..n]);
      if key(xs[n]) in before then before else before + [key(xs[n])]
  }

  lemma {:induction false} AddKeys<K(!new), T(!new)>(groups: seq<Bucket<K, T>>, k: K, x: T)
    ensures Keys(Add(groups, k, x)) == if k in Keys(groups) then Keys(groups) else Keys(groups) + [k]
  {
    if groups != [] {
      hide Keys;
      var head, rest := groups[0], groups[1..];
      KeysCons(head, rest);
      assert groups == [head] + rest;
      if head.key == k {
        KeysCons(Bucket(k, head.items + [x]), rest);
      } else {
        AddKeys(rest, k, x);
        KeysCons(head, Add(rest, k, x));
      }
    }
  }

  lemma KeysCons<K, T>(head: Bucket<K, T>, rest: seq<Bucket<K, T>>)
    ensures Keys([head] + rest) == [head.key] + Keys(rest)
  {
  }

  ghost predicate Describes<K(!new), T(!new)>(groups: seq<Bucket<K, T>>, key: T -> K, xs: seq<T>) {
    && Keys(groups) == FirstKeys(key, xs)
    && forall i :: 0 <= i < |groups| ==> groups[i].items == WithKey(key, groups[i].key, xs)
  }

  /** `Add` changes the bucket of `k` and no other. */
  lemma {:induction false} AddItems<K(!new), T(!new)>(groups: seq<Bucket<K, T>>, k: K, x: T, i: nat)
    requires i < |Add(groups, k, x)|
    requires forall a, b :: 0 <= a < b < |groups| ==> groups[a].key != groups[b].key
    ensures var g := Add(groups, k, x);
      if i < |groups| then
        && g[i].key == groups[i].key
        && g[i].items == groups[i].items + if groups[i].key == k then [x] else []
      else g[i] == Bucket(k, [x]) && forall a :: 0 <= a < |groups| ==> groups[a].key != k
  {
    if groups != [] && groups[0].key != k && i > 0 {
      AddItems(groups[1..], k, x, i - 1);
      assert forall a :: 0 <= a < |groups| - 1 ==> groups[1..][a] == groups[a + 1];
      if i >= |groups| {
        forall a | 0 <= a < |groups| ensures groups[a].key != k {
          if a > 0 { assert groups[1..][a - 1] == groups[a]; }
        }
      }
    }
  }

  /** Grouping is a partition of the input: one bucket per key in order of first occurrence,
      each holding exactly the elements of that key, in input order. */
  lemma {:induction false} GroupByDescribes<K(!new), T(!new)>(key: T -> K, xs: seq<T>)
    ensures Describes(GroupBy(key, xs), key, xs)
  {
    if xs != [] {
      var n := |xs| - 1;
      var before, k := GroupBy(key, xs[..n]), key(xs[n]);
      GroupByDescribes(key, xs[..n]);
      AddKeys(before, k, xs[n]);
      var after := GroupBy(key, xs);
      assert Keys(after) == FirstKeys(key, xs);
      forall a, b | 0 <= a < b < |before| ensures before[a].key != before[b].key {
        assert before[a].key == Keys(before)[a] && before[b].key == Keys(before)[b];
      }
      forall i | 0 <= i < |after| ensures after[i].items == WithKey(key, after[i].key, xs) {
        AddItems(before, k, xs[n], i);
        if i >= |before| {
          assert k !in Keys(before);
          NoneWithKey(key, k, xs[..n]);
        }
      }
    }
  }

  lemma {:induction false} NoneWithKey<K(!new), T(!new)>(key: T -> K, k: K, xs: seq<T>)
    requires k !in FirstKeys(key, xs)
    ensures WithKey(key, k, xs) == []
  {
    if xs != [] {
      var n := |xs| - 1;
      assert xs[n] in xs;
      NoneWithKey(key, k, xs[..n]);
    }
  }

  lemma {:induction false} FlattenContains<T(!new)>(xss: seq<seq<T>>, x: T)
    ensures x in Flatten(xss) <==> exists i :: 0 <= i < |xss| && x in xss[i]
  {
    if xss != [] {
      var n := |xss| - 1;
      FlattenContains(xss[..n], x);
      assert x in Flatten(xss) <==> x in Flatten(xss[..n]) || x in xss[n];
      if i :| 0 <= i < n && x in xss[..n][i] { assert x in xss[i]; }
      if i :| 0 <= i < |xss| && x in xss[i] && i != n { assert x in xss[..n][i]; }
    }
  }

  lemma SubsetSize<T>(s: set<T>, t: set<T>)
    requires s <= t
    ensures |s| <= |t|
  {
    assert t == s + (t - s);
  }

  /** Regrouping loses and invents nothing. */
  lemma GroupByMembers<K(!new), T(!new)>(key: T -> K, xs: seq<T>, x: T)
    ensures x in Flatten(Items(GroupBy(key, xs))) <==> x in xs
  {
    var g := GroupBy(key, xs);
    GroupByDescribes(key, xs);
    FlattenContains(Items(g), x);
    if x in xs {
      assert key(x) in FirstKeys(key, xs);
      var i :| 0 <= i < |g| && Keys(g)[i] == key(x);
      assert x in Items(g)[i];
    }
    if i :| 0 <= i < |g| && x in Items(g)[i] { assert x in WithKey(key, g[i].key, xs); }
  }

  lemma BucketNonempty<K(!new), T(!new)>(key: T -> K, xs: seq<T>, i: nat)
    requires i < |GroupBy(key, xs)|
    ensures var b := GroupBy(key, xs)[i];
      && b.items != []
      && (forall x :: x in b.items ==> x in xs && key(x) == b.key)
  {
    GroupByDescribes(key, xs);
    var g := GroupBy(key, xs);
    assert Keys(g)[i] == g[i].key;
    assert g[i].key in FirstKeys(key, xs);
    var x :| x in xs && key(x) == g[i].key;
    assert x in g[i].items;
  }

  /** Where the dictionary holds key `k`; its length when it does not. */
  function Find<K(==), T>(groups: seq<Bucket<K, T>>, k: K): (at: nat)
    ensures at <= |groups|
    ensures at < |groups| ==> groups[at].key == k
  {
    if groups == [] || groups[0].key == k then 0 else 1 + Find(groups[1..], k)
  }

  lemma {:induction false} AddAtFind<K(!new), T(!new)>(groups: seq<Bucket<K, T>>, k: K, x: T)
    ensures var at := Find(groups, k);
      Add(groups, k, x) == if at == |groups| then groups + [Bucket(k, [x])]
                           else groups[at := Bucket(k, groups[at].items + [x])]
  {
    if groups != [] && groups[0].key != k { AddAtFind(groups[1..], k, x); }
  }

  lemma GroupByPush<K(!new), T(!new)>(key: T -> K, xs: seq<T>, x: T)
    ensures GroupBy(key, xs + [x]) == Add(GroupBy(key, xs), key(x), x)
  {
    assert (xs + [x])[..|xs|] == xs;
  }

  lemma FilterPush<T(!new)>(p: T -> bool, xs: seq<T>, x: T)
    ensures Filter(p, xs + [x]) == Filter(p, xs) + if p(x) then [x] else []
  {
    assert (xs + [x])[..|xs|] == xs;
  }

  /** Adding under a key no earlier bucket has extends or opens the last bucket. */
  lemma {:induction false} AddBehind<K(!new), T(!new)>(groups: seq<Bucket<K, T>>, k: K, xs: seq<T>, x: T)
    requires forall i :: 0 <= i < |groups| ==> groups[i].key != k
    ensures Add(groups, k, x) == groups + [Bucket(k, [x])]
    ensures Add(groups + [Bucket(k, xs)], k, x) == groups + [Bucket(k, xs + [x])]
  {
    if groups == [] {
      assert groups + [Bucket(k, xs)] == [Bucket(k, xs)];
    } else {
      AddBehind(groups[1..], k, xs, x);
      assert (groups + [Bucket(k, xs)])[1..] == groups[1..] + [Bucket(k, xs)];
      assert groups == [groups[0]] + groups[1..];
    }
  }

  lemma FlattenNil<T(!new)>(xss: seq<seq<T>>)
    ensures Flatten(xss[..0]) == []
  {
  }

  lemma FlattenPush<T(!new)>(xss: seq<seq<T>>, xs: seq<T>)
    ensures Flatten(xss + [xs]) == Flatten(xss) + xs
  {
    assert (xss + [xs])[..|xss|] == xss;
  }

  /** Everything `f` yields for some element of `xs`. */
  function Union<T(==,!new), U(==,!new)>(f: T -> set<U>, xs: seq<T>): set<U> {
    set x, u | x in xs && u in f(x) :: u
  }

  lemma UnionPush<T(!new), U(!new)>(f: T -> set<U>, xs: seq<T>, x: T)
    ensures Union(f, xs + [x]) == Union(f, xs) + f(x)
  {
    forall u ensures u in Union(f, xs + [x]) <==> u in Union(f, xs) + f(x) {
      if u in Union(f, xs) {
        var y :| y in xs && u in f(y);
        assert y in xs + [x];
      }
      if u in f(x) { assert x in xs + [x]; }
    }
  }

  lemma UnionHas<T(!new), U(!new)>(f: T -> set<U>, xs: seq<T>, x: T, u: U)
    requires x in xs && u in f(x)
    ensures u in Union(f, xs)
  {
  }

  lemma UnionFrom<T(!new), U(!new)>(f: T -> set<U>, xs: seq<T>, u: U) returns (x: T)
    requires u in Union(f, xs)
    ensures x in xs && u in f(x)
  {
    x :| x in xs && u in f(x);
  }

  lemma UnionAgree<T(!new), U(!new)>(f: T -> set<U>, g: T -> set<U>, xs: seq<T>)
    requires forall x :: x in xs ==> f(x) == g(x)
    ensures Union(f, xs) == Union(g, xs)
  {
  }

  /** A run of elements of one new key becomes one last bucket. */
  lemma {:induction false} AddRun<K(!new), T(!new)>(bs: seq<Bucket<K, T>>, key: T -> K, xs: seq<T>, k: K,
                                                    before: seq<T>)
    requires GroupBy(key, before) == bs
    requires forall i :: 0 <= i < |bs| ==> bs[i].key != k
    requires forall x :: x in xs ==> key(x) == k
    ensures GroupBy(key, before + xs) == if xs == [] then bs else bs + [Bucket(k, xs)]
  {
    if xs == [] {
      assert before + xs == before;
    } else {
      var init, last := xs[..|xs| - 1], xs[|xs| - 1];
      assert xs == init + [last];
      AddRun(bs, key, init, k, before);
      assert before + xs == (before + init) + [last];
      GroupByPush(key, before + init, last);
      AddBehind(bs, k, init, last);
    }
  }
}
