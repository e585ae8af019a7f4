/** Where rows go within one run: who is included, which whole groups the cap keeps, and what
    becomes of every row of a digest. */
module DeliveryRows {
  import opened Options
  import opened OrderedGroups
  import opened Notifications
  import opened Delivery

  // ------------------------------------------------------------------ inclusion and the cap

  lemma TailMember<T>(xs: seq<T>, n: int, x: T)
    requires x in Tail(xs, n)
    ensures x in xs
  {
  }

  lemma CapOneMember(cap: Option<int>, rows: seq<Note>, n: Note)
    ensures n in CapOne(cap, rows) ==> n in rows
    ensures cap.None? ==> CapOne(cap, rows) == rows
  {
    var groups := LogicalGroups(rows);
    if n in CapOne(cap, rows) && CapOne(cap, rows) != rows {
      FlattenContains(Tail(groups, cap.value), n);
      var i :| 0 <= i < |Tail(groups, cap.value)| && n in Tail(groups, cap.value)[i];
      TailMember(groups, cap.value, Tail(groups, cap.value)[i]);
      FlattenContains(groups, n);
      GroupByMembers(LogicalKeyOf, rows, n);
    }
  }

  /** A run includes only routed rows, and without a cap all of them. */
  lemma IncludedMember(cap: Option<int>, rows: seq<Note>, n: Note)
    ensures n in Included(cap, rows) ==> n in rows
    ensures cap.None? ==> (n in Included(cap, rows) <==> n in rows)
  {
    var groups := GroupBy(RecipientOf, rows);
    var capped := CapEach(cap, groups);
    FlattenContains(capped, n);
    GroupByMembers(RecipientOf, rows, n);
    FlattenContains(Items(groups), n);
    if n in Included(cap, rows) {
      var i :| 0 <= i < |capped| && n in capped[i];
      CapOneMember(cap, groups[i].items, n);
      assert n in Items(groups)[i];
    }
    if cap.None? && n in rows {
      var i :| 0 <= i < |groups| && n in Items(groups)[i];
      CapOneMember(cap, groups[i].items, n);
      assert n in capped[i];
    }
  }

  /** Buckets with distinct keys, each holding only its own key. */
  ghost predicate WellKeyed<K(!new), T(!new)>(bs: seq<Bucket<K, T>>, key: T -> K) {
    && (forall i, j :: 0 <= i < j < |bs| ==> bs[i].key != bs[j].key)
    && (forall i :: 0 <= i < |bs| ==> bs[i].items != [] && forall x :: x in bs[i].items ==> key(x) == bs[i].key)
  }

  /** Regrouping what whole groups hold gives those groups back. */
  lemma {:induction false} Regroup<K(!new), T(!new)>(bs: seq<Bucket<K, T>>, key: T -> K)
    requires WellKeyed(bs, key)
    ensures GroupBy(key, Flatten(Items(bs))) == bs
  {
    if bs != [] {
      hide GroupBy, Flatten, Items;
      var n := |bs| - 1;
      var init, last := bs[..n], bs[n];
      assert bs == init + [last];
      Regroup(init, key);
      ItemsPush(init, last);
      FlattenPush(Items(init), last.items);
      AddRun(init, key, last.items, last.key, Flatten(Items(init)));
    }
  }

  lemma ItemsPush<K, T>(bs: seq<Bucket<K, T>>, b: Bucket<K, T>)
    ensures Items(bs + [b]) == Items(bs) + [b.items]
  {
  }

  lemma GroupByWellKeyed<K(!new), T(!new)>(key: T -> K, xs: seq<T>)
    ensures WellKeyed(GroupBy(key, xs), key)
  {
    var g := GroupBy(key, xs);
    GroupByDescribes(key, xs);
    forall i, j | 0 <= i < j < |g| ensures g[i].key != g[j].key {
      assert Keys(g)[i] == g[i].key && Keys(g)[j] == g[j].key;
    }
    forall i | 0 <= i < |g| ensures g[i].items != [] && forall x :: x in g[i].items ==> key(x) == g[i].key {
      BucketNonempty(key, xs, i);
    }
  }

  /** With a cap of at least one, a run keeps the last N logical groups of a recipient, whole
      and in order, and all of them when there are no more than N. */
  lemma CapKeepsWholeGroups(cap: int, rows: seq<Note>)
    requires cap >= 1
    ensures var groups, kept := LogicalGroups(rows), LogicalGroups(CapOne(Some(cap), rows));
      && kept == (if |groups| > cap then groups[|groups| - cap..] else groups)
      && |kept| <= cap
  {
    hide GroupBy, Flatten;
    var bs := GroupBy(LogicalKeyOf, rows);
    if |bs| > cap {
      var m := |bs| - cap;
      GroupByWellKeyed(LogicalKeyOf, rows);
      Regroup(bs[m..], LogicalKeyOf);
      assert Items(bs[m..]) == LogicalGroups(rows)[m..];
    }
  }

  /** No group is split: rows of one recipient with the same logical key are kept or dropped together. */
  lemma CapNeverSplits(cap: int, rows: seq<Note>, a: Note, b: Note)
    requires cap >= 1 && a in rows && b in rows && LogicalKeyOf(a) == LogicalKeyOf(b)
    ensures a in CapOne(Some(cap), rows) <==> b in CapOne(Some(cap), rows)
  {
    if a in CapOne(Some(cap), rows) { CapKeepsTogether(cap, rows, a, b); }
    if b in CapOne(Some(cap), rows) { CapKeepsTogether(cap, rows, b, a); }
  }

  lemma CapKeepsTogether(cap: int, rows: seq<Note>, a: Note, b: Note)
    requires cap >= 1 && a in rows && b in rows && LogicalKeyOf(a) == LogicalKeyOf(b)
    requires a in CapOne(Some(cap), rows)
    ensures b in CapOne(Some(cap), rows)
  {
    hide GroupBy, Flatten;
    var bs := GroupBy(LogicalKeyOf, rows);
    if |bs| > cap {
      var m := |bs| - cap;
      var kept := Tail(LogicalGroups(rows), cap);
      FlattenContains(kept, a);
      var i :| 0 <= i < |kept| && a in kept[i];
      GroupByDescribes(LogicalKeyOf, rows);
      assert kept[i] == bs[m + i].items;
      assert b in kept[i];
      FlattenContains(kept, b);
    }
  }

  /** A cap of zero would keep everything: Python's `xs[-0:]` is the whole list. */
  lemma CapZeroKeepsAll(rows: seq<Note>, n: Note)
    ensures n in CapOne(Some(0), rows) <==> n in rows
  {
    var groups := LogicalGroups(rows);
    assert Tail(groups, 0) == groups;
    GroupByMembers(LogicalKeyOf, rows, n);
  }

  lemma CapOneNonempty(cap: Option<int>, rows: seq<Note>)
    requires rows != [] && (cap.Some? ==> cap.value >= 1)
    ensures CapOne(cap, rows) != []
  {
    var bs := GroupBy(LogicalKeyOf, rows);
    if cap.Some? && |bs| > cap.value {
      var kept := Tail(LogicalGroups(rows), cap.value);
      var last := |bs| - 1;
      BucketNonempty(LogicalKeyOf, rows, last);
      assert kept[|kept| - 1] == bs[last].items;
      FlattenContains(kept, bs[last].items[0]);
    }
  }

  lemma IncludedNonempty(cap: Option<int>, rows: seq<Note>)
    requires rows != [] && (cap.Some? ==> cap.value >= 1)
    ensures Included(cap, rows) != []
  {
    var groups := GroupBy(RecipientOf, rows);
    GroupByMembers(RecipientOf, rows, rows[0]);
    FlattenContains(Items(groups), rows[0]);
    var i :| 0 <= i < |groups| && rows[0] in Items(groups)[i];
    CapOneNonempty(cap, groups[i].items);
    var capped := CapEach(cap, groups);
    FlattenContains(capped, capped[i][0]);
  }

  // ------------------------------------------------------------------ recipient by recipient

  function ForUser(u: UserId): Note -> bool { (n: Note) => n.recipient == u }

  lemma {:induction false} UserRows(rows: seq<Note>, u: UserId)
    ensures WithKey(RecipientOf, u, rows) == Filter(ForUser(u), rows)
  {
    if rows != [] { UserRows(rows[..|rows| - 1], u); }
  }

  lemma {:induction false} OnlyFor(rows: seq<Note>, u: UserId)
    ensures (forall n :: n in rows ==> n.recipient == u) ==> Filter(ForUser(u), rows) == rows
    ensures (forall n :: n in rows ==> n.recipient != u) ==> Filter(ForUser(u), rows) == []
  {
    if rows != [] {
      var n := |rows| - 1;
      assert rows == rows[..n] + [rows[n]];
      OnlyFor(rows[..n], u);
    }
  }

  lemma {:induction false} FilterConcat(p: Note -> bool, xs: seq<Note>, ys: seq<Note>)
    ensures Filter(p, xs + ys) == Filter(p, xs) + Filter(p, ys)
  {
    if ys == [] {
      assert xs + ys == xs;
    } else {
      var n := |ys| - 1;
      FilterConcat(p, xs, ys[..n]);
      assert xs + ys == (xs + ys[..n]) + [ys[n]] && ys == ys[..n] + [ys[n]];
      FilterPush(p, xs + ys[..n], ys[n]);
      FilterPush(p, ys[..n], ys[n]);
    }
  }

  lemma CappedRows(cap: Option<int>, b: Bucket<UserId, Note>, u: UserId)
    requires forall n :: n in b.items ==> n.recipient == b.key
    ensures Filter(ForUser(u), CapOne(cap, b.items)) == if b.key == u then CapOne(cap, b.items) else []
  {
    hide CapOne;
    var kept := CapOne(cap, b.items);
    forall m | m in kept ensures m.recipient == b.key { CapOneMember(cap, b.items, m); }
    OnlyFor(kept, u);
  }

  lemma CapEachPush(cap: Option<int>, groups: seq<Bucket<UserId, Note>>, b: Bucket<UserId, Note>)
    ensures Flatten(CapEach(cap, groups + [b])) == Flatten(CapEach(cap, groups)) + CapOne(cap, b.items)
  {
    hide CapOne;
    assert CapEach(cap, groups + [b]) == CapEach(cap, groups) + [CapOne(cap, b.items)];
    FlattenPush(CapEach(cap, groups), CapOne(cap, b.items));
  }

  lemma NothingCapped(cap: Option<int>, u: UserId)
    ensures Filter(ForUser(u), Flatten(CapEach(cap, []))) == []
  {
  }

  /** What remains of one recipient's rows in a list of capped buckets of different recipients. */
  lemma {:induction false} CappedRowsOf(cap: Option<int>, groups: seq<Bucket<UserId, Note>>, u: UserId, i: nat)
    requires forall b, n :: b in groups && n in b.items ==> n.recipient == b.key
    requires i <= |groups| && (i < |groups| ==> groups[i].key == u)
    requires forall j :: 0 <= j < |groups| && j != i ==> groups[j].key != u
    ensures Filter(ForUser(u), Flatten(CapEach(cap, groups)))
         == if i < |groups| then CapOne(cap, groups[i].items) else []
  {
    hide CapOne, Filter, Flatten, CapEach, ForUser;
    if groups == [] {
      NothingCapped(cap, u);
    } else {
      var n := |groups| - 1;
      var init, last := groups[..n], groups[n];
      assert groups == init + [last] && last in groups && forall b :: b in init ==> b in groups;
      CappedRowsOf(cap, init, u, if i < n then i else n);
      CapEachPush(cap, init, last);
      FilterConcat(ForUser(u), Flatten(CapEach(cap, init)), CapOne(cap, last.items));
      CappedRows(cap, last, u);
    }
  }

  /** The cap is each recipient's own: of a recipient's routed rows a channel holds what the cap leaves of them,
      however many rows others have. */
  lemma CapIsPerRecipient(cap: Option<int>, routed: seq<Note>, u: UserId)
    ensures Filter(ForUser(u), Included(cap, routed)) == CapOne(cap, Filter(ForUser(u), routed))
  {
    var groups, own := GroupBy(RecipientOf, routed), WithKey(RecipientOf, u, routed);
    GroupByDescribes(RecipientOf, routed);
    GroupByWellKeyed(RecipientOf, routed);
    UserRows(routed, u);
    forall b, n | b in groups && n in b.items ensures n.recipient == b.key {
      var k :| 0 <= k < |groups| && groups[k] == b;
      BucketNonempty(RecipientOf, routed, k);
    }
    if u in Keys(groups) {
      var i :| 0 <= i < |groups| && Keys(groups)[i] == u;
      CappedRowsOf(cap, groups, u, i);
    } else {
      forall j | 0 <= j < |groups| ensures groups[j].key != u { assert Keys(groups)[j] == groups[j].key; }
      CappedRowsOf(cap, groups, u, |groups|);
      NoneWithKey(RecipientOf, u, routed);
      CapOfNothing(cap);
    }
  }

  lemma CapOfNothing(cap: Option<int>)
    ensures CapOne(cap, []) == []
  {
  }
}
