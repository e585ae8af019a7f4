/** The fate of the rows of a digest: delivered on a card, deferred, or consumed silently. */
module DigestRows {
  import opened OrderedGroups
  import opened Sequences
  import opened Notifications
  import opened DigestBalance
  import opened Delivery

  // ------------------------------------------------------------------ entries come from rows

  lemma DigestGroupsMember(f: Feature, rows: seq<Note>, n: Note)
    ensures n in Flatten(DigestGroups(f, rows)) ==> n in rows
    ensures rows != [] ==> DigestGroups(f, rows) != []
  {
    var shown := if f == SocialActivity then Filter(NotSuperseded(rows), rows) else rows;
    GroupByMembers(ActorOf, shown, n);
    GroupByMembers(LogicalKeyOf, shown, n);
    if rows != [] {
      var first := rows[0];
      if f == SocialActivity && !NotSuperseded(rows)(first) {
        first :| first in rows && first.kind.NewFriend?;
      }
      assert first in shown;
      GroupByMembers(ActorOf, shown, first);
      GroupByMembers(LogicalKeyOf, shown, first);
    }
  }

  lemma NoEmptyGroup<K(!new)>(key: Note -> K, rows: seq<Note>)
    ensures [] !in Items(GroupBy(key, rows))
  {
    var groups := GroupBy(key, rows);
    forall i | 0 <= i < |groups| ensures groups[i].items != [] { BucketNonempty(key, rows, i); }
  }

  lemma DigestGroupsNonempty(f: Feature, rows: seq<Note>)
    ensures [] !in DigestGroups(f, rows)
  {
    var shown := if f == SocialActivity then Filter(NotSuperseded(rows), rows) else rows;
    NoEmptyGroup(ActorOf, shown);
    NoEmptyGroup(LogicalKeyOf, shown);
  }

  /** The entries of a feature carry the ids of its visible rows, each at least one. */
  lemma FeatureEntry(w: World, b: Bucket<Target, Note>, e: Entry)
    requires e in FeatureEntries(w, b)
    ensures e.ids != [] && forall id :: id in e.ids ==> id in FreshIds(w, b)
  {
    var f, rows := b.key.feature, Visible(w, b.items);
    var groups := DigestGroups(f, rows);
    var lists := EntryLists(w, f, groups);
    FlattenContains(lists, e);
    var i :| 0 <= i < |lists| && e in lists[i];
    forall id | id in e.ids ensures id in FreshIds(w, b) {
      var n: Note :| n in groups[i] && n.id == id;
      FlattenContains(groups, n);
      DigestGroupsMember(f, rows, n);
    }
  }

  lemma FeatureHasEntry(w: World, b: Bucket<Target, Note>)
    requires Visible(w, b.items) != []
    ensures FeatureEntries(w, b) != []
  {
    var f, rows := b.key.feature, Visible(w, b.items);
    var groups := DigestGroups(f, rows);
    DigestGroupsMember(f, rows, rows[0]);
    DigestGroupsNonempty(f, rows);
    assert groups[0] in groups;
    var lists := EntryLists(w, f, groups);
    FlattenContains(lists, lists[0][0]);
  }

  ghost predicate EntriesHaveIds(ss: seq<Section>) {
    forall s, e :: s in ss && e in s.entries ==> e.ids != []
  }

  /** An entry of a recipient's digest comes from one of that recipient's features. */
  lemma SectionEntry(w: World, features: seq<Bucket<Target, Note>>, s: Section, e: Entry)
    returns (b: Bucket<Target, Note>)
    requires s in SectionsOf(w, features) && e in s.entries
    ensures b in features && e in FeatureEntries(w, b)
  {
    var kept := Filter(Sayable(w), features);
    var groups := GroupBy(SectionNameOf, kept);
    var i :| 0 <= i < |groups| && SectionsOf(w, features)[i] == s;
    var lists := FeatureLists(w, groups[i].items);
    FlattenContains(lists, e);
    var j :| 0 <= j < |lists| && e in lists[j];
    b := groups[i].items[j];
    BucketNonempty(SectionNameOf, kept, i);
    assert b in groups[i].items;
  }

  /** The entries of a recipient's digest carry ids of that recipient's visible rows. */
  lemma SectionsFromRows(w: World, features: seq<Bucket<Target, Note>>)
    ensures EntryIds(SectionsOf(w, features)) <= VisibleIds(w, features)
    ensures EntriesHaveIds(SectionsOf(w, features))
  {
    hide SectionsOf, FeatureEntries;
    var ss := SectionsOf(w, features);
    forall s, e | s in ss && e in s.entries
      ensures e.ids != [] && forall id :: id in e.ids ==> id in VisibleIds(w, features) {
      var b := SectionEntry(w, features, s, e);
      FeatureEntry(w, b, e);
      forall id | id in e.ids ensures id in VisibleIds(w, features) { UnionHas(FreshIdsIn(w), features, b, id); }
    }
  }

  lemma {:induction false} CountPositive(ss: seq<Section>)
    requires forall s :: s in ss ==> s.entries != []
    ensures Sum(EntryCount, ss) >= |ss|
  {
    if ss != [] {
      assert ss[|ss| - 1] in ss;
      CountPositive(ss[..|ss| - 1]);
    }
  }

  /** A digest that has a section has an entry. */
  lemma SectionsCount(w: World, features: seq<Bucket<Target, Note>>)
    ensures Sum(EntryCount, SectionsOf(w, features)) >= |SectionsOf(w, features)|
  {
    var ss := SectionsOf(w, features);
    var kept := Filter(Sayable(w), features);
    var groups := GroupBy(SectionNameOf, kept);
    forall s | s in ss ensures s.entries != [] {
      var i :| 0 <= i < |ss| && ss[i] == s;
      BucketNonempty(SectionNameOf, kept, i);
      var b := groups[i].items[0];
      assert b in groups[i].items;
      FeatureHasEntry(w, b);
      var lists := FeatureLists(w, groups[i].items);
      FlattenContains(lists, lists[0][0]);
    }
    CountPositive(ss);
  }

  // ------------------------------------------------------------------ one recipient

  /** One recipient's digest: what is shown and what is deferred are disjoint rows of that
      recipient, and something is always shown. */
  lemma OneDigestFate(g: Settings, w: World, d: Digest)
    ensures DigestDelivers(g, w, d) <= VisibleIds(w, d.items) && DigestDefers(g, w, d) <= VisibleIds(w, d.items)
    ensures DigestDelivers(g, w, d) !! DigestDefers(g, w, d)
    ensures SectionsOf(w, d.items) != [] ==> DigestDelivers(g, w, d) != {}
  {
    var ss := SectionsOf(w, d.items);
    SectionsFromRows(w, d.items);
    SectionsCount(w, d.items);
    RenderedAreEntries(ss, g.perKindCap, g.maxItems);
    if ss != [] {
      BalanceRendersSomething(ss, g.perKindCap, g.maxItems);
      var id :| id in Rendered(g, w, d);
      assert id in DigestDelivers(g, w, d);
    }
  }

  // ------------------------------------------------------------------ all recipients

  ghost predicate DistinctIds(rows: seq<Note>) {
    forall a, b :: a in rows && b in rows && a.id == b.id ==> a == b
  }

  lemma GroupOwned(w: World, allowed: seq<Note>, b: Bucket<Target, Note>, id: Id) returns (n: Note)
    requires b in GroupBy(TargetOf, allowed) && id in FreshIds(w, b)
    ensures n in allowed && n.id == id && TargetOf(n) == b.key && n.id !in w.past
  {
    n :| n in Visible(w, b.items) && n.id == id;
    var groups := GroupBy(TargetOf, allowed);
    var j :| 0 <= j < |groups| && groups[j] == b;
    BucketNonempty(TargetOf, allowed, j);
  }

  /** A row shown in the digest of a recipient is an included row of that recipient. */
  lemma VisibleOwned(s: Store, w: World, included: seq<Note>, d: Digest, id: Id) returns (n: Note)
    requires d in GroupBy(UserOf, EmailGroups(s, included)) && id in VisibleIds(w, d.items)
    ensures n in included && n.id == id && n.recipient == d.key && FeatureOf(n.kind) != Unlisted && n.id !in w.past
  {
    var groups := EmailGroups(s, included);
    var byUser := GroupBy(UserOf, groups);
    var i :| 0 <= i < |byUser| && byUser[i] == d;
    BucketNonempty(UserOf, groups, i);
    var b :| b in d.items && id in FreshIds(w, b);
    n := GroupOwned(w, Filter(EmailAllowedIn(s), included), b, id);
  }

  lemma SameRecipient(s: Store, w: World, included: seq<Note>, a: Digest, b: Digest, id: Id)
    requires DistinctIds(included)
    requires a in GroupBy(UserOf, EmailGroups(s, included)) && b in GroupBy(UserOf, EmailGroups(s, included))
    requires id in VisibleIds(w, a.items) && id in VisibleIds(w, b.items)
    ensures a == b
  {
    var groups := EmailGroups(s, included);
    var ds := GroupBy(UserOf, groups);
    var m := VisibleOwned(s, w, included, a, id);
    var n := VisibleOwned(s, w, included, b, id);
    GroupByDescribes(UserOf, groups);
    var i :| 0 <= i < |ds| && ds[i] == a;
    var j :| 0 <= j < |ds| && ds[j] == b;
    assert Keys(ds)[i] == Keys(ds)[j];
  }

  lemma CombinedInside(g: Settings, w: World, s: Store, included: seq<Note>, id: Id)
    requires var o := CombinedDigests(g, w, s, GroupBy(UserOf, EmailGroups(s, included)));
      id in o.delivered || id in o.deferred
    ensures id in IdsOf(included)
  {
    var d: Digest :| d in GroupBy(UserOf, EmailGroups(s, included))
      && (id in DigestDelivers(g, w, d) || id in DigestDefers(g, w, d));
    OneDigestFate(g, w, d);
    var n := VisibleOwned(s, w, included, d, id);
  }

  lemma CombinedDisjoint(g: Settings, w: World, s: Store, included: seq<Note>, a: Digest, b: Digest, id: Id)
    requires DistinctIds(included)
    requires a in GroupBy(UserOf, EmailGroups(s, included)) && b in GroupBy(UserOf, EmailGroups(s, included))
    ensures !(id in DigestDelivers(g, w, a) && id in DigestDefers(g, w, b))
  {
    OneDigestFate(g, w, a);
    OneDigestFate(g, w, b);
    if id in DigestDelivers(g, w, a) && id in DigestDefers(g, w, b) { SameRecipient(s, w, included, a, b, id); }
  }

  lemma CombinedShows(g: Settings, w: World, s: Store, ds: seq<Digest>, id: Id)
    requires id in CombinedDigests(g, w, s, ds).deferred
    ensures CombinedDigests(g, w, s, ds).delivered != {}
  {
    hide DigestDelivers, DigestDefers, SectionsOf;
    var d := UnionFrom(DefersIn(g, w, s), ds, id);
    OneDigestFate(g, w, d);
    var shown :| shown in DigestDelivers(g, w, d);
    UnionHas(DeliversIn(g, w, s), ds, d, shown);
  }

  lemma CombinedFate(g: Settings, w: World, s: Store, included: seq<Note>)
    requires DistinctIds(included)
    ensures var o := CombinedDigests(g, w, s, GroupBy(UserOf, EmailGroups(s, included)));
      && o.delivered <= IdsOf(included) && o.deferred <= IdsOf(included)
      && o.delivered !! o.deferred
      && (o.deferred != {} ==> o.delivered != {})
  {
    hide DigestDelivers, DigestDefers;
    var ds := GroupBy(UserOf, EmailGroups(s, included));
    var o := CombinedDigests(g, w, s, ds);
    forall id | id in o.delivered || id in o.deferred ensures id in IdsOf(included) {
      CombinedInside(g, w, s, included, id);
    }
    forall a, b, id | a in ds && b in ds ensures !(id in DigestDelivers(g, w, a) && id in DigestDefers(g, w, b)) {
      CombinedDisjoint(g, w, s, included, a, b, id);
    }
    if id :| id in o.deferred { CombinedShows(g, w, s, ds, id); }
  }

  /** Whether a row is deferred is decided by its own recipient's digest alone: sent, with the row in
      some entry, and on no card. */
  lemma DeferredByOwnDigest(g: Settings, w: World, s: Store, included: seq<Note>, n: Note)
    requires DistinctIds(included) && n in included && g.combined
    ensures n.id in Digests(g, w, s, included).deferred <==>
      exists d :: d in GroupBy(UserOf, EmailGroups(s, included)) && d.key == n.recipient && DigestSent(w, s, d)
                  && n.id in EntryIds(SectionsOf(w, d.items)) && n.id !in Rendered(g, w, d)
  {
    hide Rendered, SectionsOf, EmailGroups, VisibleIds;
    var ds := GroupBy(UserOf, EmailGroups(s, included));
    assert Digests(g, w, s, included) == CombinedDigests(g, w, s, ds);
    if n.id in CombinedDigests(g, w, s, ds).deferred {
      var d := UnionFrom(DefersIn(g, w, s), ds, n.id);
      OneDigestFate(g, w, d);
      DeferredOwner(g, w, s, included, d, n);
    }
    if d: Digest :| d in ds && d.key == n.recipient && DigestSent(w, s, d)
                    && n.id in EntryIds(SectionsOf(w, d.items)) && n.id !in Rendered(g, w, d) {
      assert n.id in DigestDefers(g, w, d);
      UnionHas(DefersIn(g, w, s), ds, d, n.id);
    }
  }

  lemma DeferredOwner(g: Settings, w: World, s: Store, included: seq<Note>, d: Digest, n: Note)
    requires DistinctIds(included) && n in included
    requires d in GroupBy(UserOf, EmailGroups(s, included)) && n.id in VisibleIds(w, d.items)
    ensures d.key == n.recipient
  {
    var m := VisibleOwned(s, w, included, d, n.id);
  }

  lemma MailInside(g: Settings, w: World, fails: set<Target>, allowed: Note -> bool, included: seq<Note>)
    ensures SendMail(g, w, fails, GroupBy(TargetOf, Filter(allowed, included))).delivered <= IdsOf(included)
  {
    var kept := Filter(allowed, included);
    forall id | id in SendMail(g, w, fails, GroupBy(TargetOf, kept)).delivered ensures id in IdsOf(included) {
      var b :| b in GroupBy(TargetOf, kept) && id in FreshIds(w, b);
      var n := GroupOwned(w, kept, b, id);
    }
  }

  /** The rows of a digest, combined or separate: every row is an included one, none is both
      delivered and deferred, and a digest never defers everything. */
  lemma DigestFate(g: Settings, w: World, s: Store, included: seq<Note>)
    requires DistinctIds(included)
    ensures var o := Digests(g, w, s, included);
      && o.delivered <= IdsOf(included) && o.deferred <= IdsOf(included)
      && o.delivered !! o.deferred
      && (included != [] ==> IdsOf(included) - o.deferred != {})
  {
    var o := Digests(g, w, s, included);
    if g.combined {
      CombinedFate(g, w, s, included);
    } else {
      MailInside(g, w, w.digestMailFails, EmailAllowedIn(s), included);
    }
    if included != [] {
      assert included[0] in included && included[0].id in IdsOf(included);
      if o.deferred != {} {
        var id :| id in o.delivered;
        assert id in IdsOf(included) - o.deferred;
      } else {
        assert included[0].id in IdsOf(included) - o.deferred;
      }
    }
  }

  // ------------------------------------------------------------------ pushes

  /** A row is never both delivered by push and kept for a retry. */
  lemma PushFate(w: World, s: Store, included: seq<Note>)
    requires DistinctIds(included)
    ensures var p := SendPushes(w, PushGroups(s, included));
      && p.delivered <= IdsOf(included) && p.retry <= IdsOf(included)
      && p.delivered !! p.retry
  {
    var allowed := Filter(PushAllowedIn(s), included);
    var groups := PushGroups(s, included);
    var p := SendPushes(w, groups);
    forall id | id in p.delivered || id in p.retry ensures id in IdsOf(included) {
      var b :| b in groups && id in FreshIds(w, b);
      var n := GroupOwned(w, allowed, b, id);
    }
    forall id | id in p.delivered ensures id !in p.retry {
      if id in p.retry {
        var a :| a in groups && Pushed(w, a.key) && id in FreshIds(w, a);
        var b :| b in groups && OutcomeOf(w, b.key).Transient? && id in FreshIds(w, b);
        var m := GroupOwned(w, allowed, a, id);
        var n := GroupOwned(w, allowed, b, id);
      }
    }
  }
}
