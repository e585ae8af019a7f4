/** No row of a digest disappears: what becomes of every included row, and for which five reasons one
    is consumed without being shown or deferred. */
module DigestCoverage {
  import opened Options
  import opened OrderedGroups
  import opened Notifications
  import opened DigestBalance
  import opened Delivery
  import opened DigestRows
  import opened DeliveryRuns

  // ------------------------------------------------------------------ rows and entries

  /** The rows a feature's entries are made from. */
  function Shown(f: Feature, rows: seq<Note>): seq<Note> {
    if f == SocialActivity then Filter(NotSuperseded(rows), rows) else rows
  }

  lemma GroupsHoldShown(f: Feature, rows: seq<Note>, n: Note)
    ensures n in Flatten(DigestGroups(f, rows)) <==> n in Shown(f, rows)
  {
    GroupByMembers(ActorOf, Shown(f, rows), n);
    GroupByMembers(LogicalKeyOf, Shown(f, rows), n);
  }

  /** A row that stays visible is named by some entry of its feature. */
  lemma ShownHasEntry(w: World, b: Bucket<Target, Note>, n: Note) returns (e: Entry)
    requires n in Shown(b.key.feature, Visible(w, b.items))
    ensures e in FeatureEntries(w, b) && n.id in e.ids
  {
    var f, rows := b.key.feature, Visible(w, b.items);
    var groups := DigestGroups(f, rows);
    var lists := EntryLists(w, f, groups);
    GroupsHoldShown(f, rows, n);
    FlattenContains(groups, n);
    var i :| 0 <= i < |groups| && n in groups[i];
    e := lists[i][0];
    assert e in GroupEntries(w, f, groups[i]);
    FlattenContains(lists, e);
  }

  lemma EntryNamesShown(w: World, b: Bucket<Target, Note>, e: Entry, id: Id) returns (n: Note)
    requires e in FeatureEntries(w, b) && id in e.ids
    ensures n in Shown(b.key.feature, Visible(w, b.items)) && n.id == id
  {
    var f, rows := b.key.feature, Visible(w, b.items);
    var groups := DigestGroups(f, rows);
    var lists := EntryLists(w, f, groups);
    FlattenContains(lists, e);
    var i :| 0 <= i < |lists| && e in lists[i];
    n :| n in groups[i] && n.id == id;
    FlattenContains(groups, n);
    GroupsHoldShown(f, rows, n);
  }

  lemma EntryInSections(w: World, features: seq<Bucket<Target, Note>>, b: Bucket<Target, Note>, e: Entry, id: Id)
    requires b in features && Visible(w, b.items) != [] && e in FeatureEntries(w, b) && id in e.ids
    ensures id in EntryIds(SectionsOf(w, features))
  {
    hide FeatureEntries, Visible;
    var kept := Filter(Sayable(w), features);
    var groups := GroupBy(SectionNameOf, kept);
    assert Sayable(w)(b);
    GroupByMembers(SectionNameOf, kept, b);
    FlattenContains(Items(groups), b);
    var i :| 0 <= i < |groups| && b in Items(groups)[i];
    var j :| 0 <= j < |groups[i].items| && groups[i].items[j] == b;
    var lists := FeatureLists(w, groups[i].items);
    assert e in lists[j];
    FlattenContains(lists, e);
    var s := SectionFor(w, groups[i]);
    assert SectionsOf(w, features)[i] == s;
    assert s in SectionsOf(w, features) && e in s.entries;
  }

  /** The entries of a recipient's digest name exactly the rows shown of that recipient's features. */
  lemma EntriesNameShown(w: World, features: seq<Bucket<Target, Note>>, id: Id)
    ensures id in EntryIds(SectionsOf(w, features)) <==>
      exists b, n :: b in features && n in Shown(b.key.feature, Visible(w, b.items)) && n.id == id
  {
    hide SectionsOf, FeatureEntries, Visible, Shown;
    if id in EntryIds(SectionsOf(w, features)) {
      var s, e :| s in SectionsOf(w, features) && e in s.entries && id in e.ids;
      var b := SectionEntry(w, features, s, e);
      var n := EntryNamesShown(w, b, e, id);
    }
    if b, n :| b in features && n in Shown(b.key.feature, Visible(w, b.items)) && n.id == id {
      var e := ShownHasEntry(w, b, n);
      ShownIsVisible(b.key.feature, Visible(w, b.items), n);
      EntryInSections(w, features, b, e, id);
    }
  }

  lemma ShownIsVisible(f: Feature, rows: seq<Note>, n: Note)
    requires n in Shown(f, rows)
    ensures rows != []
  {
  }

  // ------------------------------------------------------------------ one digest

  /** A digest that is sent delivers or defers exactly the rows its entries name. */
  lemma DigestAccounts(g: Settings, w: World, d: Digest)
    ensures DigestDelivers(g, w, d) + DigestDefers(g, w, d) == EntryIds(SectionsOf(w, d.items))
  {
    hide SectionsOf, Balance;
    SectionsFromRows(w, d.items);
    RenderedAreEntries(SectionsOf(w, d.items), g.perKindCap, g.maxItems);
  }

  // ------------------------------------------------------------------ the five reasons

  /** Another visible row tells the recipient that the new follower is a friend. */
  ghost predicate Superseded(w: World, s: Store, included: seq<Note>, n: Note) {
    n.kind.NewFollower? &&
    exists m :: m in included && EmailAllowed(s, m) && m.id !in w.past
                && m.kind.NewFriend? && m.recipient == n.recipient && m.actor == n.actor
  }

  /** The recipient takes emails of this feature and digests at all, the row is not out of date, it is
      not superseded, and the digest does not fail. */
  ghost predicate Tellable(w: World, s: Store, included: seq<Note>, n: Note) {
    && EmailAllowed(s, n) && n.id !in w.past && !Superseded(w, s, included, n)
    && WantsDigest(s, n.recipient) && n.recipient !in w.digestFails
  }

  lemma BucketOfTarget(allowed: seq<Note>, b: Bucket<Target, Note>, n: Note)
    requires b in GroupBy(TargetOf, allowed)
    ensures n in b.items <==> n in allowed && TargetOf(n) == b.key
  {
    var groups := GroupBy(TargetOf, allowed);
    GroupByDescribes(TargetOf, allowed);
    var i :| 0 <= i < |groups| && groups[i] == b;
  }

  /** Within its group a row stays visible exactly when it is neither out of date nor superseded. */
  lemma ShownIff(w: World, s: Store, included: seq<Note>, b: Bucket<Target, Note>, n: Note)
    requires b in EmailGroups(s, included) && n in included && EmailAllowed(s, n) && TargetOf(n) == b.key
    ensures n in Shown(b.key.feature, Visible(w, b.items)) <==> n.id !in w.past && !Superseded(w, s, included, n)
  {
    hide GroupBy;
    var allowed := Filter(EmailAllowedIn(s), included);
    forall m ensures m in b.items <==> m in allowed && TargetOf(m) == b.key { BucketOfTarget(allowed, b, m); }
    var rows := Visible(w, b.items);
    if n.kind.NewFollower? {
      if Superseded(w, s, included, n) {
        var m :| m in included && EmailAllowed(s, m) && m.id !in w.past
                 && m.kind.NewFriend? && m.recipient == n.recipient && m.actor == n.actor;
        assert TargetOf(m) == b.key;
        assert m in rows;
      }
    }
  }

  /** The digest that could carry the row, if its feature may be emailed. */
  lemma OwnDigest(s: Store, included: seq<Note>, n: Note) returns (d: Digest, b: Bucket<Target, Note>)
    requires n in included && EmailAllowed(s, n)
    ensures d in GroupBy(UserOf, EmailGroups(s, included)) && d.key == n.recipient
    ensures b in d.items && b in EmailGroups(s, included) && b.key == TargetOf(n)
  {
    var allowed := Filter(EmailAllowedIn(s), included);
    var groups := EmailGroups(s, included);
    GroupByMembers(TargetOf, allowed, n);
    FlattenContains(Items(groups), n);
    var i :| 0 <= i < |groups| && n in Items(groups)[i];
    b := groups[i];
    BucketOfTarget(allowed, b, n);
    GroupByMembers(UserOf, groups, b);
    var ds := GroupBy(UserOf, groups);
    FlattenContains(Items(ds), b);
    var j :| 0 <= j < |ds| && b in Items(ds)[j];
    d := ds[j];
    BucketNonempty(UserOf, groups, j);
  }

  lemma NamedByOwnDigest(w: World, s: Store, included: seq<Note>, d: Digest, n: Note)
    requires DistinctIds(included) && n in included
    requires d in GroupBy(UserOf, EmailGroups(s, included)) && n.id in EntryIds(SectionsOf(w, d.items))
    ensures d.key == n.recipient && EmailAllowed(s, n) && n.id !in w.past && !Superseded(w, s, included, n)
  {
    hide SectionsOf, Visible, Shown;
    var groups := EmailGroups(s, included);
    EntriesNameShown(w, d.items, n.id);
    var b, m :| b in d.items && m in Shown(b.key.feature, Visible(w, b.items)) && m.id == n.id;
    var i :| 0 <= i < |GroupBy(UserOf, groups)| && GroupBy(UserOf, groups)[i] == d;
    BucketNonempty(UserOf, groups, i);
    ShownRow(w, s, included, b, m);
    ShownIff(w, s, included, b, n);
  }

  lemma ShownRow(w: World, s: Store, included: seq<Note>, b: Bucket<Target, Note>, m: Note)
    requires b in EmailGroups(s, included) && m in Shown(b.key.feature, Visible(w, b.items))
    ensures m in included && EmailAllowed(s, m) && TargetOf(m) == b.key
  {
    hide GroupBy;
    BucketOfTarget(Filter(EmailAllowedIn(s), included), b, m);
  }

  /** Conservation: a row included in a combined digest is delivered or deferred exactly when it is
      tellable; otherwise the run consumes it silently, and the predicate names the reason. */
  lemma NoRowDisappears(g: Settings, w: World, s: Store, included: seq<Note>, n: Note)
    requires g.combined && DistinctIds(included) && n in included
    ensures var o := Digests(g, w, s, included);
      n.id in o.delivered || n.id in o.deferred <==> Tellable(w, s, included, n)
  {
    hide SectionsOf, Shown, Visible, EmailGroups, DigestDelivers, DigestDefers, Superseded;
    var ds := GroupBy(UserOf, EmailGroups(s, included));
    var o := CombinedDigests(g, w, s, ds);
    if n.id in o.delivered || n.id in o.deferred {
      var d;
      if n.id in o.delivered {
        d := UnionFrom(DeliversIn(g, w, s), ds, n.id);
      } else {
        d := UnionFrom(DefersIn(g, w, s), ds, n.id);
      }
      DigestAccounts(g, w, d);
      NamedByOwnDigest(w, s, included, d, n);
    }
    if Tellable(w, s, included, n) {
      var d, b := OwnDigest(s, included, n);
      ShownIff(w, s, included, b, n);
      EntriesNameShown(w, d.items, n.id);
      DigestAccounts(g, w, d);
      NamedMeansSections(w, d.items, n.id);
      if n.id in DigestDelivers(g, w, d) {
        UnionHas(DeliversIn(g, w, s), ds, d, n.id);
      } else {
        UnionHas(DefersIn(g, w, s), ds, d, n.id);
      }
    }
  }

  lemma NamedMeansSections(w: World, features: seq<Bucket<Target, Note>>, id: Id)
    requires id in EntryIds(SectionsOf(w, features))
    ensures SectionsOf(w, features) != []
  {
  }

  /** In a whole run: a row included for email is stamped without ever having been shown exactly when it
      is not tellable. */
  lemma SilentlyConsumedIff(c: Call, g: Settings, w: World, s: Store, n: Note)
    requires s.Valid() && g.combined
    ensures var p, s' := PlanRun(c, g, w, s), Run(c, g, w, s);
      n in p.email ==>
        && n.id in s'.stamps
        && ((s'.stamps[n.id].emailed == Some(w.now) && n.id !in p.digests.delivered && n.id !in p.digests.deferred)
            <==> !Tellable(w, s, p.email, n))
  {
    hide Tellable, PlanRun;
    var p := PlanRun(c, g, w, s);
    if n in p.email {
      PlanDistinct(c, g, w, s);
      PlanRows(c, g, w, s, n);
      StampsAfter(c, g, w, s, n);
      DigestsArePlanned(c, g, w, s);
      NoRowDisappears(g, w, s, p.email, n);
    }
  }

  lemma DigestsArePlanned(c: Call, g: Settings, w: World, s: Store)
    ensures PlanRun(c, g, w, s).digests == Digests(g, w, s, PlanRun(c, g, w, s).email)
  {
  }

  // ------------------------------------------------------------------ the other ways of sending

  lemma BucketFor(rows: seq<Note>, n: Note) returns (b: Bucket<Target, Note>)
    requires n in rows
    ensures b in GroupBy(TargetOf, rows) && b.key == TargetOf(n) && b.items == WithKey(TargetOf, TargetOf(n), rows)
  {
    var groups := GroupBy(TargetOf, rows);
    GroupByDescribes(TargetOf, rows);
    GroupByMembers(TargetOf, rows, n);
    FlattenContains(Items(groups), n);
    var i :| 0 <= i < |groups| && n in Items(groups)[i];
    b := groups[i];
    assert n in WithKey(TargetOf, b.key, rows);
  }

  lemma BucketIs(rows: seq<Note>, b: Bucket<Target, Note>)
    requires b in GroupBy(TargetOf, rows)
    ensures b.items == WithKey(TargetOf, b.key, rows)
  {
    GroupByDescribes(TargetOf, rows);
    var i :| 0 <= i < |GroupBy(TargetOf, rows)| && GroupBy(TargetOf, rows)[i] == b;
  }

  /** The rows the email of a row's group can speak of. */
  function GroupRows(w: World, s: Store, included: seq<Note>, n: Note): seq<Note> {
    Visible(w, WithKey(TargetOf, TargetOf(n), Filter(EmailAllowedIn(s), included)))
  }

  /** The row may be emailed, is not out of date, and its email goes out. */
  predicate Mailable(w: World, fails: set<Target>, s: Store, n: Note) {
    EmailAllowed(s, n) && n.id !in w.past && TargetOf(n) !in fails
  }

  /** One email per group: a row is delivered exactly when it is mailable, and rendered exactly when it is
      also among the first interest matches, if it is one. */
  lemma MailAccounts(g: Settings, w: World, fails: set<Target>, s: Store, included: seq<Note>, n: Note)
    requires DistinctIds(included) && n in included
    ensures var o := SendMail(g, w, fails, EmailGroups(s, included));
      && (n.id in o.delivered <==> Mailable(w, fails, s, n))
      && (n.id in o.rendered <==>
            Mailable(w, fails, s, n) && n in Cut(g.maxInterest, FeatureOf(n.kind), GroupRows(w, s, included, n)))
  {
    hide GroupBy, WithKey;
    var allowed := Filter(EmailAllowedIn(s), included);
    var groups := EmailGroups(s, included);
    if n.id in Union(MailedIds(w, fails), groups) {
      var b := UnionFrom(MailedIds(w, fails), groups, n.id);
      var m := GroupOwned(w, allowed, b, n.id);
    }
    if n.id in Union(RenderedIn(g, w, fails), groups) {
      var b := UnionFrom(RenderedIn(g, w, fails), groups, n.id);
      var m: Note :| m in Cut(g.maxInterest, b.key.feature, Visible(w, b.items)) && m.id == n.id;
      assert m in Visible(w, b.items) && m.id in FreshIds(w, b);
      var k := GroupOwned(w, allowed, b, n.id);
      BucketIs(allowed, b);
      assert m in allowed;
    }
    if Mailable(w, fails, s, n) {
      var b := BucketFor(allowed, n);
      assert n in Visible(w, b.items);
      UnionHas(MailedIds(w, fails), groups, b, n.id);
      if n in Cut(g.maxInterest, FeatureOf(n.kind), GroupRows(w, s, included, n)) {
        UnionHas(RenderedIn(g, w, fails), groups, b, n.id);
      }
    }
  }

  /** Instant email stamps every row it includes; the ones it did not deliver are exactly those not
      mailable, a failed send among them. */
  lemma InstantConsumedIff(c: Call, g: Settings, w: World, s: Store, n: Note)
    requires s.Valid() && n in PlanRun(c, g, w, s).instant
    ensures var p, s' := PlanRun(c, g, w, s), Run(c, g, w, s);
      && n.id in s'.stamps && s'.stamps[n.id].instant == Some(w.now)
      && (n.id in p.mail.delivered <==> Mailable(w, w.instantMailFails, s, n))
  {
    hide Mailable;
    PlanDistinct(c, g, w, s);
    PlanRows(c, g, w, s, n);
    StampsAfter(c, g, w, s, n);
    InstantOfPlan(c, g, w, s);
    MailAccounts(g, w, w.instantMailFails, s, PlanRun(c, g, w, s).instant, n);
  }

  lemma InstantOfPlan(c: Call, g: Settings, w: World, s: Store)
    ensures var p := PlanRun(c, g, w, s); p.mail == SendMail(g, w, w.instantMailFails, EmailGroups(s, p.instant))
  {
  }

  /** The separate digest likewise: one email per feature, every row stamped, none put off. */
  lemma SeparateConsumedIff(c: Call, g: Settings, w: World, s: Store, n: Note)
    requires s.Valid() && !g.combined && n in PlanRun(c, g, w, s).email
    ensures var p, s' := PlanRun(c, g, w, s), Run(c, g, w, s);
      && n.id in s'.stamps && s'.stamps[n.id].emailed == Some(w.now)
      && (n.id in p.digests.delivered <==> Mailable(w, w.digestMailFails, s, n))
  {
    hide Mailable;
    PlanDistinct(c, g, w, s);
    PlanRows(c, g, w, s, n);
    StampsAfter(c, g, w, s, n);
    DigestsOfPlan(c, g, w, s);
    SeparateOfPlan(g, w, s, PlanRun(c, g, w, s).email);
    MailAccounts(g, w, w.digestMailFails, s, PlanRun(c, g, w, s).email, n);
  }

  lemma SeparateOfPlan(g: Settings, w: World, s: Store, email: seq<Note>)
    requires !g.combined
    ensures Digests(g, w, s, email).delivered == SendMail(g, w, w.digestMailFails, EmailGroups(s, email)).delivered
  {
  }

  /** A push stamps every row it includes, delivered or not, unless the push service failed in passing. */
  lemma PushConsumedIff(c: Call, g: Settings, w: World, s: Store, n: Note)
    requires s.Valid() && n in PlanRun(c, g, w, s).push
    ensures var p, s', sayable := PlanRun(c, g, w, s), Run(c, g, w, s), PushAllowed(s, n) && n.id !in w.past;
      && n.id in s'.stamps
      && (n.id in p.pushes.delivered <==> sayable && Pushed(w, TargetOf(n)))
      && s'.stamps[n.id].pushed
         == if sayable && OutcomeOf(w, TargetOf(n)).Transient? then s.stamps[n.id].pushed else Some(w.now)
  {
    var p := PlanRun(c, g, w, s);
    PlanDistinct(c, g, w, s);
    PlanRows(c, g, w, s, n);
    PushAccounts(w, s, p.push, n);
    assert n.id in IdsOf(p.push);
    assert Run(c, g, w, s).stamps[n.id] == StampRow(RunTxn(c, g, w, s), n.id, s.stamps[n.id]);
  }

  lemma PushAccounts(w: World, s: Store, included: seq<Note>, n: Note)
    requires DistinctIds(included) && n in included
    ensures var o, sayable := SendPushes(w, PushGroups(s, included)), PushAllowed(s, n) && n.id !in w.past;
      && (n.id in o.delivered <==> sayable && Pushed(w, TargetOf(n)))
      && (n.id in o.retry <==> sayable && OutcomeOf(w, TargetOf(n)).Transient?)
  {
    hide GroupBy, WithKey;
    var allowed := Filter(PushAllowedIn(s), included);
    var groups := PushGroups(s, included);
    if n.id in Union(PushedIds(w), groups) {
      var b := UnionFrom(PushedIds(w), groups, n.id);
      var m := GroupOwned(w, allowed, b, n.id);
    }
    if n.id in Union(RetriedIds(w), groups) {
      var b := UnionFrom(RetriedIds(w), groups, n.id);
      var m := GroupOwned(w, allowed, b, n.id);
    }
    if PushAllowed(s, n) && n.id !in w.past {
      var b := BucketFor(allowed, n);
      assert n in Visible(w, b.items);
      if Pushed(w, TargetOf(n)) { UnionHas(PushedIds(w), groups, b, n.id); }
      if OutcomeOf(w, TargetOf(n)).Transient? { UnionHas(RetriedIds(w), groups, b, n.id); }
    }
  }
}
