/** The delivery run as the code performs it, on row objects: loops that route, cap, group, send and
    stamp, proved to compute `Delivery.Run`. */
module ActivityEmail {
  import opened Options
  import opened OrderedGroups
  import opened Sequences
  import opened Notifications
  import opened Schedule
  import opened DigestBalance
  import opened Delivery
  import opened DeliveryRuns

  // ------------------------------------------------------------------ rows

  class NotificationRow {
    const note: Note
    var emailedAt: Option<int>
    var instantEmailedAt: Option<int>
    var pushedAt: Option<int>

    constructor (note: Note)
      ensures this.note == note && Stamped() == Stamps(None, None, None)
    {
      this.note := note;
      emailedAt, instantEmailedAt, pushedAt := None, None, None;
    }

    function Stamped(): Stamps reads this { Stamps(emailedAt, instantEmailedAt, pushedAt) }
  }

  class UserRow {
    const id: UserId
    const profile: User  // its two clocks are the fields below
    var lastDigestSentAt: Option<int>
    var lastInterestPushAt: Option<int>

    constructor (id: UserId, profile: User)
      ensures this.id == id && Value() == profile
    {
      this.id, this.profile := id, profile;
      lastDigestSentAt, lastInterestPushAt := profile.lastDigest, profile.lastInterestPush;
    }

    function Value(): User reads this {
      profile.(lastDigest := lastDigestSentAt, lastInterestPush := lastInterestPushAt)
    }
  }

  /** Why routed rows were left for later: the three reasons of the digest slot, and the interest-push slot. */
  datatype Tally = Tally(wrongWeekday: nat, beforeTime: nat, alreadySent: nat, putOff: nat)

  /** What a run reports: that the digest is switched off, that nothing is pending, or its counters. */
  datatype Stats =
    | Skipped
    | Nothing
    | Ran(digests: nat, instantEmails: nat, pushed: int, pushRetry: nat, stamped: nat, fastPushed: nat,
          tally: Tally, recipients: set<UserId>, capped: set<UserId>)

  function OffSchedule(c: Call, g: Settings, w: World, s: Store, n: Note): Option<Status> {
    if !DigestCandidate(c, g, s, n) || c.force then None else
      var u := s.users[n.recipient];
      var status := SlotStatus(u.offset, u.lastDigest, w.now, g.schedule);
      if status == InSlot then None else Some(status)
  }

  predicate PutOff(c: Call, g: Settings, w: World, s: Store, n: Note) {
    PushCandidate(c, g, s, n) && !RoutesPush(c, g, w, s, n)
  }

  function OffIn(c: Call, g: Settings, w: World, s: Store, status: Status): Note -> bool {
    n => OffSchedule(c, g, w, s, n) == Some(status)
  }

  function PutOffIn(c: Call, g: Settings, w: World, s: Store): Note -> bool { n => PutOff(c, g, w, s, n) }

  function TallyOf(c: Call, g: Settings, w: World, s: Store, rows: seq<Note>): Tally {
    Tally(|Filter(OffIn(c, g, w, s, WrongWeekday), rows)|, |Filter(OffIn(c, g, w, s, BeforeScheduledTime), rows)|,
          |Filter(OffIn(c, g, w, s, AlreadySentToday), rows)|, |Filter(PutOffIn(c, g, w, s), rows)|)
  }

  function Tallied(t: Tally, off: Option<Status>, putOff: bool): Tally {
    Tally(t.wrongWeekday + if off == Some(WrongWeekday) then 1 else 0,
          t.beforeTime + if off == Some(BeforeScheduledTime) then 1 else 0,
          t.alreadySent + if off == Some(AlreadySentToday) then 1 else 0,
          t.putOff + if putOff then 1 else 0)
  }

  lemma TallyPush(c: Call, g: Settings, w: World, s: Store, rows: seq<Note>, n: Note)
    ensures TallyOf(c, g, w, s, rows + [n])
         == Tallied(TallyOf(c, g, w, s, rows), OffSchedule(c, g, w, s, n), PutOff(c, g, w, s, n))
  {
    hide OffSchedule, PutOff;
    FilterPush(OffIn(c, g, w, s, WrongWeekday), rows, n);
    FilterPush(OffIn(c, g, w, s, BeforeScheduledTime), rows, n);
    FilterPush(OffIn(c, g, w, s, AlreadySentToday), rows, n);
    FilterPush(PutOffIn(c, g, w, s), rows, n);
  }

  lemma NoTally(c: Call, g: Settings, w: World, s: Store, rows: seq<Note>)
    ensures TallyOf(c, g, w, s, rows[..0]) == Tally(0, 0, 0, 0)
  {
  }

  /** The recipients whose groups a cap cuts. */
  function CapHit(cap: Option<int>): Bucket<UserId, Note> -> set<UserId> {
    (b: Bucket<UserId, Note>) => if cap.Some? && |LogicalGroups(b.items)| > cap.value then {b.key} else {}
  }

  function FastIn(retry: set<Id>): Note -> bool { (n: Note) => n.id !in retry && IsFastPush(n.kind) }

  // ------------------------------------------------------------------ grouping

  method BuildLogicalGroups(rows: seq<Note>) returns (groups: seq<seq<Note>>)
    ensures groups == LogicalGroups(rows)
  {
    var dict: seq<Bucket<LogicalKey, Note>> := [];
    for i := 0 to |rows|
      invariant dict == GroupBy(LogicalKeyOf, rows[..i])
    {
      assert rows[..i + 1] == rows[..i] + [rows[i]];
      GroupByPush(LogicalKeyOf, rows[..i], rows[i]);
      dict := Add(dict, LogicalKeyOf(rows[i]), rows[i]);
    }
    assert rows[..|rows|] == rows;
    groups := Items(dict);
  }

  method ExtendAll(start: seq<Note>, groups: seq<seq<Note>>) returns (included: seq<Note>)
    ensures included == start + Flatten(groups)
  {
    included := start;
    for k := 0 to |groups|
      invariant included == start + Flatten(groups[..k])
    {
      assert groups[..k + 1] == groups[..k] + [groups[k]];
      FlattenPush(groups[..k], groups[k]);
      included := included + groups[k];
    }
    assert groups[..|groups|] == groups;
  }

  method ApplyCap(cap: Option<int>, byRecipient: seq<Bucket<UserId, Note>>)
    returns (included: seq<Note>, capped: set<UserId>)
    ensures included == Flatten(CapEach(cap, byRecipient))
    ensures capped == Union(CapHit(cap), byRecipient)
  {
    hide Union, LogicalGroups, Flatten;
    included, capped := [], {};
    ghost var each := CapEach(cap, byRecipient);
    NoCapHit(cap, byRecipient);
    FlattenNil(each);
    for i := 0 to |byRecipient|
      invariant included == Flatten(each[..i])
      invariant capped == Union(CapHit(cap), byRecipient[..i])
    {
      var recipient: UserId, notifs := byRecipient[i].key, byRecipient[i].items;
      var groups := BuildLogicalGroups(notifs);
      if cap.Some? && |groups| > cap.value {
        capped := capped + {recipient};
        included := ExtendAll(included, Tail(groups, cap.value));
      } else {
        included := included + notifs;
      }
      assert each[..i + 1] == each[..i] + [each[i]];
      FlattenPush(each[..i], each[i]);
      assert byRecipient[..i + 1] == byRecipient[..i] + [byRecipient[i]];
      UnionPush(CapHit(cap), byRecipient[..i], byRecipient[i]);
    }
    assert each[..|byRecipient|] == each;
    assert byRecipient[..|byRecipient|] == byRecipient;
  }

  lemma NoCapHit(cap: Option<int>, byRecipient: seq<Bucket<UserId, Note>>)
    ensures Union(CapHit(cap), byRecipient[..0]) == {}
  {
  }

  lemma FilterNil(p: Note -> bool, rows: seq<Note>)
    ensures Filter(p, rows[..0]) == []
  {
  }

  lemma FilterGroupNil<K(!new)>(key: Note -> K, p: Note -> bool, rows: seq<Note>)
    ensures GroupBy(key, Filter(p, rows[..0])) == []
  {
  }

  lemma FilterGroupPush<K(!new)>(key: Note -> K, p: Note -> bool, rows: seq<Note>, n: Note)
    ensures GroupBy(key, Filter(p, rows + [n]))
         == if p(n) then Add(GroupBy(key, Filter(p, rows)), key(n), n) else GroupBy(key, Filter(p, rows))
  {
    FilterPush(p, rows, n);
    if p(n) { GroupByPush(key, Filter(p, rows), n); } else { assert Filter(p, rows) + [] == Filter(p, rows); }
  }

  // ------------------------------------------------------------------ separate emails and pushes

  method VisibleRows(w: World, rows: seq<Note>) returns (visible: seq<Note>)
    ensures visible == Visible(w, rows)
  {
    visible := [];
    for i := 0 to |rows|
      invariant visible == Visible(w, rows[..i])
    {
      assert rows[..i + 1] == rows[..i] + [rows[i]];
      FilterPush(FreshIn(w), rows[..i], rows[i]);
      if rows[i].id !in w.past { visible := visible + [rows[i]]; }
    }
    assert rows[..|rows|] == rows;
  }

  lemma MailPush(g: Settings, w: World, fails: set<Target>, groups: seq<Bucket<Target, Note>>, b: Bucket<Target, Note>)
    ensures var before, after := SendMail(g, w, fails, groups), SendMail(g, w, fails, groups + [b]);
      var visible := Visible(w, b.items);
      && after.sent == before.sent + (if visible == [] then 0 else 1)
      && after.delivered == before.delivered + (if b.key in fails then {} else IdsOf(visible))
      && after.rendered
         == before.rendered + if b.key in fails then {} else IdsOf(Cut(g.maxInterest, b.key.feature, visible))
  {
    FilterPush(Sayable(w), groups, b);
    UnionPush(MailedIds(w, fails), groups, b);
    UnionPush(RenderedIn(g, w, fails), groups, b);
  }

  lemma MailedUsersPush(w: World, groups: seq<Bucket<Target, Note>>, b: Bucket<Target, Note>)
    ensures Users(Filter(Sayable(w), groups + [b]))
         == Users(Filter(Sayable(w), groups)) + if Visible(w, b.items) == [] then [] else [b.key.user]
  {
    hide Filter, Visible;
    FilterPush(Sayable(w), groups, b);
    var before := Filter(Sayable(w), groups);
    assert Users(before + [b]) == Users(before) + [b.key.user];
    assert before + [] == before;
  }

  lemma NoMail(g: Settings, w: World, fails: set<Target>, groups: seq<Bucket<Target, Note>>)
    ensures SendMail(g, w, fails, groups[..0]) == MailOutcome(0, {}, {}) && Users(Filter(Sayable(w), groups[..0])) == []
  {
  }

  lemma NothingMailed(w: World, rows: seq<Note>)
    requires rows == []
    ensures IdsOf(rows) == {} && forall g: Settings, f :: IdsOf(Cut(g.maxInterest, f, rows)) == {}
  {
  }

  method SendEmailGroups(g: Settings, w: World, fails: set<Target>, groups: seq<Bucket<Target, Note>>)
    returns (sent: nat, delivered: set<Id>, rendered: set<Id>, users: seq<UserId>)
    ensures MailOutcome(sent, delivered, rendered) == SendMail(g, w, fails, groups)
    ensures users == Users(Filter(Sayable(w), groups))
  {
    hide Visible, SendMail, Users, Filter, Cut, IdsOf;
    NoMail(g, w, fails, groups);
    sent, delivered, rendered, users := 0, {}, {}, [];
    for i := 0 to |groups|
      invariant MailOutcome(sent, delivered, rendered) == SendMail(g, w, fails, groups[..i])
      invariant users == Users(Filter(Sayable(w), groups[..i]))
    {
      var b := groups[i];
      assert groups[..i + 1] == groups[..i] + [b];
      MailPush(g, w, fails, groups[..i], b);
      MailedUsersPush(w, groups[..i], b);
      var visible := VisibleRows(w, b.items);
      if visible == [] {
        NothingMailed(w, visible);
        continue;
      }
      var emailNotifs := Cut(g.maxInterest, b.key.feature, visible);
      var ok := b.key !in fails;
      sent, users := sent + 1, users + [b.key.user];
      if ok { delivered, rendered := delivered + IdsOf(visible), rendered + IdsOf(emailNotifs); }
    }
    assert groups[..|groups|] == groups;
  }

  lemma PushPush(w: World, groups: seq<Bucket<Target, Note>>, b: Bucket<Target, Note>)
    ensures var before, after := SendPushes(w, groups), SendPushes(w, groups + [b]);
      && after.pushed == before.pushed + PushCount(w)(b)
      && after.delivered == before.delivered + (if Pushed(w, b.key) then IdsOf(Visible(w, b.items)) else {})
      && after.retry == before.retry + (if OutcomeOf(w, b.key).Transient? then IdsOf(Visible(w, b.items)) else {})
  {
    SumConcat(PushCount(w), groups, [b]);
    SumOne(PushCount(w), b);
    UnionPush(PushedIds(w), groups, b);
    UnionPush(RetriedIds(w), groups, b);
  }

  lemma NoPushes(w: World, groups: seq<Bucket<Target, Note>>)
    ensures SendPushes(w, groups[..0]) == PushResult(0, {}, {})
  {
  }

  method SendPushGroups(w: World, groups: seq<Bucket<Target, Note>>)
    returns (pushed: int, delivered: set<Id>, retry: set<Id>)
    ensures PushResult(pushed, delivered, retry) == SendPushes(w, groups)
  {
    hide SendPushes, Visible;
    NoPushes(w, groups);
    pushed, delivered, retry := 0, {}, {};
    for i := 0 to |groups|
      invariant PushResult(pushed, delivered, retry) == SendPushes(w, groups[..i])
    {
      var b := groups[i];
      assert groups[..i + 1] == groups[..i] + [b];
      PushPush(w, groups[..i], b);
      var visible := VisibleRows(w, b.items);
      if visible == [] {
        assert IdsOf(visible) == {};
        continue;
      }
      match OutcomeOf(w, b.key) {
        case Transient => retry := retry + IdsOf(visible);
        case Sent(count) =>
          pushed := pushed + count;
          if count > 0 { delivered := delivered + IdsOf(visible); }
      }
    }
    assert groups[..|groups|] == groups;
  }

  // ------------------------------------------------------------------ the combined digest

  method BuildDigestGroups(f: Feature, rows: seq<Note>) returns (groups: seq<seq<Note>>)
    ensures groups == DigestGroups(f, rows)
  {
    var visible := rows;
    if f == SocialActivity {
      visible := [];
      for i := 0 to |rows|
        invariant visible == Filter(NotSuperseded(rows), rows[..i])
      {
        assert rows[..i + 1] == rows[..i] + [rows[i]];
        FilterPush(NotSuperseded(rows), rows[..i], rows[i]);
        var friendActors := set m | m in rows && m.kind.NewFriend? :: m.actor;
        if !(rows[i].kind.NewFollower? && rows[i].actor in friendActors) { visible := visible + [rows[i]]; }
      }
      assert rows[..|rows|] == rows;
    }
    if f == FriendMilestones || f == MilestoneUnlocked {
      var byActor: seq<Bucket<UserId, Note>> := [];
      for i := 0 to |visible|
        invariant byActor == GroupBy(ActorOf, visible[..i])
      {
        assert visible[..i + 1] == visible[..i] + [visible[i]];
        GroupByPush(ActorOf, visible[..i], visible[i]);
        byActor := Add(byActor, visible[i].actor, visible[i]);
      }
      assert visible[..|visible|] == visible;
      groups := Items(byActor);
    } else {
      groups := BuildLogicalGroups(visible);
    }
  }

  lemma NoEntries(lists: seq<seq<Entry>>)
    ensures Flatten(lists[..0]) == []
  {
  }

  method BuildEntries(w: World, b: Bucket<Target, Note>, visible: seq<Note>) returns (entries: seq<Entry>)
    requires visible == Visible(w, b.items)
    ensures entries == FeatureEntries(w, b)
  {
    hide Flatten, DigestGroups, GroupEntries, Visible;
    var f := b.key.feature;
    var groups := BuildDigestGroups(f, visible);
    ghost var lists := EntryLists(w, f, groups);
    NoEntries(lists);
    entries := [];
    for i := 0 to |groups|
      invariant entries == Flatten(lists[..i])
    {
      assert lists[..i + 1] == lists[..i] + [lists[i]];
      FlattenPush(lists[..i], lists[i]);
      entries := entries + GroupEntries(w, f, groups[i]);
    }
    assert lists[..|groups|] == lists;
  }

  /** The section dictionary as a function of the groups it was built from. */
  function SectionDict(w: World, groups: seq<Bucket<SectionName, Bucket<Target, Note>>>): (r: seq<Section>)
    ensures |r| == |groups|
  {
    seq(|groups|, i requires 0 <= i < |groups| => SectionFor(w, groups[i]))
  }

  function FindSection(sections: seq<Section>, name: SectionName): (at: nat)
    ensures at <= |sections|
    ensures at < |sections| ==> sections[at].name == name
  {
    if sections == [] || sections[0].name == name then 0 else 1 + FindSection(sections[1..], name)
  }

  lemma {:induction false} FindSectionDict(w: World, groups: seq<Bucket<SectionName, Bucket<Target, Note>>>,
                                           name: SectionName)
    ensures FindSection(SectionDict(w, groups), name) == Find(groups, name)
  {
    if groups != [] {
      assert SectionDict(w, groups)[1..] == SectionDict(w, groups[1..]);
      FindSectionDict(w, groups[1..], name);
    }
  }

  lemma SectionForPush(w: World, g: Bucket<SectionName, Bucket<Target, Note>>, b: Bucket<Target, Note>)
    ensures SectionFor(w, g.(items := g.items + [b])).entries == SectionFor(w, g).entries + FeatureEntries(w, b)
  {
    assert FeatureLists(w, g.items + [b]) == FeatureLists(w, g.items) + [FeatureEntries(w, b)];
    FlattenPush(FeatureLists(w, g.items), FeatureEntries(w, b));
  }

  lemma SectionDictNew(w: World, groups: seq<Bucket<SectionName, Bucket<Target, Note>>>, b: Bucket<Target, Note>)
    ensures SectionDict(w, groups + [Bucket(SectionNameOf(b), [b])])
         == SectionDict(w, groups) + [Section(SectionNameOf(b), FeatureEntries(w, b))]
  {
    hide FeatureEntries;
    var empty := Bucket(SectionNameOf(b), []);
    SectionForPush(w, empty, b);
    assert empty.items + [b] == [b] && FeatureLists(w, empty.items) == [];
    assert SectionFor(w, Bucket(SectionNameOf(b), [b])) == Section(SectionNameOf(b), FeatureEntries(w, b));
  }

  lemma SectionDictPush(w: World, groups: seq<Bucket<SectionName, Bucket<Target, Note>>>, at: nat,
                        b: Bucket<Target, Note>)
    requires at < |groups|
    ensures var ss, g := SectionDict(w, groups), groups[at];
      SectionDict(w, groups[at := g.(items := g.items + [b])])
        == ss[at := Section(g.key, ss[at].entries + FeatureEntries(w, b))]
  {
    hide FeatureEntries;
    SectionForPush(w, groups[at], b);
  }

  lemma SectionDictStep(w: World, groups: seq<Bucket<SectionName, Bucket<Target, Note>>>, b: Bucket<Target, Note>)
    ensures var ss, name := SectionDict(w, groups), SectionNameOf(b);
      var at := FindSection(ss, name);
      SectionDict(w, Add(groups, name, b)) ==
        if at < |ss| then ss[at := Section(name, ss[at].entries + FeatureEntries(w, b))]
        else ss + [Section(name, FeatureEntries(w, b))]
  {
    hide FeatureEntries;
    AddAtFind(groups, SectionNameOf(b), b);
    FindSectionDict(w, groups, SectionNameOf(b));
    var at := Find(groups, SectionNameOf(b));
    if at < |groups| { SectionDictPush(w, groups, at, b); } else { SectionDictNew(w, groups, b); }
  }

  method BuildSections(w: World, features: seq<Bucket<Target, Note>>)
    returns (sections: seq<Section>, visibleIds: set<Id>)
    ensures sections == SectionsOf(w, features)
    ensures visibleIds == VisibleIds(w, features)
  {
    hide GroupBy, Filter, SectionDict, FeatureEntries, Visible, VisibleIds;
    NoSections(w, features);
    sections, visibleIds := [], {};
    for i := 0 to |features|
      invariant sections == SectionDict(w, GroupBy(SectionNameOf, Filter(Sayable(w), features[..i])))
      invariant visibleIds == VisibleIds(w, features[..i])
    {
      var b := features[i];
      ghost var kept := Filter(Sayable(w), features[..i]);
      assert features[..i + 1] == features[..i] + [b];
      FilterPush(Sayable(w), features[..i], b);
      VisibleIdsPush(w, features[..i], b);
      var visible := VisibleRows(w, b.items);
      if visible == [] {
        assert kept + [] == kept;
        continue;
      }
      assert Filter(Sayable(w), features[..i + 1]) == kept + [b];
      GroupByPush(SectionNameOf, kept, b);
      SectionDictStep(w, GroupBy(SectionNameOf, kept), b);
      var entries := BuildEntries(w, b, visible);
      var at := FindSection(sections, SectionNameOf(b));
      if at < |sections| {
        sections := sections[at := Section(SectionNameOf(b), sections[at].entries + entries)];
      } else {
        sections := sections + [Section(SectionNameOf(b), entries)];
      }
      visibleIds := visibleIds + IdsOf(visible);
    }
    assert features[..|features|] == features;
    SectionDictIs(w, features);
  }

  lemma NoSections(w: World, features: seq<Bucket<Target, Note>>)
    ensures SectionDict(w, GroupBy(SectionNameOf, Filter(Sayable(w), features[..0]))) == []
    ensures VisibleIds(w, features[..0]) == {}
  {
  }

  lemma SectionDictIs(w: World, features: seq<Bucket<Target, Note>>)
    ensures SectionsOf(w, features) == SectionDict(w, GroupBy(SectionNameOf, Filter(Sayable(w), features)))
  {
  }

  lemma VisibleIdsPush(w: World, features: seq<Bucket<Target, Note>>, b: Bucket<Target, Note>)
    ensures VisibleIds(w, features + [b]) == VisibleIds(w, features) + IdsOf(Visible(w, b.items))
  {
    UnionPush(FreshIdsIn(w), features, b);
  }

  lemma CombinedPush(g: Settings, w: World, s: Store, ds: seq<Digest>, d: Digest)
    ensures var before, after := CombinedDigests(g, w, s, ds), CombinedDigests(g, w, s, ds + [d]);
      && after.sent == before.sent + (if DigestAttempted(w, s, d) then [d.key] else [])
      && after.delivered == before.delivered + (if DigestSent(w, s, d) then DigestDelivers(g, w, d) else {})
      && after.deferred == before.deferred + (if DigestSent(w, s, d) then DigestDefers(g, w, d) else {})
  {
    hide DigestDelivers, DigestDefers, SectionsOf;
    FilterPush(Attempted(w, s), ds, d);
    UnionPush(DeliversIn(g, w, s), ds, d);
    UnionPush(DefersIn(g, w, s), ds, d);
  }

  lemma NoDigests(g: Settings, w: World, s: Store, groups: seq<Bucket<Target, Note>>)
    ensures GroupBy(UserOf, groups[..0]) == []
    ensures CombinedDigests(g, w, s, []) == DigestOutcome([], {}, {})
  {
  }

  method SendCombinedDigests(g: Settings, w: World, s: Store, groups: seq<Bucket<Target, Note>>)
    returns (sent: seq<UserId>, delivered: set<Id>, deferred: set<Id>)
    ensures DigestOutcome(sent, delivered, deferred) == CombinedDigests(g, w, s, GroupBy(UserOf, groups))
  {
    hide Balance, SectionsOf, VisibleIds, GroupBy, Filter, Union;
    NoDigests(g, w, s, groups);
    var byRecipient: seq<Digest> := [];
    for i := 0 to |groups|
      invariant byRecipient == GroupBy(UserOf, groups[..i])
    {
      assert groups[..i + 1] == groups[..i] + [groups[i]];
      GroupByPush(UserOf, groups[..i], groups[i]);
      byRecipient := Add(byRecipient, groups[i].key.user, groups[i]);
    }
    assert groups[..|groups|] == groups;
    sent, delivered, deferred := [], {}, {};
    for i := 0 to |byRecipient|
      invariant DigestOutcome(sent, delivered, deferred) == CombinedDigests(g, w, s, byRecipient[..i])
    {
      var d := byRecipient[i];
      assert byRecipient[..i + 1] == byRecipient[..i] + [d];
      CombinedPush(g, w, s, byRecipient[..i], d);
      if !WantsDigest(s, d.key) { continue; }
      var sections, visibleIds := BuildSections(w, d.items);
      if sections == [] { continue; }
      var ok := d.key !in w.digestFails;
      sent := sent + [d.key];
      if ok {
        var buckets := BalanceSections(sections, g.perKindCap, g.maxItems);
        var rendered := RenderedIds(buckets[..]);
        deferred := deferred + (EntryIds(sections) - rendered);
        delivered := delivered + visibleIds * rendered;
      }
    }
    assert byRecipient[..|byRecipient|] == byRecipient;
  }

  // ------------------------------------------------------------------ the database session

  class Session {
    const notes: seq<Note>  // in query order
    const rows: map<Id, NotificationRow>
    const users: map<UserId, UserRow>

    ghost predicate Valid() {
      && (forall n :: n in notes ==> n.id in rows && rows[n.id].note == n)
      && (forall id :: id in rows ==> rows[id].note.id == id)
      && (forall u :: u in users ==> users[u].id == u)
      && (forall i, j :: 0 <= i < j < |notes| ==> notes[i].id != notes[j].id)
    }

    /** The abstract table and user states. */
    ghost function Contents(): Store
      reads rows.Values, users.Values
    {
      Store(notes, map id | id in rows :: rows[id].Stamped(), map u | u in users :: users[u].Value())
    }

    constructor (notes: seq<Note>, rows: map<Id, NotificationRow>, users: map<UserId, UserRow>)
      ensures this.notes == notes && this.rows == rows && this.users == users
    {
      this.notes, this.rows, this.users := notes, rows, users;
    }

    // The pending query and the visibility and privacy filters behind it.
    method LoadPending(c: Call, g: Settings, w: World) returns (pending: seq<Note>)
      requires Valid()
      ensures pending == Pending(c, g, w, Contents())
    {
      hide Filter, KindQueried, FeaturesInstant;
      ghost var s := Contents();
      FilterNil(PendingIn(c, g, w, s), notes);
      var anyInstant := FeaturesInstant(g) != {};
      pending := [];
      for i := 0 to |notes|
        invariant pending == Filter(PendingIn(c, g, w, s), notes[..i])
      {
        var n := notes[i];
        assert notes[..i + 1] == notes[..i] + [n];
        FilterPush(PendingIn(c, g, w, s), notes[..i], n);
        var row := rows[n.id];
        var stillPending := c.resend || row.pushedAt.None? || (!c.immediateOnly && row.emailedAt.None?)
                            || (anyInstant && row.instantEmailedAt.None?);
        if g.enabled && KindQueried(c, g, n.kind) && n.createdAt >= w.now - MAX_AGE && stillPending
           && (c.userIds.None? || n.recipient in c.userIds.value) && n.id !in w.locked
           && (n.event.None? || n.event.value in w.visible) && n.id !in w.unsafe
        {
          pending := pending + [n];
        }
      }
      assert notes[..|notes|] == notes;
    }

    // The per-recipient cache `interest_push_due`.
    ghost predicate Cached(g: Settings, w: World, due: map<UserId, bool>)
      reads users.Values
    {
      forall u :: u in due ==>
        && u in users && g.interestPush.Some?
        && due[u] == InterestPushDue(users[u].profile.offset, users[u].lastInterestPushAt, w.now, g.interestPush.value)
    }

    /** Routes one row: instant, digest or why not yet, push or whether it waits for its slot. `due` caches
        the push slot per recipient. */
    method RouteRow(c: Call, g: Settings, w: World, n: Note, due: map<UserId, bool>)
      returns (instant: bool, digest: bool, push: bool, off: Option<Status>, putOff: bool, due': map<UserId, bool>)
      requires Valid() && n in notes
      requires Cached(g, w, due)
      ensures Cached(g, w, due')
      ensures instant == RoutesInstant(c, g, Contents(), n)
      ensures digest == RoutesDigest(c, g, w, Contents(), n) && off == OffSchedule(c, g, w, Contents(), n)
      ensures push == RoutesPush(c, g, w, Contents(), n) && putOff == PutOff(c, g, w, Contents(), n)
    {
      hide SlotStatus, InterestPushDue;
      instant, digest, push, off, putOff, due' := false, false, false, None, false, due;
      if n.recipient !in users || users[n.recipient].profile.deleted { return; }
      var user, row, feature := users[n.recipient], rows[n.id], FeatureOf(n.kind);
      instant := InstantRouted(g.instant, feature) && (c.resend || row.instantEmailedAt.None?);
      if !c.immediateOnly && (c.resend || row.emailedAt.None?) && feature != Unlisted && feature in g.digest
         && !InstantOwned(g.instant, feature)
      {
        digest := c.force;
        if !c.force {
          var status := SlotStatus(user.profile.offset, user.lastDigestSentAt, w.now, g.schedule);
          digest := status == InSlot;
          if !digest { off := Some(status); }
        }
      }
      if (c.resend || row.pushedAt.None?) && !IsDigestOnly(feature) && (feature == Unlisted || feature in g.push) {
        push := true;
        if IsInterestPush(feature) && g.interestPush.Some? && !(c.force || c.resend) {
          if n.recipient !in due' {
            due' := due'[n.recipient :=
              InterestPushDue(user.profile.offset, user.lastInterestPushAt, w.now, g.interestPush.value)];
          }
          push := due'[n.recipient];
          putOff := !push;
        }
      }
    }

    method RouteRows(c: Call, g: Settings, w: World, pending: seq<Note>)
      returns (email: seq<Bucket<UserId, Note>>, instant: seq<Bucket<UserId, Note>>, push: seq<Bucket<UserId, Note>>,
               tally: Tally)
      requires Valid() && forall n :: n in pending ==> n in notes
      ensures email == GroupBy(RecipientOf, Filter(DigestIn(c, g, w, Contents()), pending))
      ensures instant == GroupBy(RecipientOf, Filter(InstantIn(c, g, Contents()), pending))
      ensures push == GroupBy(RecipientOf, Filter(PushIn(c, g, w, Contents()), pending))
      ensures tally == TallyOf(c, g, w, Contents(), pending)
    {
      hide RoutesDigest, RoutesInstant, RoutesPush, InterestPushDue, Contents, GroupBy, Filter;
      hide TallyOf, OffSchedule, PutOff;
      ghost var s := Contents();
      FilterGroupNil(RecipientOf, DigestIn(c, g, w, s), pending);
      FilterGroupNil(RecipientOf, InstantIn(c, g, s), pending);
      FilterGroupNil(RecipientOf, PushIn(c, g, w, s), pending);
      NoTally(c, g, w, s, pending);
      email, instant, push, tally := [], [], [], Tally(0, 0, 0, 0);
      var due: map<UserId, bool> := map[];
      for i := 0 to |pending|
        invariant email == GroupBy(RecipientOf, Filter(DigestIn(c, g, w, s), pending[..i]))
        invariant instant == GroupBy(RecipientOf, Filter(InstantIn(c, g, s), pending[..i]))
        invariant push == GroupBy(RecipientOf, Filter(PushIn(c, g, w, s), pending[..i]))
        invariant tally == TallyOf(c, g, w, s, pending[..i])
        invariant Cached(g, w, due)
      {
        var n := pending[i];
        assert pending[..i + 1] == pending[..i] + [n];
        FilterGroupPush(RecipientOf, DigestIn(c, g, w, s), pending[..i], n);
        FilterGroupPush(RecipientOf, InstantIn(c, g, s), pending[..i], n);
        FilterGroupPush(RecipientOf, PushIn(c, g, w, s), pending[..i], n);
        TallyPush(c, g, w, s, pending[..i], n);
        var toInstant, toDigest, toPush, off, putOff, due' := RouteRow(c, g, w, n, due);
        due := due';
        tally := Tallied(tally, off, putOff);
        if toInstant { instant := Add(instant, n.recipient, n); }
        if toDigest { email := Add(email, n.recipient, n); }
        if toPush { push := Add(push, n.recipient, n); }
      }
      assert pending[..|pending|] == pending;
    }

    // `_group_email`, with the channel flag of the email.
    method GroupEmail(s: Store, included: seq<Note>) returns (groups: seq<Bucket<Target, Note>>, seen: set<UserId>)
      ensures groups == EmailGroups(s, included) && seen == Seen(included)
    {
      hide GroupBy, Filter;
      FilterGroupNil(TargetOf, EmailAllowedIn(s), included);
      groups, seen := [], {};
      for i := 0 to |included|
        invariant groups == GroupBy(TargetOf, Filter(EmailAllowedIn(s), included[..i]))
        invariant seen == Seen(included[..i])
      {
        var n := included[i];
        assert included[..i + 1] == included[..i] + [n];
        FilterGroupPush(TargetOf, EmailAllowedIn(s), included[..i], n);
        if FeatureOf(n.kind) == Unlisted { continue; }
        seen := seen + {n.recipient};
        if EmailAllowed(s, n) { groups := Add(groups, TargetOf(n), n); }
      }
      assert included[..|included|] == included;
    }

    method GroupPush(s: Store, included: seq<Note>) returns (groups: seq<Bucket<Target, Note>>, seen: set<UserId>)
      ensures groups == PushGroups(s, included) && seen == Seen(included)
    {
      hide GroupBy, Filter;
      FilterGroupNil(TargetOf, PushAllowedIn(s), included);
      groups, seen := [], {};
      for i := 0 to |included|
        invariant groups == GroupBy(TargetOf, Filter(PushAllowedIn(s), included[..i]))
        invariant seen == Seen(included[..i])
      {
        var n := included[i];
        assert included[..i + 1] == included[..i] + [n];
        FilterGroupPush(TargetOf, PushAllowedIn(s), included[..i], n);
        if FeatureOf(n.kind) == Unlisted { continue; }
        seen := seen + {n.recipient};
        if PushAllowed(s, n) { groups := Add(groups, TargetOf(n), n); }
      }
      assert included[..|included|] == included;
    }

    // ---------------------------------------------------------------- stamping

    method StampEmail(now: int, included: seq<Note>, deferred: set<Id>) returns (stamped: nat)
      requires Valid() && forall n :: n in included ==> n in notes
      modifies rows.Values
      ensures forall id :: id in rows ==>
        rows[id].Stamped() == old(rows[id].Stamped()).(
          emailed := Stamp(now, id in IdsOf(included) - deferred, old(rows[id].emailedAt)))
      ensures stamped == |Filter(Outside(deferred), included)|
    {
      hide Filter;
      FilterNil(Outside(deferred), included);
      stamped := 0;
      for i := 0 to |included|
        invariant forall id :: id in rows ==>
          rows[id].Stamped() == old(rows[id].Stamped()).(
            emailed := Stamp(now, id in IdsOf(included[..i]) - deferred, old(rows[id].emailedAt)))
        invariant stamped == |Filter(Outside(deferred), included[..i])|
      {
        var n := included[i];
        assert included[..i + 1] == included[..i] + [n];
        FilterPush(Outside(deferred), included[..i], n);
        if n.id in deferred { continue; }
        rows[n.id].emailedAt := Some(now);
        stamped := stamped + 1;
      }
      assert included[..|included|] == included;
    }

    method StampInstant(now: int, included: seq<Note>) returns (stamped: nat)
      requires Valid() && forall n :: n in included ==> n in notes
      modifies rows.Values
      ensures forall id :: id in rows ==>
        rows[id].Stamped() == old(rows[id].Stamped()).(
          instant := Stamp(now, id in IdsOf(included), old(rows[id].instantEmailedAt)))
      ensures stamped == |included|
    {
      stamped := 0;
      for i := 0 to |included|
        invariant forall id :: id in rows ==>
          rows[id].Stamped() == old(rows[id].Stamped()).(
            instant := Stamp(now, id in IdsOf(included[..i]), old(rows[id].instantEmailedAt)))
        invariant stamped == i
      {
        var n := included[i];
        assert included[..i + 1] == included[..i] + [n];
        rows[n.id].instantEmailedAt := Some(now);
        stamped := stamped + 1;
      }
      assert included[..|included|] == included;
    }

    method StampPush(now: int, included: seq<Note>, retry: set<Id>) returns (stamped: nat, fast: nat)
      requires Valid() && forall n :: n in included ==> n in notes
      modifies rows.Values
      ensures forall id :: id in rows ==>
        rows[id].Stamped() == old(rows[id].Stamped()).(
          pushed := Stamp(now, id in IdsOf(included) - retry, old(rows[id].pushedAt)))
      ensures stamped == |Filter(Outside(retry), included)| && fast == |Filter(FastIn(retry), included)|
    {
      hide Filter, IsFastPush;
      FilterNil(Outside(retry), included);
      FilterNil(FastIn(retry), included);
      stamped, fast := 0, 0;
      for i := 0 to |included|
        invariant forall id :: id in rows ==>
          rows[id].Stamped() == old(rows[id].Stamped()).(
            pushed := Stamp(now, id in IdsOf(included[..i]) - retry, old(rows[id].pushedAt)))
        invariant stamped == |Filter(Outside(retry), included[..i])| && fast == |Filter(FastIn(retry), included[..i])|
      {
        var n := included[i];
        assert included[..i + 1] == included[..i] + [n];
        FilterPush(Outside(retry), included[..i], n);
        FilterPush(FastIn(retry), included[..i], n);
        if n.id in retry { continue; }
        rows[n.id].pushedAt := Some(now);
        stamped := stamped + 1;
        if IsFastPush(n.kind) { fast := fast + 1; }
      }
      assert included[..|included|] == included;
    }

    // The clocks the same loop sets for interest pushes.
    method StampInterest(now: int, included: seq<Note>, retry: set<Id>)
      requires Valid()
      modifies users.Values
      ensures forall u :: u in users ==>
        users[u].Value() == old(users[u].Value()).(lastInterestPush :=
          Stamp(now, u in InterestUsers(included, retry), old(users[u].lastInterestPushAt)))
    {
      for i := 0 to |included|
        invariant forall u :: u in users ==>
          users[u].Value() == old(users[u].Value()).(lastInterestPush :=
            Stamp(now, u in InterestUsers(included[..i], retry), old(users[u].lastInterestPushAt)))
      {
        var n := included[i];
        assert included[..i + 1] == included[..i] + [n];
        if n.id in retry { continue; }
        if CountsAsInterestPush(n.kind) && n.recipient in users { users[n.recipient].lastInterestPushAt := Some(now); }
      }
      assert included[..|included|] == included;
    }

    method StampSlots(now: int, seen: set<UserId>)
      requires Valid()
      modifies users.Values
      ensures forall u :: u in users ==>
        users[u].Value() == old(users[u].Value()).(lastDigest := Stamp(now, u in seen, old(users[u].lastDigestSentAt)))
    {
      forall u | u in users && u in seen {
        users[u].lastDigestSentAt := Some(now);
      }
    }

    /** Stamps what the plan says; the new state is the committed one. */
    method StampAll(now: int, email: seq<Note>, instant: seq<Note>, push: seq<Note>, deferred: set<Id>, retry: set<Id>,
                    seen: set<UserId>, ghost t: Txn) returns (stamped: nat, fast: nat)
      requires Valid() && forall n :: n in email || n in instant || n in push ==> n in notes
      requires t.now == now && t.email == IdsOf(email) - deferred && t.instant == IdsOf(instant)
      requires t.push == IdsOf(push) - retry && t.slots == seen && t.interest == InterestUsers(push, retry)
      modifies rows.Values, users.Values
      ensures Contents() == Commit(t, old(Contents()))
      ensures stamped == |Filter(Outside(deferred), email)| + |instant| + |Filter(Outside(retry), push)|
      ensures fast == |Filter(FastIn(retry), push)|
    {
      hide Filter, IdsOf, InterestUsers, Commit, StampRow, StampUser;
      ghost var s := Contents();
      stamped, fast := StampRows(now, email, instant, push, deferred, retry, t);
      StampUsers(now, push, retry, seen, t);
      Committed(t, s);
    }

    method StampRows(now: int, email: seq<Note>, instant: seq<Note>, push: seq<Note>, deferred: set<Id>,
                     retry: set<Id>, ghost t: Txn) returns (stamped: nat, fast: nat)
      requires Valid() && forall n :: n in email || n in instant || n in push ==> n in notes
      requires t.now == now && t.email == IdsOf(email) - deferred && t.instant == IdsOf(instant)
      requires t.push == IdsOf(push) - retry
      modifies rows.Values
      ensures forall id :: id in rows ==> rows[id].Stamped() == StampRow(t, id, old(rows[id].Stamped()))
      ensures stamped == |Filter(Outside(deferred), email)| + |instant| + |Filter(Outside(retry), push)|
      ensures fast == |Filter(FastIn(retry), push)|
    {
      hide Filter, IdsOf;
      var a := StampEmail(now, email, deferred);
      var b := StampInstant(now, instant);
      var c, fastPushed := StampPush(now, push, retry);
      stamped, fast := a + b + c, fastPushed;
    }

    method StampUsers(now: int, push: seq<Note>, retry: set<Id>, seen: set<UserId>, ghost t: Txn)
      requires Valid() && t.now == now && t.slots == seen && t.interest == InterestUsers(push, retry)
      modifies users.Values
      ensures forall u :: u in users ==> users[u].Value() == StampUser(t, u, old(users[u].Value()))
    {
      hide InterestUsers;
      StampInterest(now, push, retry);
      StampSlots(now, seen);
    }

    /** Rows and users stamped one by one are the committed store. */
    lemma Committed(t: Txn, s: Store)
      requires s.notes == notes && s.stamps.Keys == rows.Keys && s.users.Keys == users.Keys
      requires forall id :: id in rows ==> rows[id].Stamped() == StampRow(t, id, s.stamps[id])
      requires forall u :: u in users ==> users[u].Value() == StampUser(t, u, s.users[u])
      ensures Contents() == Commit(t, s)
    {
      hide StampRow, StampUser;
      assert Contents().stamps == Commit(t, s).stamps;
      assert Contents().users == Commit(t, s).users;
    }

    // Routing and the per-channel caps.
    method Include(c: Call, g: Settings, w: World, pending: seq<Note>)
      returns (email: seq<Note>, instant: seq<Note>, push: seq<Note>, tally: Tally, capped: set<UserId>)
      requires Valid() && pending == Pending(c, g, w, Contents())
      ensures var p := PlanRun(c, g, w, Contents());
        email == p.email && instant == p.instant && push == p.push
      ensures tally == TallyOf(c, g, w, Contents(), pending) && capped == CappedRecipients(c, g, w, Contents())
    {
      hide PlanRun, Pending, Filter, GroupBy, TallyOf, Union, CapEach, Flatten;
      hide DigestIn, InstantIn, PushIn, CapHit;
      PlanParts(c, g, w, Contents());
      PendingNotes(c, g, w, Contents());
      var byEmail, byInstant, byPush;
      byEmail, byInstant, byPush, tally := RouteRows(c, g, w, pending);
      var cappedEmail, cappedInstant, cappedPush;
      email, cappedEmail := ApplyCap(c.cap, byEmail);
      instant, cappedInstant := ApplyCap(c.cap, byInstant);
      push, cappedPush := ApplyCap(c.cap, byPush);
      capped := cappedEmail + cappedInstant + cappedPush;
    }

    // Grouping per recipient and feature, and all sends.
    method SendAll(g: Settings, w: World, email: seq<Note>, instant: seq<Note>, push: seq<Note>)
      returns (digests: DigestOutcome, mail: MailOutcome, pushes: PushResult, seen: set<UserId>, pushSeen: set<UserId>)
      requires Valid()
      ensures digests == Digests(g, w, Contents(), email)
      ensures mail == SendMail(g, w, w.instantMailFails, EmailGroups(Contents(), instant))
      ensures pushes == SendPushes(w, PushGroups(Contents(), push))
      ensures seen == Seen(email) && pushSeen == Seen(push)
    {
      hide Digests, CombinedDigests, SeparateDigests, EmailGroups, PushGroups, SendMail, SendPushes, Seen;
      hide GroupBy, UserOf;
      var store := Store([], map[], map u | u in users :: users[u].Value());
      SameUsers(g, w, Contents(), store, email, instant, push);
      var emailGroups, instantGroups, pushGroups, none;
      emailGroups, seen := GroupEmail(store, email);
      instantGroups, none := GroupEmail(store, instant);
      pushGroups, pushSeen := GroupPush(store, push);
      var sent, delivered, deferred := SendDigests(g, w, store, emailGroups);
      DigestsAre(g, w, store, email);
      var instantSent, instantDelivered, instantRendered, _ := SendEmailGroups(g, w, w.instantMailFails, instantGroups);
      var pushed, pushDelivered, retry := SendPushGroups(w, pushGroups);
      digests := DigestOutcome(sent, delivered, deferred);
      mail := MailOutcome(instantSent, instantDelivered, instantRendered);
      pushes := PushResult(pushed, pushDelivered, retry);
    }

    /** One delivery run. */
    method RunOnce(c: Call, g: Settings, w: World) returns (stats: Stats, receipts: set<Receipt>)
      requires Valid()
      modifies rows.Values, users.Values
      ensures Contents() == Run(c, g, w, old(Contents()))
      ensures receipts == RunTxn(c, g, w, old(Contents())).sends
      ensures stats == StatsOf(c, g, w, old(Contents()))
    {
      hide PlanRun, RunTxn, Run, Digests, EmailGroups, PushGroups, SendMail, SendPushes, Filter, Pending, Commit, Seen;
      hide TallyOf, CappedRecipients;
      ghost var s := Contents();
      PlanParts(c, g, w, s);
      TxnParts(c, g, w, s);
      PlanNotes(c, g, w, s);
      var pending := LoadPending(c, g, w);
      if pending == [] {
        IdleRun(c, g, w, s);
        return if g.enabled then Nothing else Skipped, {};
      }
      EnabledIfPending(c, g, w, s);
      var email, instant, push, tally, capped := Include(c, g, w, pending);
      var digests, mail, pushes, seen, pushSeen := SendAll(g, w, email, instant, push);
      var stamped, fast := StampAll(w.now, email, instant, push, digests.deferred, pushes.retry, seen,
                                    RunTxn(c, g, w, s));
      stats := Ran(|digests.sent|, mail.sent, pushes.pushed, |pushes.retry|, stamped, fast, tally,
                   seen + pushSeen, capped);
      receipts := Deliveries(digests.delivered, mail.delivered, pushes.delivered);
    }

    method SendDigests(g: Settings, w: World, s: Store, groups: seq<Bucket<Target, Note>>)
      returns (sent: seq<UserId>, delivered: set<Id>, deferred: set<Id>)
      ensures DigestOutcome(sent, delivered, deferred)
        == if g.combined then CombinedDigests(g, w, s, GroupBy(UserOf, groups)) else SeparateDigests(g, w, groups)
    {
      if g.combined {
        sent, delivered, deferred := SendCombinedDigests(g, w, s, groups);
      } else {
        var mailed, rendered;
        mailed, delivered, rendered, sent := SendEmailGroups(g, w, w.digestMailFails, groups);
        deferred := {};
      }
    }
  }

  lemma PlanParts(c: Call, g: Settings, w: World, s: Store)
    ensures var p, pending := PlanRun(c, g, w, s), Pending(c, g, w, s);
      && p.email == Flatten(CapEach(c.cap, GroupBy(RecipientOf, Filter(DigestIn(c, g, w, s), pending))))
      && p.instant == Flatten(CapEach(c.cap, GroupBy(RecipientOf, Filter(InstantIn(c, g, s), pending))))
      && p.push == Flatten(CapEach(c.cap, GroupBy(RecipientOf, Filter(PushIn(c, g, w, s), pending))))
      && p.digests == Digests(g, w, s, p.email)
      && p.mail == SendMail(g, w, w.instantMailFails, EmailGroups(s, p.instant))
      && p.pushes == SendPushes(w, PushGroups(s, p.push))
  {
  }

  lemma TxnParts(c: Call, g: Settings, w: World, s: Store)
    ensures var p, t := PlanRun(c, g, w, s), RunTxn(c, g, w, s);
      && t.now == w.now
      && t.sends == Deliveries(p.digests.delivered, p.mail.delivered, p.pushes.delivered)
      && t.email == IdsOf(p.email) - p.digests.deferred && t.instant == IdsOf(p.instant)
      && t.push == IdsOf(p.push) - p.pushes.retry
      && t.slots == Seen(p.email) && t.interest == InterestUsers(p.push, p.pushes.retry)
    ensures Run(c, g, w, s) == Commit(RunTxn(c, g, w, s), s)
  {
  }

  lemma DigestsAre(g: Settings, w: World, s: Store, included: seq<Note>)
    ensures var groups := EmailGroups(s, included);
      Digests(g, w, s, included)
        == if g.combined then CombinedDigests(g, w, s, GroupBy(UserOf, groups)) else SeparateDigests(g, w, groups)
  {
  }

  function CappedRecipients(c: Call, g: Settings, w: World, s: Store): set<UserId> {
    var pending := Pending(c, g, w, s);
    Union(CapHit(c.cap), GroupBy(RecipientOf, Filter(DigestIn(c, g, w, s), pending)))
    + Union(CapHit(c.cap), GroupBy(RecipientOf, Filter(InstantIn(c, g, s), pending)))
    + Union(CapHit(c.cap), GroupBy(RecipientOf, Filter(PushIn(c, g, w, s), pending)))
  }

  function StatsOf(c: Call, g: Settings, w: World, s: Store): Stats {
    if !g.enabled then Skipped
    else if Pending(c, g, w, s) == [] then Nothing
    else
      var p := PlanRun(c, g, w, s);
      Ran(|p.digests.sent|, p.mail.sent, p.pushes.pushed, |p.pushes.retry|,
          |Filter(Outside(p.digests.deferred), p.email)| + |p.instant| + |Filter(Outside(p.pushes.retry), p.push)|,
          |Filter(FastIn(p.pushes.retry), p.push)|,
          TallyOf(c, g, w, s, Pending(c, g, w, s)), Seen(p.email) + Seen(p.push), CappedRecipients(c, g, w, s))
  }

  lemma EnabledIfPending(c: Call, g: Settings, w: World, s: Store)
    requires Pending(c, g, w, s) != []
    ensures g.enabled
  {
    assert Pending(c, g, w, s)[0] in Pending(c, g, w, s);
  }

  function Outside(ids: set<Id>): Note -> bool { (n: Note) => n.id !in ids }

  function InterestUsers(push: seq<Note>, retry: set<Id>): set<UserId> {
    set n | n in push && n.id !in retry && CountsAsInterestPush(n.kind) :: n.recipient
  }

  lemma PendingNotes(c: Call, g: Settings, w: World, s: Store)
    ensures forall n :: n in Pending(c, g, w, s) ==> n in s.notes
  {
  }

  lemma PlanNotes(c: Call, g: Settings, w: World, s: Store)
    ensures var p := PlanRun(c, g, w, s);
      forall n :: n in p.email || n in p.instant || n in p.push ==> n in s.notes
  {
    forall n { PlanRows(c, g, w, s, n); }
  }

  /** Grouping and sending look at the users only. */
  lemma SameUsers(g: Settings, w: World, s: Store, t: Store, email: seq<Note>, instant: seq<Note>, push: seq<Note>)
    requires s.users == t.users
    ensures EmailGroups(s, email) == EmailGroups(t, email) && EmailGroups(s, instant) == EmailGroups(t, instant)
    ensures PushGroups(s, push) == PushGroups(t, push)
    ensures Digests(g, w, s, email) == Digests(g, w, t, email)
  {
    FilterAgree(EmailAllowedIn(s), EmailAllowedIn(t), email);
    FilterAgree(EmailAllowedIn(s), EmailAllowedIn(t), instant);
    FilterAgree(PushAllowedIn(s), PushAllowedIn(t), push);
    var ds := GroupBy(UserOf, EmailGroups(s, email));
    FilterAgree(Attempted(w, s), Attempted(w, t), ds);
    UnionAgree(DeliversIn(g, w, s), DeliversIn(g, w, t), ds);
    UnionAgree(DefersIn(g, w, s), DefersIn(g, w, t), ds);
  }

  lemma IdleRun(c: Call, g: Settings, w: World, s: Store)
    requires Pending(c, g, w, s) == []
    ensures var p := PlanRun(c, g, w, s);
      && p.email == [] && p.instant == [] && p.push == []
      && p.digests == DigestOutcome([], {}, {}) && p.mail == MailOutcome(0, {}, {}) && p.pushes == PushResult(0, {}, {})
    ensures RunTxn(c, g, w, s).sends == {} && Run(c, g, w, s) == s
  {
    forall n | n in s.notes ensures !IsPending(c, g, w, s, n) {
      assert n !in Pending(c, g, w, s);
    }
    PlanEmpty(c, g, w, s);
    EmptyPlanIsIdle(c, g, w, s);
  }
}
