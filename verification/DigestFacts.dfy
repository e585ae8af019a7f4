/** What the entries and sections of a digest, the emails of a run and its counters say, in terms of the rows
    they are made from. */
module DigestFacts {
  import opened Options
  import opened OrderedGroups
  import opened Sequences
  import opened Notifications
  import opened DigestBalance
  import opened Delivery
  import opened DigestRows
  import opened DeliveryRuns
  import opened DigestCoverage

  // ------------------------------------------------------------------ kinds and features

  /** Which kinds belong to each feature. */
  lemma KindsOf(k: Kind)
    ensures FeatureOf(k) == FriendsGoing <==> k == SubscriptionGoing
    ensures FeatureOf(k) == SuggestedEvents <==> k == SubscriptionSuggested
    ensures FeatureOf(k) == FriendReviews <==> k in {SubscriptionReview, SubscriptionMemories}
    ensures FeatureOf(k) == FriendMilestones <==> k == SubscriptionMilestone
    ensures FeatureOf(k) == SocialActivity <==> k in {NewFollower, NewFriend, FollowRequest, FollowRequestApproved}
    ensures FeatureOf(k) == InterestMatches <==> k == InterestEvent
    ensures FeatureOf(k) == MilestoneUnlocked <==> k == MilestoneUnlockedKind
    ensures FeatureOf(k) == EventMessages <==> k in {EventMessage, EventMessageReply}
    ensures FeatureOf(k) == PlanActivity <==> k == PlanSessionAdded
    ensures FeatureOf(k) == TicketPrompt <==> k == EventTicketPrompt
    ensures FeatureOf(k) == PromoCodes <==> k == PromoCodeAdded
    ensures FeatureOf(k) == PromoCodeMatches <==> k == PromoCodeMatch
    ensures FeatureOf(k) == MemoriesPrompt <==> k == EventMemoriesPrompt
    ensures FeatureOf(k) == ReviewPrompt <==> k == EventReviewPrompt
    ensures FeatureOf(k) == Unlisted <==> k.OtherKind?
  {
  }

  /** Two rows count as one for the cap exactly when they are milestones of one person, of one kind and with
      the same key. */
  lemma OneGroupIff(a: Note, b: Note)
    requires a.id != b.id
    ensures LogicalKeyOf(a) == LogicalKeyOf(b) <==>
      && a.kind in {MilestoneUnlockedKind, SubscriptionMilestone} && a.kind == b.kind && a.actor == b.actor
      && a.groupKey.Some? && a.groupKey == b.groupKey && a.groupKey.value != ""
  {
  }

  // ------------------------------------------------------------------ entries

  /** The rows told together: of the two milestone features everything of one person, else one row. */
  predicate ToldTogether(f: Feature, a: Note, b: Note) {
    a == b || (f in {FriendMilestones, MilestoneUnlocked} && a.actor == b.actor)
  }

  /** The saved alerts an interest match is listed under: the one its context names, or those its context
      lists, or else its context, whatever that is. */
  predicate ListedUnder(w: World, n: Note, name: string) {
    var context := if n.context.None? || n.context.value == "" then "Saved search" else n.context.value;
    var labels := if n.recipient in w.alerts then w.alerts[n.recipient] else [];
    var parts := if n.id in w.contextParts then w.contextParts[n.id] else {};
    if context in labels || !exists l :: l in labels && l in parts then name == context
    else name in labels && name in parts
  }

  lemma AlertsAre(w: World, n: Note, name: string)
    ensures name in AlertNames(w, n) <==> ListedUnder(w, n, name)
  {
    var labels := if n.recipient in w.alerts then w.alerts[n.recipient] else [];
    var parts := if n.id in w.contextParts then w.contextParts[n.id] else {};
    forall l ensures l in MatchingLabels(labels, parts) <==> l in labels && l in parts { }
    var matching := MatchingLabels(labels, parts);
    if matching != [] { assert matching[0] in matching; }
  }

  /** What an entry is grouped by: the person for what friends do, the alert for interest matches. */
  predicate GroupedAs(f: Feature, last: Note, alert: string, group: Option<GroupKey>) {
    match f
    case FriendsGoing => group == Some(ByActor(last.actor))
    case FriendReviews => group == Some(ByActor(last.actor))
    case FriendMilestones => group == Some(ByActor(last.actor))
    case SocialActivity => group == Some(ByActor(last.actor))
    case SuggestedEvents => group == Some(ByActor(last.actor))
    case MilestoneUnlocked => group == Some(ByActor(last.actor))
    case InterestMatches => group == Some(ByAlert(if alert == "" then "Saved search" else alert))
    case _ => group == None
  }

  lemma {:induction false} LatestIs(rows: seq<Note>)
    requires rows != []
    ensures (exists n :: n in rows && n.createdAt == Latest(rows))
    ensures forall n :: n in rows ==> n.createdAt <= Latest(rows)
  {
    var k := |rows| - 1;
    assert rows == rows[..k] + [rows[k]];
    if k > 0 { LatestIs(rows[..k]); }
  }

  /** What an entry says of the rows it names: all of them in order, the kind of the last, the time of the newest. */
  ghost predicate Tells(f: Feature, rows: seq<Note>, alert: string, e: Entry) {
    && rows != [] && |e.ids| == |rows| && (forall i :: 0 <= i < |rows| ==> e.ids[i] == rows[i].id)
    && e.kind == rows[|rows| - 1].kind && GroupedAs(f, rows[|rows| - 1], alert, e.group)
    && (exists n :: n in rows && n.createdAt == e.createdAt) && forall n :: n in rows ==> n.createdAt <= e.createdAt
  }

  lemma EntryForTells(f: Feature, rows: seq<Note>, alert: string)
    requires rows != []
    ensures Tells(f, rows, alert, EntryFor(f, rows, alert))
  {
    LatestIs(rows);
  }

  /** An entry tells of one group of its feature's rows; for interest matches there is one for each alert. */
  lemma EntrySays(w: World, b: Bucket<Target, Note>, e: Entry) returns (rows: seq<Note>, alert: string)
    requires e in FeatureEntries(w, b)
    ensures rows in DigestGroups(b.key.feature, Visible(w, b.items)) && Tells(b.key.feature, rows, alert, e)
    ensures b.key.feature == InterestMatches ==> ListedUnder(w, rows[|rows| - 1], alert)
  {
    hide Tells, ListedUnder, AlertNames, DigestGroups, Visible, EntryFor, Flatten, Filter;
    var f := b.key.feature;
    var groups := DigestGroups(f, Visible(w, b.items));
    var lists := EntryLists(w, f, groups);
    FlattenContains(lists, e);
    var i :| 0 <= i < |lists| && e in lists[i];
    rows := groups[i];
    assert rows != [];
    var n := rows[|rows| - 1];
    var names := if f == InterestMatches then AlertNames(w, n) else [""];
    var j :| 0 <= j < |names| && e == EntryFor(f, rows, names[j]);
    alert := names[j];
    assert alert in names;
    AlertsAre(w, n, alert);
    EntryForTells(f, rows, alert);
  }

  /** And every alert a match is listed under has its entry. */
  lemma AlertHasEntry(w: World, b: Bucket<Target, Note>, n: Note, alert: string) returns (rows: seq<Note>, e: Entry)
    requires b.key.feature == InterestMatches && n in Visible(w, b.items) && ListedUnder(w, n, alert)
    requires n.kind == InterestEvent && DistinctIds(Visible(w, b.items))
    ensures e in FeatureEntries(w, b) && Tells(InterestMatches, rows, alert, e) && forall m :: m in rows ==> m == n
  {
    hide GroupBy, Tells, ListedUnder, AlertNames, Visible, EntryFor;
    var visible := Visible(w, b.items);
    var groups := LogicalGroups(visible);
    var lists := EntryLists(w, InterestMatches, groups);
    GroupByMembers(LogicalKeyOf, visible, n);
    FlattenContains(groups, n);
    var i :| 0 <= i < |groups| && n in groups[i];
    LoneGroup(visible, i, n);
    rows := groups[i];
    var last := rows[|rows| - 1];
    assert last in rows;
    AlertsAre(w, n, alert);
    var names := AlertNames(w, n);
    var k :| 0 <= k < |names| && names[k] == alert;
    e := EntryFor(InterestMatches, rows, alert);
    EntryForTells(InterestMatches, rows, alert);
    assert lists[i][k] == e;
    assert e in lists[i];
    FlattenContains(lists, e);
  }

  lemma LoneGroup(rows: seq<Note>, i: nat, n: Note)
    requires i < |LogicalGroups(rows)| && n in LogicalGroups(rows)[i] && !IsMilestone(n.kind) && DistinctIds(rows)
    ensures forall m :: m in LogicalGroups(rows)[i] ==> m == n
  {
    BucketNonempty(LogicalKeyOf, rows, i);
    var g := GroupBy(LogicalKeyOf, rows)[i];
    forall m | m in g.items ensures m == n { assert LogicalKeyOf(m) == LogicalKeyOf(n); }
  }

  /** Two rows a feature tells of are in one entry exactly when they are told together. */
  lemma TogetherIff(f: Feature, rows: seq<Note>, m: Note, n: Note)
    requires DistinctIds(rows) && m in Shown(f, rows) && n in Shown(f, rows)
    requires FeatureOf(m.kind) == f && FeatureOf(n.kind) == f
    ensures (exists group :: group in DigestGroups(f, rows) && m in group && n in group) <==> ToldTogether(f, m, n)
  {
    hide GroupBy;
    var shown := Shown(f, rows);
    if f == FriendMilestones || f == MilestoneUnlocked {
      SameGroupIff(ActorOf, shown, m, n);
    } else {
      SameGroupIff(LogicalKeyOf, shown, m, n);
    }
  }

  lemma SameGroupIff<K(!new)>(key: Note -> K, rows: seq<Note>, m: Note, n: Note)
    requires m in rows && n in rows
    ensures (exists group :: group in Items(GroupBy(key, rows)) && m in group && n in group) <==> key(m) == key(n)
  {
    hide GroupBy;
    var groups := Items(GroupBy(key, rows));
    if key(m) == key(n) { var group := GroupHolding(key, rows, m, n); }
    if group :| group in groups && m in group && n in group {
      var j :| 0 <= j < |groups| && groups[j] == group;
      BucketNonempty(key, rows, j);
    }
  }

  lemma GroupHolding<K(!new)>(key: Note -> K, rows: seq<Note>, m: Note, n: Note) returns (group: seq<Note>)
    requires m in rows && n in rows && key(m) == key(n)
    ensures group in Items(GroupBy(key, rows)) && m in group && n in group
  {
    var groups := GroupBy(key, rows);
    GroupByDescribes(key, rows);
    GroupByMembers(key, rows, m);
    FlattenContains(Items(groups), m);
    var i :| 0 <= i < |groups| && m in Items(groups)[i];
    BucketNonempty(key, rows, i);
    hide GroupBy, FirstKeys;
    group := Items(groups)[i];
    assert group == WithKey(key, key(m), rows);
    assert n in WithKey(key, key(m), rows);
  }

  // ------------------------------------------------------------------ sections

  /** The two kinds of promo codes share one section; every other feature has its own. */
  predicate BelongsTo(f: Feature, name: SectionName) {
    if f in {PromoCodes, PromoCodeMatches} then name == Deals else name == Of(f)
  }

  /** A section holds the entries of its features and has no second one of its name. */
  lemma SectionSays(w: World, features: seq<Bucket<Target, Note>>, s: Section, e: Entry)
    returns (b: Bucket<Target, Note>)
    requires s in SectionsOf(w, features) && e in s.entries
    ensures b in features && e in FeatureEntries(w, b) && BelongsTo(b.key.feature, s.name)
  {
    hide FeatureEntries;
    var kept := Filter(Sayable(w), features);
    var groups := GroupBy(SectionNameOf, kept);
    var i :| 0 <= i < |groups| && SectionsOf(w, features)[i] == s;
    var lists := FeatureLists(w, groups[i].items);
    FlattenContains(lists, e);
    var j :| 0 <= j < |lists| && e in lists[j];
    b := groups[i].items[j];
    BucketNonempty(SectionNameOf, kept, i);
    assert b in groups[i].items;
  }

  lemma SectionNamesDiffer(w: World, features: seq<Bucket<Target, Note>>, i: nat, j: nat)
    requires i < j < |SectionsOf(w, features)|
    ensures SectionsOf(w, features)[i].name != SectionsOf(w, features)[j].name
  {
    var kept := Filter(Sayable(w), features);
    var groups := GroupBy(SectionNameOf, kept);
    GroupByDescribes(SectionNameOf, kept);
    assert Keys(groups)[i] == groups[i].key && Keys(groups)[j] == groups[j].key;
  }

  // ------------------------------------------------------------------ emails and pushes

  /** The recipient has the feature's emails, or pushes, switched on. */
  predicate HasEmailOn(s: Store, n: Note) {
    !n.kind.OtherKind? && n.recipient in s.users && FeatureOf(n.kind) in s.users[n.recipient].emailOn
  }

  predicate HasPushOn(s: Store, n: Note) {
    !n.kind.OtherKind? && n.recipient in s.users && FeatureOf(n.kind) in s.users[n.recipient].pushOn
  }

  function EmailOnIn(s: Store): Note -> bool { (n: Note) => HasEmailOn(s, n) }

  function PushOnIn(s: Store): Note -> bool { (n: Note) => HasPushOn(s, n) }

  function TargetsWith(rows: seq<Note>, past: set<Id>): set<Target> {
    set n | n in rows && n.id !in past :: Target(n.recipient, FeatureOf(n.kind))
  }

  ghost predicate KeysApart(groups: seq<Bucket<Target, Note>>) {
    forall i, j :: 0 <= i < j < |groups| ==> groups[i].key != groups[j].key
  }

  lemma {:induction false} AsManyKeys(groups: seq<Bucket<Target, Note>>)
    requires KeysApart(groups)
    ensures |groups| == |set b | b in groups :: b.key|
  {
    if groups != [] {
      var n := |groups| - 1;
      AsManyKeys(groups[..n]);
      var before := set b | b in groups[..n] :: b.key;
      assert groups == groups[..n] + [groups[n]];
      assert (set b | b in groups :: b.key) == before + {groups[n].key};
      assert groups[n].key !in before;
    }
  }

  lemma {:induction false} FilterKeepsApart(p: Bucket<Target, Note> -> bool, groups: seq<Bucket<Target, Note>>)
    requires KeysApart(groups)
    ensures KeysApart(Filter(p, groups))
  {
    if groups != [] {
      hide Filter;
      var init, last := groups[..|groups| - 1], groups[|groups| - 1];
      assert groups == init + [last];
      FilterKeepsApart(p, init);
      FilterPush(p, init, last);
      forall i | 0 <= i < |Filter(p, init)| ensures Filter(p, init)[i].key != last.key {
        assert Filter(p, init)[i] in Filter(p, init);
        var j :| 0 <= j < |init| && init[j] == Filter(p, init)[i];
        assert groups[j].key != groups[|groups| - 1].key;
      }
    }
  }

  lemma GroupsApart(rows: seq<Note>)
    ensures KeysApart(GroupBy(TargetOf, rows))
  {
    var groups := GroupBy(TargetOf, rows);
    GroupByDescribes(TargetOf, rows);
    forall i, j | 0 <= i < j < |groups| ensures groups[i].key != groups[j].key {
      assert Keys(groups)[i] == groups[i].key && Keys(groups)[j] == groups[j].key;
    }
  }

  /** The groups with something left to say: one per recipient and feature with a row that is not out of date. */
  lemma SayableTargets(w: World, rows: seq<Note>)
    ensures var kept := Filter(Sayable(w), GroupBy(TargetOf, rows));
      && |kept| == |TargetsWith(rows, w.past)|
      && (set b | b in kept :: b.key) == TargetsWith(rows, w.past)
  {
    hide GroupBy, KeysApart;
    var groups := GroupBy(TargetOf, rows);
    var kept := Filter(Sayable(w), groups);
    GroupsApart(rows);
    FilterKeepsApart(Sayable(w), groups);
    AsManyKeys(kept);
    forall t ensures t in (set b | b in kept :: b.key) <==> t in TargetsWith(rows, w.past) {
      if t in (set b | b in kept :: b.key) {
        var b :| b in kept && b.key == t;
        BucketOfRows(rows, b);
        var n := Visible(w, b.items)[0];
        assert n in Visible(w, b.items);
      }
      if t in TargetsWith(rows, w.past) {
        var n: Note :| n in rows && n.id !in w.past && Target(n.recipient, FeatureOf(n.kind)) == t;
        var b := BucketFor(rows, n);
        assert n in b.items && n in Visible(w, b.items);
        assert Sayable(w)(b);
      }
    }
    assert (set b | b in kept :: b.key) == TargetsWith(rows, w.past);
  }

  lemma BucketOfRows(rows: seq<Note>, b: Bucket<Target, Note>)
    requires b in GroupBy(TargetOf, rows)
    ensures forall n :: n in b.items <==> n in rows && TargetOf(n) == b.key
  {
    BucketIs(rows, b);
  }

  /** As many emails are counted as there are recipients and features with something to say. */
  lemma EmailsSent(g: Settings, w: World, fails: set<Target>, s: Store, included: seq<Note>)
    ensures SendMail(g, w, fails, EmailGroups(s, included)).sent
         == |TargetsWith(Filter(EmailOnIn(s), included), w.past)|
  {
    SwitchesAre(s, included);
    var rows := Filter(EmailOnIn(s), included);
    SayableTargets(w, rows);
    hide Filter, GroupBy, TargetsWith, Union;
    assert EmailGroups(s, included) == GroupBy(TargetOf, rows);
  }

  lemma SwitchesAre(s: Store, included: seq<Note>)
    ensures Filter(EmailAllowedIn(s), included) == Filter(EmailOnIn(s), included)
    ensures Filter(PushAllowedIn(s), included) == Filter(PushOnIn(s), included)
  {
    hide Filter;
    FilterAgree(EmailAllowedIn(s), EmailOnIn(s), included);
    FilterAgree(PushAllowedIn(s), PushOnIn(s), included);
  }

  /** Pushes are counted by the devices that took them, over the same recipients and features. */
  lemma PushesSent(w: World, s: Store, included: seq<Note>) returns (targets: seq<Target>)
    ensures var rows := Filter(PushOnIn(s), included);
      |targets| == |TargetsWith(rows, w.past)| && (set t | t in targets) == TargetsWith(rows, w.past)
    ensures SendPushes(w, PushGroups(s, included)).pushed
         == Sum((t: Target) => if t in w.pushes && w.pushes[t].Sent? then w.pushes[t].count else 0, targets)
  {
    SwitchesAre(s, included);
    var rows := Filter(PushOnIn(s), included);
    var groups := GroupBy(TargetOf, rows);
    var kept := Filter(Sayable(w), groups);
    SayableTargets(w, rows);
    PushSum(w, groups);
    KeysHold(kept);
    hide GroupBy, Filter, Union, TargetsWith;
    targets := KeysOf(kept);
    assert SendPushes(w, PushGroups(s, included)).pushed == Sum(PushCount(w), groups);
  }

  function KeysOf(groups: seq<Bucket<Target, Note>>): seq<Target> {
    seq(|groups|, i requires 0 <= i < |groups| => groups[i].key)
  }

  lemma KeysHold(groups: seq<Bucket<Target, Note>>)
    ensures (set t | t in KeysOf(groups)) == set b | b in groups :: b.key
  {
    forall t ensures t in KeysOf(groups) <==> t in (set b | b in groups :: b.key) {
      if t in KeysOf(groups) {
        var i :| 0 <= i < |groups| && KeysOf(groups)[i] == t;
        assert groups[i] in groups;
      }
      if b :| b in groups && b.key == t {
        var i :| 0 <= i < |groups| && groups[i] == b;
        assert KeysOf(groups)[i] == t;
      }
    }
  }

  lemma {:induction false} PushSum(w: World, groups: seq<Bucket<Target, Note>>)
    ensures Sum(PushCount(w), groups)
         == Sum((t: Target) => if t in w.pushes && w.pushes[t].Sent? then w.pushes[t].count else 0,
                KeysOf(Filter(Sayable(w), groups)))
  {
    if groups != [] {
      var n := |groups| - 1;
      assert groups == groups[..n] + [groups[n]];
      PushSum(w, groups[..n]);
      FilterPush(Sayable(w), groups[..n], groups[n]);
      var before := Filter(Sayable(w), groups[..n]);
      if Sayable(w)(groups[n]) {
        assert KeysOf(before + [groups[n]])[..|before|] == KeysOf(before);
      } else {
        assert before + [] == before;
      }
    }
  }

  /** An email renders a row only if it delivers it; of interest matches only the first ones of its group. */
  lemma RenderedIff(g: Settings, w: World, fails: set<Target>, s: Store, included: seq<Note>, k: nat)
    requires DistinctIds(included) && k < |included| && included[k] !in included[..k]
    ensures var n, o := included[k], SendMail(g, w, fails, EmailGroups(s, included));
      var before := Filter((m: Note) => m.recipient == n.recipient && m.kind == InterestEvent && m.id !in w.past
                                        && HasEmailOn(s, m), included[..k]);
      n.id in o.rendered <==> n.id in o.delivered && (n.kind == InterestEvent ==> |before| < g.maxInterest)
  {
    var n := included[k];
    MailAccounts(g, w, fails, s, included, n);
    hide SendMail;
    if Mailable(w, fails, s, n) && n.kind == InterestEvent {
      var mine := (m: Note) => m.recipient == n.recipient && m.kind == InterestEvent && m.id !in w.past
                               && HasEmailOn(s, m);
      RowsOfGroup(w, s, included, n, mine);
      PlaceInFilter(mine, included, k);
      var rows := Filter(mine, included);
      CutKeepsFirst(g.maxInterest, rows, |Filter(mine, included[..k])|);
    }
  }

  lemma CutKeepsFirst(max: nat, rows: seq<Note>, at: nat)
    requires at < |rows| && rows[at] !in rows[..at]
    ensures rows[at] in Cut(max, InterestMatches, rows) <==> at < max
  {
    if |rows| > max {
      if at < max {
        assert rows[..max][at] == rows[at];
      } else {
        assert forall i :: 0 <= i < max ==> rows[..max][i] == rows[..at][i];
      }
    }
  }

  lemma RowsOfGroup(w: World, s: Store, included: seq<Note>, n: Note, mine: Note -> bool)
    requires n.kind == InterestEvent
    requires forall m :: mine(m) <==>
      m.recipient == n.recipient && m.kind == InterestEvent && m.id !in w.past && HasEmailOn(s, m)
    ensures GroupRows(w, s, included, n) == Filter(mine, included)
  {
    InterestGroup(w, s, included, n, mine);
  }

  lemma {:induction false} InterestGroup(w: World, s: Store, rows: seq<Note>, n: Note, mine: Note -> bool)
    requires n.kind == InterestEvent
    requires forall m :: mine(m) <==>
      m.recipient == n.recipient && m.kind == InterestEvent && m.id !in w.past && HasEmailOn(s, m)
    ensures GroupRows(w, s, rows, n) == Filter(mine, rows)
  {
    if rows == [] {
      NoGroup(w, s, n, mine);
    } else {
      hide Filter, WithKey, GroupRows;
      var init, last := rows[..|rows| - 1], rows[|rows| - 1];
      assert rows == init + [last];
      InterestGroup(w, s, init, n, mine);
      GroupRowsPush(w, s, init, n, last);
      FilterPush(mine, init, last);
      assert GroupRows(w, s, init, n) + [] == GroupRows(w, s, init, n);
    }
  }

  lemma NoGroup(w: World, s: Store, n: Note, mine: Note -> bool)
    ensures GroupRows(w, s, [], n) == [] == Filter(mine, [])
  {
  }

  lemma GroupRowsPush(w: World, s: Store, init: seq<Note>, n: Note, last: Note)
    ensures GroupRows(w, s, init + [last], n) == GroupRows(w, s, init, n)
         + if EmailAllowed(s, last) && TargetOf(last) == TargetOf(n) && last.id !in w.past then [last] else []
  {
    hide Filter, WithKey;
    var allowed := Filter(EmailAllowedIn(s), init);
    var own := WithKey(TargetOf, TargetOf(n), allowed);
    FilterPush(EmailAllowedIn(s), init, last);
    assert allowed + [] == allowed && own + [] == own;
    WithKeyPush(TargetOf, TargetOf(n), allowed, last);
    FilterPush(FreshIn(w), own, last);
    assert Filter(FreshIn(w), own) + [] == Filter(FreshIn(w), own);
  }

  lemma {:induction false} PlaceInFilter(p: Note -> bool, rows: seq<Note>, k: nat)
    requires k < |rows| && p(rows[k]) && rows[k] !in rows[..k]
    ensures var at := |Filter(p, rows[..k])|;
      && at < |Filter(p, rows)| && Filter(p, rows)[at] == rows[k] && rows[k] !in Filter(p, rows)[..at]
  {
    hide Filter;
    var n := |rows| - 1;
    assert rows == rows[..n] + [rows[n]];
    FilterPush(p, rows[..n], rows[n]);
    var before := Filter(p, rows[..n]);
    if k < n {
      assert rows[..n][..k] == rows[..k];
      PlaceInFilter(p, rows[..n], k);
      var at := |Filter(p, rows[..k])|;
      assert Filter(p, rows)[..at] == before[..at];
    } else {
      assert Filter(p, rows)[..|before|] == before;
      assert rows[k] !in before;
    }
  }
}
