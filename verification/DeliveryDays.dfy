/** Bounds per local day over any sequence of scheduled ticks, with anything but the recipient's
    own clock changing in between. */
module DeliveryDays {
  import opened OrderedGroups
  import opened Sequences
  import opened Notifications
  import opened Schedule
  import opened DigestBalance
  import opened Delivery
  import opened DigestRows
  import opened DeliveryRuns

  // ------------------------------------------------------------------ ticks

  datatype Tick = Tick(call: Call, settings: Settings, world: World, store: Store)

  function PlanOf(t: Tick): Plan { PlanRun(t.call, t.settings, t.world, t.store) }

  function After(t: Tick): Store { Run(t.call, t.settings, t.world, t.store) }

  ghost predicate Scheduled(t: Tick, u: UserId, offset: int) {
    && !t.call.force && !t.call.resend && t.store.Valid() && t.settings.schedule.Valid()
    && u in t.store.users && t.store.users[u].offset == offset
  }

  /** Between two ticks anything may change except the recipient's zone and the clock the ticks keep. */
  ghost predicate DigestClockKept(t: Tick, t': Tick, u: UserId) {
    && t.world.now <= t'.world.now
    && u in t'.store.users && u in After(t).users
    && t'.store.users[u].lastDigest == After(t).users[u].lastDigest
  }

  ghost predicate PushClockKept(t: Tick, t': Tick, u: UserId) {
    && t.world.now <= t'.world.now
    && u in t'.store.users && u in After(t).users
    && t'.store.users[u].lastInterestPush == After(t).users[u].lastInterestPush
  }

  /** Non-forced, serialised ticks at nondecreasing times. */
  ghost predicate DigestHistory(ticks: seq<Tick>, u: UserId, offset: int) {
    && (forall k :: 0 <= k < |ticks| ==> Scheduled(ticks[k], u, offset) && ticks[k].settings.combined)
    && (forall k, l :: 0 <= k < l < |ticks| && l == k + 1 ==> DigestClockKept(ticks[k], ticks[l], u))
  }

  ghost predicate PushHistory(ticks: seq<Tick>, u: UserId, offset: int) {
    && (forall k :: 0 <= k < |ticks| ==> Scheduled(ticks[k], u, offset) && ticks[k].settings.interestPush.Some?)
    && (forall k, l :: 0 <= k < l < |ticks| && l == k + 1 ==> PushClockKept(ticks[k], ticks[l], u))
  }

  // ------------------------------------------------------------------ digests

  ghost predicate NoRepeats(xs: seq<UserId>) { forall i, j :: 0 <= i < j < |xs| ==> xs[i] != xs[j] }

  lemma {:induction false} FilterKeepsDistinct(p: Digest -> bool, ds: seq<Digest>)
    requires forall i, j :: 0 <= i < j < |ds| ==> ds[i].key != ds[j].key
    ensures NoRepeats(Keys(Filter(p, ds)))
  {
    if ds != [] {
      var k := |ds| - 1;
      var before := Filter(p, ds[..k]);
      FilterKeepsDistinct(p, ds[..k]);
      forall i | 0 <= i < |before| ensures before[i].key != ds[k].key {
        assert before[i] in Filter(p, ds[..k]);
        assert before[i] in ds[..k];
      }
      assert forall i :: 0 <= i < |before| ==> Keys(before)[i] == before[i].key;
    }
  }

  lemma SectionHasRow(s: Store, w: World, included: seq<Note>, b: Digest) returns (n: Note)
    requires b in GroupBy(UserOf, EmailGroups(s, included)) && SectionsOf(w, b.items) != []
    ensures n in included && n.recipient == b.key && FeatureOf(n.kind) != Unlisted
  {
    SectionsCount(w, b.items);
    SectionsFromRows(w, b.items);
    var id := SomeEntryId(SectionsOf(w, b.items));
    n := VisibleOwned(s, w, included, b, id);
  }

  lemma {:induction false} SomeEntryId(ss: seq<Section>) returns (id: Id)
    requires Sum(EntryCount, ss) > 0 && EntriesHaveIds(ss)
    ensures id in EntryIds(ss)
  {
    var k := |ss| - 1;
    assert ss[k] in ss;
    if ss[k].entries != [] {
      var e := ss[k].entries[0];
      assert e in ss[k].entries && e.ids[0] in e.ids;
      id := e.ids[0];
    } else {
      assert forall s :: s in ss[..k] ==> s in ss;
      id := SomeEntryId(ss[..k]);
    }
  }

  /** A combined digest goes only to a recipient one of whose rows is included, and at most once. */
  lemma DigestGoesToSeen(g: Settings, w: World, s: Store, included: seq<Note>, u: UserId)
    requires g.combined
    ensures u in Digests(g, w, s, included).sent ==> u in Seen(included)
    ensures NoRepeats(Digests(g, w, s, included).sent)
  {
    var groups := EmailGroups(s, included);
    var bs := GroupBy(UserOf, groups);
    GroupByDescribes(UserOf, groups);
    forall i, j | 0 <= i < j < |bs| ensures bs[i].key != bs[j].key {
      assert Keys(bs)[i] == bs[i].key && Keys(bs)[j] == bs[j].key;
    }
    FilterKeepsDistinct(Attempted(w, s), bs);
    var sent := Filter(Attempted(w, s), bs);
    if u in Digests(g, w, s, included).sent {
      var i :| 0 <= i < |sent| && Keys(sent)[i] == u;
      assert sent[i] in sent;
      var n := SectionHasRow(s, w, included, sent[i]);
    }
  }

  lemma SeenWereDue(c: Call, g: Settings, w: World, s: Store, u: UserId)
    requires !c.force && u in Seen(PlanRun(c, g, w, s).email)
    ensures u in s.users && SlotStatus(s.users[u].offset, s.users[u].lastDigest, w.now, g.schedule) == InSlot
  {
    var n: Note :| n in PlanRun(c, g, w, s).email && n.recipient == u;
    PlanRows(c, g, w, s, n);
  }

  /** Once a digest is sent, the recipient's clock never falls behind that instant. */
  lemma {:induction false} DigestClockSince(ticks: seq<Tick>, u: UserId, offset: int, i: nat, j: nat)
    requires DigestHistory(ticks, u, offset) && i < j < |ticks|
    requires u in PlanOf(ticks[i]).digests.sent
    ensures u in ticks[j].store.users
    ensures var last := ticks[j].store.users[u].lastDigest;
      last.Some? && ticks[i].world.now <= last.value <= ticks[j].world.now
    decreases j - i
  {
    hide PlanRun;
    var t, t' := ticks[j - 1], ticks[j];
    assert DigestClockKept(t, t', u);
    assert Scheduled(t, u, offset);
    if j > i + 1 {
      DigestClockSince(ticks, u, offset, i, j - 1);
    } else {
      SentWereSeen(t, u);
    }
    UserAfter(t, u);
  }

  lemma SentWereSeen(t: Tick, u: UserId)
    requires t.settings.combined && u in PlanOf(t).digests.sent
    ensures u in Seen(PlanOf(t).email)
  {
    DigestGoesToSeen(t.settings, t.world, t.store, PlanOf(t).email, u);
  }

  lemma SentWasDue(t: Tick, u: UserId, offset: int)
    requires Scheduled(t, u, offset) && t.settings.combined && u in PlanOf(t).digests.sent
    ensures var last := t.store.users[u].lastDigest;
      last.Some? ==> LocalDay(last.value, offset) != LocalDay(t.world.now, offset)
  {
    SentWereSeen(t, u);
    SeenWereDue(t.call, t.settings, t.world, t.store, u);
  }

  /** A recipient gets at most one digest per local calendar day. */
  lemma OneDigestPerDay(ticks: seq<Tick>, u: UserId, offset: int, i: nat, j: nat)
    requires i < j < |ticks|
    ensures var early, late := PlanOf(ticks[i]).digests.sent, PlanOf(ticks[j]).digests.sent;
      DigestHistory(ticks, u, offset) && u in early && u in late ==>
      LocalDay(ticks[i].world.now, offset) < LocalDay(ticks[j].world.now, offset)
  {
    hide PlanRun;
    if DigestHistory(ticks, u, offset) && u in PlanOf(ticks[i]).digests.sent && u in PlanOf(ticks[j]).digests.sent {
      DigestClockSince(ticks, u, offset, i, j);
      SentWasDue(ticks[j], u, offset);
    }
  }

  lemma UserAfter(t: Tick, u: UserId)
    requires u in t.store.users
    ensures u in After(t).users
    ensures After(t).users[u].lastDigest
         == Stamp(t.world.now, u in Seen(PlanOf(t).email), t.store.users[u].lastDigest)
    ensures After(t).users[u].lastInterestPush
         == Stamp(t.world.now, u in InterestPushed(PlanOf(t)), t.store.users[u].lastInterestPush)
  {
  }

  /** Each digest goes out on a scheduled weekday, at or after the scheduled time, and no tick sends
      a recipient two. */
  lemma DigestInSlot(c: Call, g: Settings, w: World, s: Store, u: UserId)
    requires g.combined && !c.force && g.schedule.Valid()
    ensures NoRepeats(PlanRun(c, g, w, s).digests.sent)
    ensures u in PlanRun(c, g, w, s).digests.sent ==>
      && u in s.users
      && var day := LocalDay(w.now, s.users[u].offset);
         Weekday(day) in g.schedule.weekdays && SlotOpens(day, s.users[u].offset, g.schedule) <= w.now
  {
    DigestGoesToSeen(g, w, s, PlanRun(c, g, w, s).email, u);
    if u in PlanRun(c, g, w, s).digests.sent {
      SeenWereDue(c, g, w, s, u);
      InSlotIff(s.users[u].offset, s.users[u].lastDigest, w.now, g.schedule);
    }
  }

  // ------------------------------------------------------------------ interest pushes

  /** The tick delivers an interest push to `u`. */
  ghost predicate PushesInterest(t: Tick, u: UserId) {
    exists n :: n in PlanOf(t).push && n.recipient == u && IsInterestPush(FeatureOf(n.kind))
                && n.id in PlanOf(t).pushes.delivered
  }

  lemma DeliveredInterestStamps(p: Plan, n: Note)
    requires n in p.push && IsInterestPush(FeatureOf(n.kind)) && n.id !in p.pushes.retry
    ensures n.recipient in InterestPushed(p)
  {
    assert CountsAsInterestPush(n.kind);
  }

  lemma InterestPushStamps(t: Tick, u: UserId)
    requires t.store.Valid() && PushesInterest(t, u)
    ensures u in InterestPushed(PlanOf(t))
  {
    PlanDistinct(t.call, t.settings, t.world, t.store);
    PushFate(t.world, t.store, PlanOf(t).push);
    var n :| n in PlanOf(t).push && n.recipient == u && IsInterestPush(FeatureOf(n.kind))
      && n.id in PlanOf(t).pushes.delivered;
    DeliveredInterestStamps(PlanOf(t), n);
  }

  lemma InterestPushedRow(p: Plan, u: UserId) returns (n: Note)
    requires u in InterestPushed(p)
    ensures n in p.push && CountsAsInterestPush(n.kind) && n.recipient == u
  {
    n :| n in p.push && n.id !in p.pushes.retry && CountsAsInterestPush(n.kind) && n.recipient == u;
  }

  ghost predicate InterestDue(t: Tick, u: UserId) {
    && u in t.store.users && t.settings.interestPush.Some?
    && var v := t.store.users[u];
       InterestPushDue(v.offset, v.lastInterestPush, t.world.now, t.settings.interestPush.value)
  }

  lemma ScheduledPushWasDue(t: Tick, n: Note)
    requires PushScheduled(t.call, t.settings, n) && RoutesPush(t.call, t.settings, t.world, t.store, n)
    ensures InterestDue(t, n.recipient)
  {
  }

  lemma InterestRowRouted(t: Tick, u: UserId) returns (n: Note)
    requires u in InterestPushed(PlanOf(t))
    ensures n.recipient == u && IsInterestPush(FeatureOf(n.kind))
    ensures RoutesPush(t.call, t.settings, t.world, t.store, n)
  {
    hide PlanRun;
    n := InterestPushedRow(PlanOf(t), u);
    PlanRows(t.call, t.settings, t.world, t.store, n);
  }

  lemma InterestPushWasDue(t: Tick, u: UserId)
    requires !t.call.force && !t.call.resend && t.settings.interestPush.Some?
    requires u in InterestPushed(PlanOf(t))
    ensures InterestDue(t, u)
  {
    var n := InterestRowRouted(t, u);
    ScheduledPushWasDue(t, n);
  }

  /** Once an interest push is delivered, the recipient's push clock never falls behind that instant. */
  lemma {:induction false} PushClockSince(ticks: seq<Tick>, u: UserId, offset: int, i: nat, j: nat)
    requires PushHistory(ticks, u, offset) && i < j < |ticks| && PushesInterest(ticks[i], u)
    ensures u in ticks[j].store.users
    ensures var last := ticks[j].store.users[u].lastInterestPush;
      last.Some? && ticks[i].world.now <= last.value <= ticks[j].world.now
    decreases j - i
  {
    hide PlanRun;
    var t, t' := ticks[j - 1], ticks[j];
    assert PushClockKept(t, t', u);
    assert Scheduled(t, u, offset);
    if j > i + 1 {
      PushClockSince(ticks, u, offset, i, j - 1);
    } else {
      InterestPushStamps(t, u);
    }
    UserAfter(t, u);
  }

  lemma PushedWasDue(t: Tick, u: UserId, offset: int)
    requires Scheduled(t, u, offset) && t.settings.interestPush.Some? && PushesInterest(t, u)
    ensures var last := t.store.users[u].lastInterestPush;
      last.Some? ==> LocalDay(last.value, offset) != LocalDay(t.world.now, offset)
  {
    InterestPushStamps(t, u);
    InterestPushWasDue(t, u);
  }

  /** Scheduled interest pushes reach a recipient in at most one tick per local day. */
  lemma OneInterestPushPerDay(ticks: seq<Tick>, u: UserId, offset: int, i: nat, j: nat)
    requires i < j < |ticks|
    ensures PushHistory(ticks, u, offset) && PushesInterest(ticks[i], u) && PushesInterest(ticks[j], u) ==>
      LocalDay(ticks[i].world.now, offset) < LocalDay(ticks[j].world.now, offset)
  {
    hide PlanRun, PushesInterest;
    if PushHistory(ticks, u, offset) && PushesInterest(ticks[i], u) && PushesInterest(ticks[j], u) {
      PushClockSince(ticks, u, offset, i, j);
      PushedWasDue(ticks[j], u, offset);
    }
  }

  /** ... and always on a scheduled weekday, within three hours of the slot time. */
  lemma InterestPushOnTime(t: Tick, u: UserId)
    requires t.store.Valid() && !t.call.force && !t.call.resend
    requires t.settings.interestPush.Some? && t.settings.interestPush.value.Valid()
    ensures PushesInterest(t, u) ==>
      && u in t.store.users
      && var s, offset := t.settings.interestPush.value, t.store.users[u].offset;
         var opens := SlotOpens(LocalDay(t.world.now, offset), offset, s);
         opens <= t.world.now < opens + 3 * HOUR && Weekday(LocalDay(t.world.now, offset)) in s.weekdays
  {
    hide PlanRun, PushesInterest;
    if PushesInterest(t, u) {
      InterestPushStamps(t, u);
      InterestPushWasDue(t, u);
      var v := t.store.users[u];
      InterestPushInWindow(v.offset, v.lastInterestPush, t.world.now, t.settings.interestPush.value);
    }
  }
}
