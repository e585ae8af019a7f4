/** The statistics a run reports, said of the rows it found and of what it did with them. */
module RunStatistics {
  import opened Options
  import opened OrderedGroups
  import opened Sequences
  import opened Notifications
  import opened Schedule
  import opened Delivery
  import opened DeliveryRuns
  import opened DeliveryFacts
  import opened ActivityEmail

  // ------------------------------------------------------------------ why rows wait

  /** A row a digest would take, were its recipient's slot open. */
  predicate WaitsForSlot(c: Call, g: Settings, s: Store, n: Note) {
    && !c.immediateOnly && !c.force && n.id in s.stamps && (c.resend || s.stamps[n.id].emailed.None?)
    && n.recipient in s.users && !s.users[n.recipient].deleted
    && !n.kind.OtherKind? && FeatureOf(n.kind) in g.digest
    && (FeatureOf(n.kind) in g.instant ==> n.kind == MilestoneUnlockedKind)
  }

  function LocalTime(s: Store, n: Note, now: int): int
    requires n.recipient in s.users
  {
    now + s.users[n.recipient].offset
  }

  predicate OnScheduledDay(w: World, g: Settings, s: Store, n: Note)
    requires n.recipient in s.users
  {
    (LocalTime(s, n, w.now) / 86_400_000_000 + 3) % 7 in g.schedule.weekdays
  }

  predicate PastOpening(w: World, g: Settings, s: Store, n: Note)
    requires n.recipient in s.users
  {
    LocalTime(s, n, w.now) % 86_400_000_000 >= g.schedule.hour * 3_600_000_000 + g.schedule.minute * 60_000_000
  }

  /** The three reasons exclude each other, and the first that applies counts. */
  lemma OffScheduleIff(c: Call, g: Settings, w: World, s: Store, n: Note)
    requires g.schedule.Valid()
    ensures OffSchedule(c, g, w, s, n) == Some(WrongWeekday) <==>
              WaitsForSlot(c, g, s, n) && !OnScheduledDay(w, g, s, n)
    ensures OffSchedule(c, g, w, s, n) == Some(BeforeScheduledTime) <==>
              WaitsForSlot(c, g, s, n) && OnScheduledDay(w, g, s, n) && !PastOpening(w, g, s, n)
    ensures OffSchedule(c, g, w, s, n) == Some(AlreadySentToday) <==>
              && WaitsForSlot(c, g, s, n) && OnScheduledDay(w, g, s, n) && PastOpening(w, g, s, n)
              && var u := s.users[n.recipient];
                 u.lastDigest.Some? && (u.lastDigest.value + u.offset) / 86_400_000_000
                                       == LocalTime(s, n, w.now) / 86_400_000_000
  {
    if n.recipient in s.users {
      var u := s.users[n.recipient];
      SlotReasons(u.offset, u.lastDigest, w.now, g.schedule);
    }
    hide SlotStatus;
  }

  lemma SlotReasons(offset: int, last: Option<int>, now: int, s: Schedule)
    requires s.Valid()
    ensures var local, status := now + offset, SlotStatus(offset, last, now, s);
      var day, open := (local / 86_400_000_000 + 3) % 7 in s.weekdays,
                       local % 86_400_000_000 >= s.hour * 3_600_000_000 + s.minute * 60_000_000;
      && (status == WrongWeekday <==> !day)
      && (status == BeforeScheduledTime <==> day && !open)
      && (status == AlreadySentToday <==>
            day && open && last.Some? && (last.value + offset) / 86_400_000_000 == local / 86_400_000_000)
  {
    var tod := TimeOfDay(now, offset);
    var h, m := tod / HOUR, tod % HOUR / MINUTE;
    assert tod == h * HOUR + tod % HOUR;
    assert tod % HOUR == m * MINUTE + tod % HOUR % MINUTE;
  }

  /** A push that would go out, were its slot open. */
  predicate PushWaits(c: Call, g: Settings, w: World, s: Store, n: Note) {
    && n.kind in {InterestEvent, PromoCodeMatch} && FeatureOf(n.kind) in g.push && g.interestPush.Some?
    && !c.force && !c.resend && n.id in s.stamps && s.stamps[n.id].pushed.None?
    && n.recipient in s.users && !s.users[n.recipient].deleted
    && var u, at := s.users[n.recipient], g.interestPush.value;
       !(SlotIsOpen(u.offset, u.lastInterestPush, w.now, at)
         && (w.now + u.offset) % 86_400_000_000 < (at.hour + 3) * 3_600_000_000 + at.minute * 60_000_000)
  }

  lemma PutOffIff(c: Call, g: Settings, w: World, s: Store, n: Note)
    requires g.interestPush.Some? ==> g.interestPush.value.Valid()
    ensures PutOff(c, g, w, s, n) <==> PushWaits(c, g, w, s, n)
  {
    if n.recipient in s.users && g.interestPush.Some? {
      var u := s.users[n.recipient];
      SlotIsOpenIff(u.offset, u.lastInterestPush, w.now, g.interestPush.value);
    }
    hide SlotIsOpen, InterestPushDue;
  }

  // ------------------------------------------------------------------ counting

  function Ind(q: Note -> bool): Note -> int { (n: Note) => if q(n) then 1 else 0 }

  function ItemSum(q: Note -> bool): Bucket<UserId, Note> -> int { (b: Bucket<UserId, Note>) => Sum(Ind(q), b.items) }

  lemma {:induction false} CountIsSum(q: Note -> bool, rows: seq<Note>)
    ensures |Filter(q, rows)| == Sum(Ind(q), rows)
  {
    if rows != [] {
      var n := |rows| - 1;
      assert rows == rows[..n] + [rows[n]];
      CountIsSum(q, rows[..n]);
      FilterPush(q, rows[..n], rows[n]);
    }
  }

  lemma {:induction false} FlatSum(q: Note -> bool, groups: seq<Bucket<UserId, Note>>)
    ensures Sum(Ind(q), Flatten(Items(groups))) == Sum(ItemSum(q), groups)
  {
    if groups != [] {
      var n := |groups| - 1;
      FlatSum(q, groups[..n]);
      assert Items(groups)[..n] == Items(groups[..n]);
      SumConcat(Ind(q), Flatten(Items(groups[..n])), groups[n].items);
    }
  }

  /** Without a cap a channel holds as many rows of any sort as were routed to it. */
  lemma IncludedCount(q: Note -> bool, routed: seq<Note>)
    ensures |Filter(q, Included(None, routed))| == |Filter(q, routed)|
  {
    var groups := GroupBy(RecipientOf, routed);
    assert CapEach(None, groups) == Items(groups);
    CountIsSum(q, Included(None, routed));
    CountIsSum(q, routed);
    FlatSum(q, groups);
    SumGrouped(Ind(q), ItemSum(q), RecipientOf, routed);
  }

  lemma {:induction false} FilterAll(rows: seq<Note>)
    ensures Filter((n: Note) => true, rows) == rows
  {
    if rows != [] {
      var n := |rows| - 1;
      FilterAll(rows[..n]);
      assert rows == rows[..n] + [rows[n]];
    }
  }

  lemma {:induction false} FilterThrice<T(!new)>(p: T -> bool, q: T -> bool, r: T -> bool, all: T -> bool, xs: seq<T>)
    requires forall x :: x in xs ==> (all(x) <==> p(x) && q(x) && r(x))
    ensures Filter(r, Filter(q, Filter(p, xs))) == Filter(all, xs)
  {
    if xs != [] {
      hide Filter;
      var init, x := xs[..|xs| - 1], xs[|xs| - 1];
      assert xs == init + [x];
      FilterThrice(p, q, r, all, init);
      FilterPush(all, init, x);
      FilterPush(p, init, x);
      var once := Filter(p, init);
      if p(x) {
        FilterPush(q, once, x);
        var twice := Filter(q, once);
        if q(x) { FilterPush(r, twice, x); } else { assert twice + [] == twice; }
      } else {
        assert once + [] == once;
      }
    }
  }

  // ------------------------------------------------------------------ the report

  function RowsOf(c: Call, g: Settings, w: World, s: Store): seq<Note> {
    Filter((n: Note) => n.id in s.stamps && Asked(c, g, w, n) && Locks(c, g, w, s, n), s.notes)
  }

  lemma PendingRows(c: Call, g: Settings, w: World, s: Store)
    ensures Pending(c, g, w, s) == RowsOf(c, g, w, s)
  {
    forall n { ClaimedRow(c, g, w, s, n); }
    FilterAgree(PendingIn(c, g, w, s),
                (n: Note) => n.id in s.stamps && Asked(c, g, w, n) && Locks(c, g, w, s, n), s.notes);
  }

  predicate WrongDay(c: Call, g: Settings, w: World, s: Store, n: Note) {
    WaitsForSlot(c, g, s, n) && !OnScheduledDay(w, g, s, n)
  }

  predicate TooEarly(c: Call, g: Settings, w: World, s: Store, n: Note) {
    WaitsForSlot(c, g, s, n) && OnScheduledDay(w, g, s, n) && !PastOpening(w, g, s, n)
  }

  predicate SlotIsSpent(c: Call, g: Settings, w: World, s: Store, n: Note) {
    && WaitsForSlot(c, g, s, n) && OnScheduledDay(w, g, s, n) && PastOpening(w, g, s, n)
    && var u := s.users[n.recipient];
       u.lastDigest.Some? && (u.lastDigest.value + u.offset) / 86_400_000_000
                             == LocalTime(s, n, w.now) / 86_400_000_000
  }

  /** The tally of what waits: one count per reason, over the rows the run found. */
  lemma TallyIs(c: Call, g: Settings, w: World, s: Store, rows: seq<Note>)
    requires g.schedule.Valid() && (g.interestPush.Some? ==> g.interestPush.value.Valid())
    ensures TallyOf(c, g, w, s, rows)
         == Tally(|Filter((n: Note) => WrongDay(c, g, w, s, n), rows)|,
                  |Filter((n: Note) => TooEarly(c, g, w, s, n), rows)|,
                  |Filter((n: Note) => SlotIsSpent(c, g, w, s, n), rows)|,
                  |Filter((n: Note) => PushWaits(c, g, w, s, n), rows)|)
  {
    forall n { OffScheduleIff(c, g, w, s, n); }
    forall n { PutOffIff(c, g, w, s, n); }
    hide OffSchedule, PutOff, WaitsForSlot, OnScheduledDay, PastOpening, PushWaits;
    FilterAgree(OffIn(c, g, w, s, WrongWeekday), (n: Note) => WrongDay(c, g, w, s, n), rows);
    FilterAgree(OffIn(c, g, w, s, BeforeScheduledTime), (n: Note) => TooEarly(c, g, w, s, n), rows);
    FilterAgree(OffIn(c, g, w, s, AlreadySentToday), (n: Note) => SlotIsSpent(c, g, w, s, n), rows);
    FilterAgree(PutOffIn(c, g, w, s), (n: Note) => PushWaits(c, g, w, s, n), rows);
  }

  /** How many rows a channel holds, of any sort: as many as were to go out on it. */
  lemma DigestCount(c: Call, g: Settings, w: World, s: Store, q: Note -> bool, all: Note -> bool)
    requires s.Valid() && c.cap.None? && g.schedule.Valid()
    requires forall n :: n in s.notes ==> (all(n) <==> GoesByDigest(c, g, w, s, n) && q(n))
    ensures |Filter(q, PlanRun(c, g, w, s).email)| == |Filter(all, s.notes)|
  {
    IncludedCount(q, Filter(DigestIn(c, g, w, s), Pending(c, g, w, s)));
    forall n | n in s.notes { DigestedRows(c, g, w, s, n); }
    hide IsPending, RoutesDigest, GoesByDigest, Included;
    FilterThrice(PendingIn(c, g, w, s), DigestIn(c, g, w, s), q, all, s.notes);
  }

  lemma InstantCount(c: Call, g: Settings, w: World, s: Store, q: Note -> bool, all: Note -> bool)
    requires s.Valid() && c.cap.None?
    requires forall n :: n in s.notes ==> (all(n) <==> GoesInstantly(c, g, w, s, n) && q(n))
    ensures |Filter(q, PlanRun(c, g, w, s).instant)| == |Filter(all, s.notes)|
  {
    IncludedCount(q, Filter(InstantIn(c, g, s), Pending(c, g, w, s)));
    forall n | n in s.notes { InstantRows(c, g, w, s, n); }
    hide IsPending, RoutesInstant, GoesInstantly, Included;
    FilterThrice(PendingIn(c, g, w, s), InstantIn(c, g, s), q, all, s.notes);
  }

  lemma PushesCount(c: Call, g: Settings, w: World, s: Store, q: Note -> bool, all: Note -> bool)
    requires s.Valid() && c.cap.None? && (g.interestPush.Some? ==> g.interestPush.value.Valid())
    requires forall n :: n in s.notes ==> (all(n) <==> GoesByPush(c, g, w, s, n) && q(n))
    ensures |Filter(q, PlanRun(c, g, w, s).push)| == |Filter(all, s.notes)|
  {
    IncludedCount(q, Filter(PushIn(c, g, w, s), Pending(c, g, w, s)));
    forall n | n in s.notes { PushRows(c, g, w, s, n); }
    hide IsPending, RoutesPush, GoesByPush, Included;
    FilterThrice(PendingIn(c, g, w, s), PushIn(c, g, w, s), q, all, s.notes);
  }

  const FAST_KINDS: set<Kind> := {
    SubscriptionGoing, SubscriptionSuggested, SubscriptionReview, SubscriptionMemories, SubscriptionMilestone,
    NewFollower, NewFriend, FollowRequest, FollowRequestApproved, EventMessage, EventMessageReply, PlanSessionAdded}

  /** What a run reports without a cap: nothing when it is switched off or finds no row; else how many rows it
      stamped, how many of them are pushes a deliver job should have sent, whom it reached for, and nobody
      as capped. */
  lemma ReportIs(c: Call, g: Settings, w: World, s: Store)
    requires s.Valid() && c.cap.None?
    requires g.schedule.Valid() && (g.interestPush.Some? ==> g.interestPush.value.Valid())
    ensures var report, p := StatsOf(c, g, w, s), PlanRun(c, g, w, s);
      && (report == Skipped <==> !g.enabled)
      && (report == Nothing <==> g.enabled && RowsOf(c, g, w, s) == [])
      && (report.Ran? ==>
            var digested := (n: Note) => GoesByDigest(c, g, w, s, n) && n.id !in p.digests.deferred;
            var pushed := (n: Note) => GoesByPush(c, g, w, s, n) && n.id !in p.pushes.retry;
            var fast := (n: Note) => GoesByPush(c, g, w, s, n) && n.id !in p.pushes.retry && n.kind in FAST_KINDS;
            && report.stamped == |Filter(digested, s.notes)|
                                 + |Filter((n: Note) => GoesInstantly(c, g, w, s, n), s.notes)|
                                 + |Filter(pushed, s.notes)|
            && report.fastPushed == |Filter(fast, s.notes)|
            && report.tally == TallyOf(c, g, w, s, RowsOf(c, g, w, s))
            && report.capped == {}
            && report.digests == |p.digests.sent| && report.instantEmails == p.mail.sent
            && report.pushed == p.pushes.pushed && report.pushRetry == |p.pushes.retry|)
  {
    hide PlanRun, GoesByDigest, GoesInstantly, GoesByPush, TallyOf, CappedRecipients, Filter;
    PendingRows(c, g, w, s);
    if Pending(c, g, w, s) != [] { EnabledIfPending(c, g, w, s); }
    NobodyCapped(c, g, w, s);
    StampCounters(c, g, w, s);
    PushCounter(c, g, w, s);
    FastCounter(c, g, w, s);
  }

  lemma StampCounters(c: Call, g: Settings, w: World, s: Store)
    requires s.Valid() && c.cap.None? && g.schedule.Valid()
    ensures var p := PlanRun(c, g, w, s);
      var digested := (n: Note) => GoesByDigest(c, g, w, s, n) && n.id !in p.digests.deferred;
      && |Filter(Outside(p.digests.deferred), p.email)| == |Filter(digested, s.notes)|
      && |p.instant| == |Filter((n: Note) => GoesInstantly(c, g, w, s, n), s.notes)|
  {
    hide PlanRun, GoesByDigest, GoesInstantly;
    var p := PlanRun(c, g, w, s);
    DigestCount(c, g, w, s, Outside(p.digests.deferred),
                (n: Note) => GoesByDigest(c, g, w, s, n) && n.id !in p.digests.deferred);
    InstantCount(c, g, w, s, (n: Note) => true, (n: Note) => GoesInstantly(c, g, w, s, n));
    FilterAll(p.instant);
  }

  lemma PushCounter(c: Call, g: Settings, w: World, s: Store)
    requires s.Valid() && c.cap.None? && (g.interestPush.Some? ==> g.interestPush.value.Valid())
    ensures var p := PlanRun(c, g, w, s);
      var pushed := (n: Note) => GoesByPush(c, g, w, s, n) && n.id !in p.pushes.retry;
      |Filter(Outside(p.pushes.retry), p.push)| == |Filter(pushed, s.notes)|
  {
    hide PlanRun, GoesByPush;
    var p := PlanRun(c, g, w, s);
    PushesCount(c, g, w, s, Outside(p.pushes.retry),
                (n: Note) => GoesByPush(c, g, w, s, n) && n.id !in p.pushes.retry);
  }

  lemma FastCounter(c: Call, g: Settings, w: World, s: Store)
    requires s.Valid() && c.cap.None? && (g.interestPush.Some? ==> g.interestPush.value.Valid())
    ensures var p := PlanRun(c, g, w, s);
      var fast := (n: Note) => GoesByPush(c, g, w, s, n) && n.id !in p.pushes.retry && n.kind in FAST_KINDS;
      |Filter(FastIn(p.pushes.retry), p.push)| == |Filter(fast, s.notes)|
  {
    forall n: Note ensures IsFastPush(n.kind) <==> n.kind in FAST_KINDS { }
    hide PlanRun, GoesByPush, IsFastPush, FAST_KINDS;
    var p := PlanRun(c, g, w, s);
    PushesCount(c, g, w, s, FastIn(p.pushes.retry),
                (n: Note) => GoesByPush(c, g, w, s, n) && n.id !in p.pushes.retry && n.kind in FAST_KINDS);
  }

  /** The recipients a run reports: those of a row it took up for a digest or a push. */
  lemma RecipientsAre(c: Call, g: Settings, w: World, s: Store, u: UserId)
    requires s.Valid() && c.cap.None? && StatsOf(c, g, w, s).Ran?
    requires g.schedule.Valid() && (g.interestPush.Some? ==> g.interestPush.value.Valid())
    ensures u in StatsOf(c, g, w, s).recipients <==>
      exists n :: n in s.notes && n.recipient == u && !n.kind.OtherKind?
                  && (GoesByDigest(c, g, w, s, n) || GoesByPush(c, g, w, s, n))
  {
    hide *;
    SeenRecipients(c, g, w, s);
    forall n { PlannedIff(c, g, w, s, n); }
  }

  lemma SeenRecipients(c: Call, g: Settings, w: World, s: Store)
    requires StatsOf(c, g, w, s).Ran?
    ensures var p := PlanRun(c, g, w, s);
      StatsOf(c, g, w, s).recipients ==
        (set n | n in p.email && !n.kind.OtherKind? :: n.recipient)
        + set n | n in p.push && !n.kind.OtherKind? :: n.recipient
  {
    hide PlanRun, TallyOf, CappedRecipients, Filter;
    var p := PlanRun(c, g, w, s);
    assert forall n: Note :: FeatureOf(n.kind) != Unlisted <==> !n.kind.OtherKind?;
    assert Seen(p.email) == set n | n in p.email && !n.kind.OtherKind? :: n.recipient;
    assert Seen(p.push) == set n | n in p.push && !n.kind.OtherKind? :: n.recipient;
  }

  /** Recipients count as capped when some channel held more of their groups than the cap allows. */
  lemma CappedIff(c: Call, g: Settings, w: World, s: Store, u: UserId)
    ensures u in CappedRecipients(c, g, w, s) <==>
      && c.cap.Some?
      && exists routed :: routed in [DigestIn(c, g, w, s), InstantIn(c, g, s), PushIn(c, g, w, s)]
           && var own := WithKey(RecipientOf, u, Filter(routed, Pending(c, g, w, s)));
              own != [] && |LogicalGroups(own)| > c.cap.value
  {
    hide LogicalGroups, Pending;
    var pending := Pending(c, g, w, s);
    CapHitIff(c.cap, Filter(DigestIn(c, g, w, s), pending), u);
    CapHitIff(c.cap, Filter(InstantIn(c, g, s), pending), u);
    CapHitIff(c.cap, Filter(PushIn(c, g, w, s), pending), u);
    var all := [DigestIn(c, g, w, s), InstantIn(c, g, s), PushIn(c, g, w, s)];
    assert all[0] in all && all[1] in all && all[2] in all;
  }

  lemma CapHitIff(cap: Option<int>, routed: seq<Note>, u: UserId)
    ensures u in Union(CapHit(cap), GroupBy(RecipientOf, routed)) <==>
      var own := WithKey(RecipientOf, u, routed); own != [] && cap.Some? && |LogicalGroups(own)| > cap.value
  {
    hide LogicalGroups;
    var groups, own := GroupBy(RecipientOf, routed), WithKey(RecipientOf, u, routed);
    GroupByDescribes(RecipientOf, routed);
    if u in Union(CapHit(cap), groups) {
      var b := UnionFrom(CapHit(cap), groups, u);
      var i :| 0 <= i < |groups| && groups[i] == b;
      BucketNonempty(RecipientOf, routed, i);
    }
    if own != [] && cap.Some? && |LogicalGroups(own)| > cap.value {
      var n := own[0];
      assert n in own;
      GroupByMembers(RecipientOf, routed, n);
      FlattenContains(Items(groups), n);
      var i :| 0 <= i < |groups| && n in Items(groups)[i];
      BucketNonempty(RecipientOf, routed, i);
      assert groups[i] == Bucket(u, own);
      UnionHas(CapHit(cap), groups, groups[i], u);
    }
  }

  lemma NobodyCapped(c: Call, g: Settings, w: World, s: Store)
    requires c.cap.None?
    ensures CappedRecipients(c, g, w, s) == {}
  {
  }
}
