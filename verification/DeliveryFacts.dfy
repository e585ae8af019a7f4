/** What a run delivers and stamps, said of the columns of the rows, of their recipients and of the
    settings alone. */
module DeliveryFacts {
  import opened Options
  import opened OrderedGroups
  import opened Notifications
  import opened Schedule
  import opened Delivery
  import opened DeliveryRows
  import opened DigestRows
  import opened DeliveryRuns
  import opened DigestCoverage
  import opened EventMessages

  // ------------------------------------------------------------------ rows a run may touch

  /** A row a call asks for: recent, not held by anybody, and let through by both filters. */
  predicate Asked(c: Call, g: Settings, w: World, n: Note) {
    && g.enabled && n.createdAt >= w.now - 14 * 86_400_000_000
    && (if c.kinds == {} then !n.kind.OtherKind? else n.kind in c.kinds)
    && (c.userIds.None? || n.recipient in c.userIds.value)
    && n.id !in w.locked && n.id !in w.unsafe && (n.event.None? || n.event.value in w.visible)
  }

  /** The features that go out one by one; the others only ever wait for a digest. */
  const ONE_BY_ONE: set<Feature> := {
    FriendsGoing, SuggestedEvents, FriendReviews, FriendMilestones, SocialActivity,
    InterestMatches, EventMessages, PlanActivity, PromoCodeMatches}

  /** The user is there and takes the feature by email, or by push. */
  predicate TakesEmail(s: Store, n: Note) {
    && n.recipient in s.users && !s.users[n.recipient].deleted
    && FeatureOf(n.kind) in s.users[n.recipient].emailOn
  }

  predicate TakesPush(s: Store, n: Note) {
    && n.recipient in s.users && !s.users[n.recipient].deleted
    && FeatureOf(n.kind) in s.users[n.recipient].pushOn
  }

  /** The local day is a scheduled one, its time of day has come, and nothing was sent on it yet. */
  predicate SlotIsOpen(offset: int, last: Option<int>, now: int, s: Schedule) {
    var local := now + offset;
    && (local / 86_400_000_000 + 3) % 7 in s.weekdays
    && local % 86_400_000_000 >= s.hour * 3_600_000_000 + s.minute * 60_000_000
    && (last.Some? ==> (last.value + offset) / 86_400_000_000 != local / 86_400_000_000)
  }

  lemma SlotIsOpenIff(offset: int, last: Option<int>, now: int, s: Schedule)
    requires s.Valid()
    ensures SlotStatus(offset, last, now, s) == InSlot <==> SlotIsOpen(offset, last, now, s)
    ensures InterestPushDue(offset, last, now, s) <==>
      && SlotIsOpen(offset, last, now, s)
      && (now + offset) % 86_400_000_000 < s.hour * 3_600_000_000 + s.minute * 60_000_000 + 3 * 3_600_000_000
  {
    InSlotIff(offset, last, now, s);
    assert now + offset == LocalDay(now, offset) * DAY + TimeOfDay(now, offset);
  }

  // ------------------------------------------------------------------ instant email

  /** The row goes out by instant email, as far as the row, its recipient and the settings say. */
  predicate GoesInstantly(c: Call, g: Settings, w: World, s: Store, n: Note) {
    && Asked(c, g, w, n) && FeatureOf(n.kind) in g.instant * ONE_BY_ONE
    && n.recipient in s.users && !s.users[n.recipient].deleted
    && n.id in s.stamps && (c.resend || s.stamps[n.id].instant.None?)
  }

  lemma InstantRows(c: Call, g: Settings, w: World, s: Store, n: Note)
    requires s.Valid() && n in s.notes
    ensures IsPending(c, g, w, s, n) && RoutesInstant(c, g, s, n) <==> GoesInstantly(c, g, w, s, n)
  {
    if GoesInstantly(c, g, w, s, n) { assert FeatureOf(n.kind) in FeaturesInstant(g); }
  }

  /** An instant email reports a row as delivered only if the row was to go out so, its recipient takes the
      feature by email, it is not out of date and the send succeeds; without a cap exactly then. */
  lemma InstantReceiptIff(c: Call, g: Settings, w: World, s: Store, n: Note)
    requires s.Valid() && n in s.notes
    ensures var delivered := Receipt(n.id, InstantMail) in RunTxn(c, g, w, s).sends;
      var due := && GoesInstantly(c, g, w, s, n) && TakesEmail(s, n) && n.id !in w.past
                 && Target(n.recipient, FeatureOf(n.kind)) !in w.instantMailFails;
      (delivered ==> due) && (c.cap.None? && due ==> delivered)
  {
    hide PlanRun;
    InstantRows(c, g, w, s, n);
    PlanRows(c, g, w, s, n);
    OwnRow(c, g, w, s, n);
    if n in PlanRun(c, g, w, s).instant { InstantConsumedIff(c, g, w, s, n); }
  }

  /** Receipts and stamps of a row's id are the row's own. */
  lemma OwnRow(c: Call, g: Settings, w: World, s: Store, n: Note)
    requires s.Valid() && n in s.notes
    ensures var p := PlanRun(c, g, w, s);
      && (n.id in IdsOf(p.email) <==> n in p.email) && (n.id in IdsOf(p.instant) <==> n in p.instant)
      && (n.id in IdsOf(p.push) <==> n in p.push)
      && p.digests.delivered <= IdsOf(p.email) && p.digests.deferred <= IdsOf(p.email)
      && p.mail.delivered <= IdsOf(p.instant) && p.pushes.delivered <= IdsOf(p.push)
  {
    var p := PlanRun(c, g, w, s);
    PlanFate(c, g, w, s);
    NotesDistinct(s);
    forall m | m in p.email || m in p.instant || m in p.push ensures m.id == n.id ==> m == n {
      PlanRows(c, g, w, s, m);
    }
  }

  // ------------------------------------------------------------------ push

  predicate GoesByPush(c: Call, g: Settings, w: World, s: Store, n: Note) {
    && Asked(c, g, w, n) && n.id in s.stamps && (c.resend || s.stamps[n.id].pushed.None?)
    && n.recipient in s.users && !s.users[n.recipient].deleted
    && (FeatureOf(n.kind) == Unlisted || FeatureOf(n.kind) in g.push * ONE_BY_ONE)
    && (FeatureOf(n.kind) in {InterestMatches, PromoCodeMatches} && g.interestPush.Some? && !c.force && !c.resend ==>
          var u, at := s.users[n.recipient], g.interestPush.value;
          && SlotIsOpen(u.offset, u.lastInterestPush, w.now, at)
          && (w.now + u.offset) % 86_400_000_000 < (at.hour + 3) * 3_600_000_000 + at.minute * 60_000_000)
  }

  lemma PushRows(c: Call, g: Settings, w: World, s: Store, n: Note)
    requires s.Valid() && n in s.notes && (g.interestPush.Some? ==> g.interestPush.value.Valid())
    ensures IsPending(c, g, w, s, n) && RoutesPush(c, g, w, s, n) <==> GoesByPush(c, g, w, s, n)
  {
    hide SlotIsOpen, InterestPushDue;
    if n.recipient in s.users && g.interestPush.Some? {
      var u := s.users[n.recipient];
      SlotIsOpenIff(u.offset, u.lastInterestPush, w.now, g.interestPush.value);
    }
  }

  /** The push service took the message for at least one device. */
  predicate Lands(w: World, t: Target) { t in w.pushes && w.pushes[t].Sent? && w.pushes[t].count > 0 }

  /** A push is reported only for a row that was to be pushed, whose recipient takes the feature by push,
      that is not out of date and lands somewhere; without a cap exactly then. */
  lemma PushReceiptIff(c: Call, g: Settings, w: World, s: Store, n: Note)
    requires s.Valid() && n in s.notes && (g.interestPush.Some? ==> g.interestPush.value.Valid())
    ensures var delivered := Receipt(n.id, PushMessage) in RunTxn(c, g, w, s).sends;
      var f := FeatureOf(n.kind);
      var due := && GoesByPush(c, g, w, s, n) && TakesPush(s, n) && f != Unlisted && n.id !in w.past
                 && Lands(w, Target(n.recipient, f));
      (delivered ==> due) && (c.cap.None? && due ==> delivered)
  {
    hide PlanRun;
    PushRows(c, g, w, s, n);
    PlanRows(c, g, w, s, n);
    OwnRow(c, g, w, s, n);
    if n in PlanRun(c, g, w, s).push { PushConsumedIff(c, g, w, s, n); }
  }

  // ------------------------------------------------------------------ digests

  predicate GoesByDigest(c: Call, g: Settings, w: World, s: Store, n: Note) {
    && Asked(c, g, w, n) && !c.immediateOnly && n.id in s.stamps && (c.resend || s.stamps[n.id].emailed.None?)
    && n.recipient in s.users && !s.users[n.recipient].deleted
    && FeatureOf(n.kind) != Unlisted && FeatureOf(n.kind) in g.digest
    && (FeatureOf(n.kind) in g.instant ==> FeatureOf(n.kind) == MilestoneUnlocked)
    && var u := s.users[n.recipient]; c.force || SlotIsOpen(u.offset, u.lastDigest, w.now, g.schedule)
  }

  lemma DigestedRows(c: Call, g: Settings, w: World, s: Store, n: Note)
    requires s.Valid() && n in s.notes && g.schedule.Valid()
    ensures IsPending(c, g, w, s, n) && RoutesDigest(c, g, w, s, n) <==> GoesByDigest(c, g, w, s, n)
  {
    hide SlotIsOpen, SlotStatus;
    if n.recipient in s.users {
      var u := s.users[n.recipient];
      SlotIsOpenIff(u.offset, u.lastDigest, w.now, g.schedule);
    }
  }

  /** Another row of the same digest tells the recipient that the new follower is a friend. */
  ghost predicate FriendIsTold(c: Call, g: Settings, w: World, s: Store, n: Note) {
    n.kind == NewFollower &&
    exists m :: m in s.notes && m.kind == NewFriend && m.recipient == n.recipient && m.actor == n.actor
                && m.id !in w.past && GoesByDigest(c, g, w, s, m)
  }

  /** A combined digest tells a recipient of a row, now or in the next one, only if the row was to go out so,
      the recipient takes its feature by email and digests at all, it is not out of date and the send
      succeeds; without a cap exactly then, apart from followers who are told of as friends. */
  lemma CombinedDigestIff(c: Call, g: Settings, w: World, s: Store, n: Note)
    requires s.Valid() && n in s.notes && g.schedule.Valid() && g.combined
    ensures var o := PlanRun(c, g, w, s).digests;
      var told := n.id in o.delivered || n.id in o.deferred;
      var due := && GoesByDigest(c, g, w, s, n) && TakesEmail(s, n) && s.users[n.recipient].digestEmails
                 && n.id !in w.past && n.recipient !in w.digestFails;
      && (Receipt(n.id, DigestMail) in RunTxn(c, g, w, s).sends ==> told)
      && (told ==> due)
      && (c.cap.None? ==> (told <==> due && !FriendIsTold(c, g, w, s, n)))
  {
    hide PlanRun, GoesByDigest, Superseded, Digests;
    var email := PlanRun(c, g, w, s).email;
    DigestedRows(c, g, w, s, n);
    PlanRows(c, g, w, s, n);
    OwnRow(c, g, w, s, n);
    PlanDistinct(c, g, w, s);
    DigestsArePlanned(c, g, w, s);
    ActiveIfDigested(c, g, w, s, n);
    if n in email {
      NoRowDisappears(g, w, s, email, n);
      if c.cap.None? && TakesEmail(s, n) { SupersededIff(c, g, w, s, n); }
    }
  }

  lemma ActiveIfDigested(c: Call, g: Settings, w: World, s: Store, n: Note)
    ensures GoesByDigest(c, g, w, s, n) ==>
      n.recipient in s.users && !s.users[n.recipient].deleted && FeatureOf(n.kind) != Unlisted
  {
  }

  lemma SupersededIff(c: Call, g: Settings, w: World, s: Store, n: Note)
    requires s.Valid() && n in s.notes && g.schedule.Valid() && c.cap.None?
    requires GoesByDigest(c, g, w, s, n) && TakesEmail(s, n)
    ensures Superseded(w, s, PlanRun(c, g, w, s).email, n) <==> FriendIsTold(c, g, w, s, n)
  {
    hide PlanRun;
    forall m | m in s.notes ensures m in PlanRun(c, g, w, s).email <==> GoesByDigest(c, g, w, s, m) {
      PlanRows(c, g, w, s, m);
      DigestedRows(c, g, w, s, m);
    }
    forall m | m in PlanRun(c, g, w, s).email ensures m in s.notes { PlanRows(c, g, w, s, m); }
    hide GoesByDigest;
  }

  /** Separate digests are one email per feature, and nobody's master switch or friends matter. */
  lemma SeparateDigestIff(c: Call, g: Settings, w: World, s: Store, n: Note)
    requires s.Valid() && n in s.notes && g.schedule.Valid() && !g.combined
    ensures var delivered := Receipt(n.id, DigestMail) in RunTxn(c, g, w, s).sends;
      var due := && GoesByDigest(c, g, w, s, n) && TakesEmail(s, n) && n.id !in w.past
                 && Target(n.recipient, FeatureOf(n.kind)) !in w.digestMailFails;
      (delivered ==> due) && (c.cap.None? && due ==> delivered)
  {
    hide PlanRun, GoesByDigest;
    DigestedRows(c, g, w, s, n);
    PlanRows(c, g, w, s, n);
    OwnRow(c, g, w, s, n);
    ActiveIfDigested(c, g, w, s, n);
    if n in PlanRun(c, g, w, s).email { SeparateConsumedIff(c, g, w, s, n); }
  }

  /** Without a cap the rows of a channel are those that were to go out on it. */
  lemma PlannedIff(c: Call, g: Settings, w: World, s: Store, n: Note)
    requires s.Valid() && c.cap.None?
    requires g.schedule.Valid() && (g.interestPush.Some? ==> g.interestPush.value.Valid())
    ensures var p := PlanRun(c, g, w, s);
      && (n in p.email <==> n in s.notes && GoesByDigest(c, g, w, s, n))
      && (n in p.instant <==> n in s.notes && GoesInstantly(c, g, w, s, n))
      && (n in p.push <==> n in s.notes && GoesByPush(c, g, w, s, n))
  {
    hide PlanRun, GoesByDigest, GoesInstantly, GoesByPush;
    PlanRows(c, g, w, s, n);
    if n in s.notes {
      DigestedRows(c, g, w, s, n);
      InstantRows(c, g, w, s, n);
      PushRows(c, g, w, s, n);
    }
  }

  // ------------------------------------------------------------------ switches

  /** Nobody is mailed or pushed against a switch: every receipt of a run is of a row of the table whose
      recipient takes the row's feature on that channel. */
  lemma ReceiptsAreWanted(c: Call, g: Settings, w: World, s: Store, d: Receipt) returns (n: Note)
    requires s.Valid() && d in RunTxn(c, g, w, s).sends
    ensures n in s.notes && n.id == d.id && n.recipient in s.users
    ensures FeatureOf(n.kind)
         in (if d.channel == PushMessage then s.users[n.recipient].pushOn else s.users[n.recipient].emailOn)
  {
    hide PlanRun;
    var p := PlanRun(c, g, w, s);
    PlanFate(c, g, w, s);
    PlanDistinct(c, g, w, s);
    match d.channel
    case DigestMail =>
      n :| n in p.email && n.id == d.id;
      PlanRows(c, g, w, s, n);
      if g.combined {
        DigestsArePlanned(c, g, w, s);
        NoRowDisappears(g, w, s, p.email, n);
      } else {
        SeparateConsumedIff(c, g, w, s, n);
      }
    case InstantMail =>
      n :| n in p.instant && n.id == d.id;
      PlanRows(c, g, w, s, n);
      InstantConsumedIff(c, g, w, s, n);
    case PushMessage =>
      n :| n in p.push && n.id == d.id;
      PlanRows(c, g, w, s, n);
      PushConsumedIff(c, g, w, s, n);
  }

  // ------------------------------------------------------------------ stamps and clocks

  /** The push service failed in passing for the message that carries the row. */
  predicate PushFailsInPassing(w: World, s: Store, n: Note) {
    && TakesPush(s, n) && n.id !in w.past
    && Target(n.recipient, FeatureOf(n.kind)) in w.pushes
    && w.pushes[Target(n.recipient, FeatureOf(n.kind))].Transient?
  }

  /** Without a cap: which of a row's stamps a run sets, and that it leaves the others alone. */
  lemma StampsIff(c: Call, g: Settings, w: World, s: Store, n: Note)
    requires s.Valid() && n in s.notes && c.cap.None?
    requires g.schedule.Valid() && (g.interestPush.Some? ==> g.interestPush.value.Valid())
    ensures var st, st' := s.stamps[n.id], Run(c, g, w, s).stamps[n.id];
      && st'.emailed == (if GoesByDigest(c, g, w, s, n) && n.id !in PlanRun(c, g, w, s).digests.deferred
                         then Some(w.now) else st.emailed)
      && st'.instant == (if GoesInstantly(c, g, w, s, n) then Some(w.now) else st.instant)
      && (FeatureOf(n.kind) != Unlisted ==>
            st'.pushed == if GoesByPush(c, g, w, s, n) && !PushFailsInPassing(w, s, n) then Some(w.now) else st.pushed)
  {
    hide PlanRun, GoesByDigest;
    StampsAfter(c, g, w, s, n);
    PlanRows(c, g, w, s, n);
    DigestedRows(c, g, w, s, n);
    InstantRows(c, g, w, s, n);
    PushRows(c, g, w, s, n);
    hide GoesInstantly, GoesByPush;
    if n in PlanRun(c, g, w, s).push {
      PushConsumedIff(c, g, w, s, n);
      ActiveIfPushed(c, g, w, s, n);
    } else {
      NotIncludedKeepsStamp(c, g, w, s, n);
    }
  }

  lemma ActiveIfPushed(c: Call, g: Settings, w: World, s: Store, n: Note)
    requires GoesByPush(c, g, w, s, n)
    ensures n.recipient in s.users && !s.users[n.recipient].deleted
  {
  }

  /** Which users' clocks a run moves, without a cap; it writes nothing else in a user. */
  lemma ClocksIff(c: Call, g: Settings, w: World, s: Store, u: UserId)
    requires s.Valid() && u in s.users && c.cap.None?
    requires g.schedule.Valid() && (g.interestPush.Some? ==> g.interestPush.value.Valid())
    ensures var before, after := s.users[u], Run(c, g, w, s).users[u];
      var digested := exists n :: n in s.notes && n.recipient == u && GoesByDigest(c, g, w, s, n);
      var pushed := exists n :: n in s.notes && n.recipient == u && GoesByPush(c, g, w, s, n)
                                && (n.kind == InterestEvent || n.kind == PromoCodeMatch)
                                && !PushFailsInPassing(w, s, n);
      after == before.(lastDigest := if digested then Some(w.now) else before.lastDigest,
                       lastInterestPush := if pushed then Some(w.now) else before.lastInterestPush)
  {
    hide PlanRun, GoesByDigest, GoesByPush, PushFailsInPassing;
    var p := PlanRun(c, g, w, s);
    forall n { PlannedIff(c, g, w, s, n); }
    forall n | n in p.email ensures FeatureOf(n.kind) != Unlisted { ActiveIfDigested(c, g, w, s, n); }
    forall n | n in p.push && (n.kind == InterestEvent || n.kind == PromoCodeMatch)
      ensures n.id in p.pushes.retry <==> PushFailsInPassing(w, s, n) {
      RetriedIff(c, g, w, s, n);
    }
  }

  lemma RetriedIff(c: Call, g: Settings, w: World, s: Store, n: Note)
    requires s.Valid() && n in PlanRun(c, g, w, s).push && FeatureOf(n.kind) != Unlisted
    ensures n.id in PlanRun(c, g, w, s).pushes.retry <==> PushFailsInPassing(w, s, n)
  {
    var p := PlanRun(c, g, w, s);
    PlanDistinct(c, g, w, s);
    PlanRows(c, g, w, s, n);
    PushAccounts(w, s, p.push, n);
  }

  predicate Locks(c: Call, g: Settings, w: World, s: Store, n: Note) {
    && g.enabled && n.createdAt >= w.now - 14 * 86_400_000_000 && n.id !in w.locked && n.id in s.stamps
    && (if c.kinds == {} then !n.kind.OtherKind? else n.kind in c.kinds)
    && (n.kind == PromoCodeAdded ==> PromoCodes in g.digest)
    && (c.userIds.None? || n.recipient in c.userIds.value)
    && var st := s.stamps[n.id];
       || c.resend || st.pushed.None? || (!c.immediateOnly && st.emailed.None?)
       || (g.instant * ONE_BY_ONE != {} && st.instant.None?)
  }

  lemma InstantFeatures(g: Settings)
    ensures FeaturesInstant(g) == g.instant * ONE_BY_ONE
  {
  }

  lemma ClaimedRow(c: Call, g: Settings, w: World, s: Store, n: Note)
    ensures Claimed(c, g, w, s, n) <==> Locks(c, g, w, s, n)
  {
    InstantFeatures(g);
    hide FeaturesInstant, ONE_BY_ONE;
  }

  /** The rows a run locks. */
  lemma ClaimedIff(c: Call, g: Settings, w: World, s: Store, id: Id)
    ensures id in RunTxn(c, g, w, s).claimed <==> exists n :: n in s.notes && n.id == id && Locks(c, g, w, s, n)
  {
    hide Claimed, Locks;
    forall n { ClaimedRow(c, g, w, s, n); }
  }

  // ------------------------------------------------------------------ the deliver job

  /** A row of a request-created kind that a job for these users takes up. */
  predicate JobTakes(users: set<UserId>, g: Settings, w: World, s: Store, n: Note) {
    && g.enabled && n.createdAt >= w.now - 14 * 86_400_000_000 && n.recipient in users
    && n.kind in {SubscriptionGoing, SubscriptionSuggested, SubscriptionReview, SubscriptionMemories,
                  SubscriptionMilestone, NewFollower, NewFriend, FollowRequest, FollowRequestApproved,
                  EventMessage, EventMessageReply, PlanSessionAdded}
    && n.id !in w.locked && n.id !in w.unsafe && (n.event.None? || n.event.value in w.visible)
    && n.recipient in s.users && !s.users[n.recipient].deleted && n.id in s.stamps && n.id !in w.past
  }

  /** A deliver job mails and pushes such rows only where they were not before, whatever their slots, and sends
      no digest. */
  lemma JobReceiptsIff(users: set<UserId>, g: Settings, w: World, s: Store, n: Note)
    requires s.Valid() && n in s.notes && (g.interestPush.Some? ==> g.interestPush.value.Valid())
    ensures var sends, f := RunTxn(ImmediateCall(users), g, w, s).sends, FeatureOf(n.kind);
      && Receipt(n.id, DigestMail) !in sends
      && (Receipt(n.id, InstantMail) in sends <==>
            && JobTakes(users, g, w, s, n) && s.stamps[n.id].instant.None? && f in g.instant
            && f in s.users[n.recipient].emailOn && Target(n.recipient, f) !in w.instantMailFails)
      && (Receipt(n.id, PushMessage) in sends <==>
            && JobTakes(users, g, w, s, n) && s.stamps[n.id].pushed.None? && f in g.push
            && f in s.users[n.recipient].pushOn && Lands(w, Target(n.recipient, f)))
  {
    var c := ImmediateCall(users);
    InstantReceiptIff(c, g, w, s, n);
    PushReceiptIff(c, g, w, s, n);
    NoDigestFromJob(c, g, w, s, n);
    JobInstantly(users, g, w, s, n);
    JobPushes(users, g, w, s, n);
    hide RunTxn, GoesInstantly, GoesByPush, TakesEmail, TakesPush, JobTakes, Lands;
  }

  lemma JobInstantly(users: set<UserId>, g: Settings, w: World, s: Store, n: Note)
    requires n.id in s.stamps
    ensures GoesInstantly(ImmediateCall(users), g, w, s, n) && TakesEmail(s, n) && n.id !in w.past <==>
      && JobTakes(users, g, w, s, n) && s.stamps[n.id].instant.None? && FeatureOf(n.kind) in g.instant
      && FeatureOf(n.kind) in s.users[n.recipient].emailOn
  {
  }

  lemma JobPushes(users: set<UserId>, g: Settings, w: World, s: Store, n: Note)
    requires n.id in s.stamps
    ensures GoesByPush(ImmediateCall(users), g, w, s, n) && TakesPush(s, n) && n.id !in w.past <==>
      && JobTakes(users, g, w, s, n) && s.stamps[n.id].pushed.None? && FeatureOf(n.kind) in g.push
      && FeatureOf(n.kind) in s.users[n.recipient].pushOn
    ensures JobTakes(users, g, w, s, n) ==> FeatureOf(n.kind) != Unlisted
  {
    hide SlotIsOpen;
  }

  lemma NoDigestFromJob(c: Call, g: Settings, w: World, s: Store, n: Note)
    requires s.Valid() && n in s.notes && c.immediateOnly
    ensures Receipt(n.id, DigestMail) !in RunTxn(c, g, w, s).sends
  {
    hide PlanRun;
    OwnRow(c, g, w, s, n);
    PlanRows(c, g, w, s, n);
  }

  // ------------------------------------------------------------------ the second writer

  /** An event message goes out by instant email: its recipient is there and takes messages by email, has an
      address, the event can be seen, and it was not emailed so before. */
  predicate MessageMailed(g: Settings, w: MessageWorld, s: Store, u: UserId, n: Note) {
    && EventMessages in g.instant && u in s.users && !s.users[u].deleted && EventMessages in s.users[u].emailOn
    && n.recipient == u && (n.kind == EventMessage || n.kind == EventMessageReply)
    && n.createdAt >= w.now - 14 * 86_400_000_000 && n.id !in w.locked
    && n.event.Some? && n.event.value in w.facing && w.hasEmail && n.id !in w.mailFails
    && n.id in s.stamps && s.stamps[n.id].instant.None?
  }

  /** It is due as a push: its recipient takes messages by push, and it was not pushed before. */
  predicate MessagePushDue(g: Settings, w: MessageWorld, s: Store, u: UserId, n: Note) {
    && EventMessages in g.instant * g.push && u in s.users && !s.users[u].deleted && EventMessages in s.users[u].pushOn
    && n.recipient == u && (n.kind == EventMessage || n.kind == EventMessageReply)
    && n.createdAt >= w.now - 14 * 86_400_000_000 && n.id !in w.locked
    && n.event.Some? && n.event.value in w.facing && w.webPush
    && n.id in s.stamps && s.stamps[n.id].pushed.None?
  }

  /** The push service took it for some device, or failed in passing. */
  predicate MessagePushed(g: Settings, w: MessageWorld, s: Store, u: UserId, n: Note) {
    && MessagePushDue(g, w, s, u, n)
    && n.id in w.pushes && w.pushes[n.id].Sent? && w.pushes[n.id].count > 0
  }

  predicate MessageToRetry(g: Settings, w: MessageWorld, s: Store, u: UserId, n: Note) {
    MessagePushDue(g, w, s, u, n) && n.id in w.pushes && w.pushes[n.id].Transient?
  }

  /** What the deliver job of event messages sends and stamps, row by row; it leaves digests alone. */
  lemma MessageReceiptsIff(g: Settings, w: MessageWorld, s: Store, u: UserId, n: Note)
    requires s.Valid() && n in s.notes
    ensures var t, st := MessageTxn(g, w, s, u), s.stamps[n.id];
      && (Receipt(n.id, InstantMail) in t.sends <==> MessageMailed(g, w, s, u, n))
      && (Receipt(n.id, PushMessage) in t.sends <==> MessagePushed(g, w, s, u, n))
      && Receipt(n.id, DigestMail) !in t.sends
      && (RetriesPush(g, w, s, u, n) <==> MessageToRetry(g, w, s, u, n))
      && Commit(t, s).stamps[n.id]
         == Stamps(st.emailed, if MessageMailed(g, w, s, u, n) then Some(w.now) else st.instant,
                   if MessagePushed(g, w, s, u, n) then Some(w.now) else st.pushed)
      && Commit(t, s).users == s.users
  {
    NotesDistinct(s);
    MessageRow(g, w, s, u, n);
    hide MailsMessage, PushesMessage, RetriesPush, MessageMailed, MessagePushed, MessageToRetry, MessageClaimed;
    assert Commit(MessageTxn(g, w, s, u), s).users == s.users;
  }

  lemma MessageRow(g: Settings, w: MessageWorld, s: Store, u: UserId, n: Note)
    ensures MailsMessage(g, w, s, u, n) <==> MessageMailed(g, w, s, u, n)
    ensures PushesMessage(g, w, s, u, n) <==> MessagePushed(g, w, s, u, n)
    ensures RetriesPush(g, w, s, u, n) <==> MessageToRetry(g, w, s, u, n)
  {
  }

  // ------------------------------------------------------------------ opting out

  lemma WithKeyCons<K(!new), T(!new)>(key: T -> K, k: K, x: T, rest: seq<T>)
    ensures WithKey(key, k, [x] + rest) == (if key(x) == k then [x] else []) + WithKey(key, k, rest)
    decreases |rest|
  {
    var all := [x] + rest;
    if rest == [] {
      assert all[..0] == [];
    } else {
      var n := |rest| - 1;
      assert all[..n + 1] == [x] + rest[..n] && all[n + 1] == rest[n];
      WithKeyCons(key, k, x, rest[..n]);
    }
  }

  lemma {:induction false} AddForUser(groups: seq<Bucket<Target, Note>>, k: Target, n: Note, v: UserId)
    ensures WithKey(UserOf, v, Add(groups, k, n))
         == if k.user == v then Add(WithKey(UserOf, v, groups), k, n) else WithKey(UserOf, v, groups)
  {
    hide WithKey;
    if groups == [] {
      WithKeyNil(v);
      assert Add(groups, k, n) == [Bucket(k, [n])] + [];
      WithKeyCons(UserOf, v, Bucket(k, [n]), []);
    } else {
      var head, rest := groups[0], groups[1..];
      assert groups == [head] + rest;
      WithKeyCons(UserOf, v, head, rest);
      if head.key == k {
        WithKeyCons(UserOf, v, Bucket(k, head.items + [n]), rest);
      } else {
        AddForUser(rest, k, n, v);
        WithKeyCons(UserOf, v, head, Add(rest, k, n));
        var own := WithKey(UserOf, v, rest);
        assert Add(groups, k, n) == [head] + Add(rest, k, n);
        if head.key.user == v { assert ([head] + own)[1..] == own; } else { assert [] + own == own; }
      }
    }
  }

  lemma WithKeyNil(v: UserId)
    ensures WithKey(UserOf, v, []) == []
  {
  }

  /** One user's groups are those of that user's rows. */
  lemma {:induction false} GroupsOfUser(rows: seq<Note>, v: UserId)
    ensures WithKey(UserOf, v, GroupBy(TargetOf, rows)) == GroupBy(TargetOf, Filter(ForUser(v), rows))
  {
    if rows != [] {
      var n := |rows| - 1;
      assert rows == rows[..n] + [rows[n]];
      GroupsOfUser(rows[..n], v);
      GroupByPush(TargetOf, rows[..n], rows[n]);
      FilterPush(ForUser(v), rows[..n], rows[n]);
      AddForUser(GroupBy(TargetOf, rows[..n]), TargetOf(rows[n]), rows[n], v);
      var own := Filter(ForUser(v), rows[..n]);
      if rows[n].recipient == v { GroupByPush(TargetOf, own, rows[n]); } else { assert own + [] == own; }
    }
  }

  lemma DigestIs(groups: seq<Bucket<Target, Note>>, v: UserId)
    requires WithKey(UserOf, v, groups) != []
    ensures Bucket(v, WithKey(UserOf, v, groups)) in GroupBy(UserOf, groups)
  {
    var ds, b := GroupBy(UserOf, groups), WithKey(UserOf, v, groups)[0];
    assert b in WithKey(UserOf, v, groups);
    GroupByDescribes(UserOf, groups);
    GroupByMembers(UserOf, groups, b);
    FlattenContains(Items(ds), b);
    var i :| 0 <= i < |ds| && b in Items(ds)[i];
    BucketNonempty(UserOf, groups, i);
    assert ds[i] == Bucket(v, WithKey(UserOf, v, groups));
  }

  lemma DigestOf(groups: seq<Bucket<Target, Note>>, d: Digest)
    requires d in GroupBy(UserOf, groups)
    ensures d == Bucket(d.key, WithKey(UserOf, d.key, groups)) && d.items != []
  {
    var ds := GroupBy(UserOf, groups);
    var i :| 0 <= i < |ds| && ds[i] == d;
    GroupByDescribes(UserOf, groups);
    BucketNonempty(UserOf, groups, i);
  }

  /** Where two states let the same rows of a user be emailed, that user's digest is the same. */
  lemma SameDigest(s: Store, t: Store, included: seq<Note>, d: Digest)
    requires forall n :: n in included && n.recipient == d.key ==> (EmailAllowed(s, n) <==> EmailAllowed(t, n))
    requires d in GroupBy(UserOf, EmailGroups(s, included))
    ensures d in GroupBy(UserOf, EmailGroups(t, included))
  {
    hide GroupBy, WithKey, EmailAllowed;
    var mine := ForUser(d.key);
    FilterTwice(EmailAllowedIn(s), mine, EmailAllowedIn(t), mine, included);
    GroupsOfUser(Filter(EmailAllowedIn(s), included), d.key);
    GroupsOfUser(Filter(EmailAllowedIn(t), included), d.key);
    DigestOf(EmailGroups(s, included), d);
    DigestIs(EmailGroups(t, included), d.key);
  }

  /** `s` with one user's email, or push, switches all off. */
  function NoEmails(s: Store, u: UserId): Store
    requires u in s.users
  {
    s.(users := s.users[u := s.users[u].(emailOn := {})])
  }

  function NoPushes(s: Store, u: UserId): Store
    requires u in s.users
  {
    s.(users := s.users[u := s.users[u].(pushOn := {})])
  }

  ghost predicate OnlySwitchesDiffer(s: Store, t: Store) {
    && s.notes == t.notes && s.stamps == t.stamps && s.users.Keys == t.users.Keys
    && forall u :: u in s.users ==>
         t.users[u] == s.users[u].(emailOn := t.users[u].emailOn, pushOn := t.users[u].pushOn)
  }

  lemma SamePlan(c: Call, g: Settings, w: World, s: Store, t: Store)
    requires OnlySwitchesDiffer(s, t)
    ensures var p, q := PlanRun(c, g, w, s), PlanRun(c, g, w, t);
      p.email == q.email && p.instant == q.instant && p.push == q.push
  {
    hide IsPending, RoutesDigest, RoutesInstant, RoutesPush;
    forall n { SameRoutes(c, g, w, s, t, n); }
    FilterTwice(PendingIn(c, g, w, s), DigestIn(c, g, w, s), PendingIn(c, g, w, t), DigestIn(c, g, w, t), s.notes);
    FilterTwice(PendingIn(c, g, w, s), InstantIn(c, g, s), PendingIn(c, g, w, t), InstantIn(c, g, t), s.notes);
    FilterTwice(PendingIn(c, g, w, s), PushIn(c, g, w, s), PendingIn(c, g, w, t), PushIn(c, g, w, t), s.notes);
  }

  lemma SameRoutes(c: Call, g: Settings, w: World, s: Store, t: Store, n: Note)
    requires OnlySwitchesDiffer(s, t)
    ensures IsPending(c, g, w, s, n) <==> IsPending(c, g, w, t, n)
    ensures RoutesDigest(c, g, w, s, n) <==> RoutesDigest(c, g, w, t, n)
    ensures RoutesInstant(c, g, s, n) <==> RoutesInstant(c, g, t, n)
    ensures RoutesPush(c, g, w, s, n) <==> RoutesPush(c, g, w, t, n)
  {
  }

  /** A user who takes no emails gets none; nobody else's emails change, nor any push. */
  lemma EmailOptOut(c: Call, g: Settings, w: World, s: Store, u: UserId, n: Note)
    requires s.Valid() && u in s.users && n in s.notes
    ensures forall channel ::
      Receipt(n.id, channel) in RunTxn(c, g, w, NoEmails(s, u)).sends <==>
      Receipt(n.id, channel) in RunTxn(c, g, w, s).sends && (n.recipient == u ==> channel == PushMessage)
  {
    hide PlanRun;
    var t := NoEmails(s, u);
    var p, q := PlanRun(c, g, w, s), PlanRun(c, g, w, t);
    SamePlan(c, g, w, s, t);
    OwnRow(c, g, w, s, n);
    OwnRow(c, g, w, t, n);
    PlanDistinct(c, g, w, s);
    if n in p.instant {
      InstantConsumedIff(c, g, w, s, n);
      InstantConsumedIff(c, g, w, t, n);
    }
    if n in p.push {
      PushConsumedIff(c, g, w, s, n);
      PushConsumedIff(c, g, w, t, n);
    }
    if n in p.email { OptOutDigest(c, g, w, s, u, n); }
  }

  lemma OptOutDigest(c: Call, g: Settings, w: World, s: Store, u: UserId, n: Note)
    requires s.Valid() && u in s.users && n in PlanRun(c, g, w, s).email
    ensures n.id in PlanRun(c, g, w, NoEmails(s, u)).digests.delivered <==>
            n.id in PlanRun(c, g, w, s).digests.delivered && n.recipient != u
  {
    hide PlanRun;
    var t := NoEmails(s, u);
    var email := PlanRun(c, g, w, s).email;
    SamePlan(c, g, w, s, t);
    PlanDistinct(c, g, w, s);
    if g.combined {
      DigestsArePlanned(c, g, w, s);
      DigestsArePlanned(c, g, w, t);
      NoRowDisappears(g, w, s, email, n);
      NoRowDisappears(g, w, t, email, n);
      if n.recipient != u {
        if n.id in Digests(g, w, s, email).delivered { DeliveredToo(g, w, s, t, email, n); }
        if n.id in Digests(g, w, t, email).delivered { DeliveredToo(g, w, t, s, email, n); }
      }
    } else {
      SeparateConsumedIff(c, g, w, s, n);
      SeparateConsumedIff(c, g, w, t, n);
    }
  }

  lemma DeliveredToo(g: Settings, w: World, s: Store, t: Store, included: seq<Note>, n: Note)
    requires g.combined && DistinctIds(included) && n in included && n.id in Digests(g, w, s, included).delivered
    requires n.recipient in s.users ==> n.recipient in t.users && s.users[n.recipient] == t.users[n.recipient]
    requires n.recipient in t.users ==> n.recipient in s.users
    ensures n.id in Digests(g, w, t, included).delivered
  {
    hide SectionsOf, Rendered, EmailGroups, DigestDelivers;
    var ds := GroupBy(UserOf, EmailGroups(s, included));
    var d := UnionFrom(DeliversIn(g, w, s), ds, n.id);
    DigestAccounts(g, w, d);
    NamedByOwnDigest(w, s, included, d, n);
    SameDigest(s, t, included, d);
    UnionHas(DeliversIn(g, w, t), GroupBy(UserOf, EmailGroups(t, included)), d, n.id);
  }

  /** A user who takes no pushes gets none; nobody else's pushes change, nor any email. */
  lemma PushOptOut(c: Call, g: Settings, w: World, s: Store, u: UserId, n: Note)
    requires s.Valid() && u in s.users && n in s.notes
    ensures forall channel ::
      Receipt(n.id, channel) in RunTxn(c, g, w, NoPushes(s, u)).sends <==>
      Receipt(n.id, channel) in RunTxn(c, g, w, s).sends && (n.recipient == u ==> channel != PushMessage)
  {
    hide PlanRun;
    var t := NoPushes(s, u);
    var p, q := PlanRun(c, g, w, s), PlanRun(c, g, w, t);
    SamePlan(c, g, w, s, t);
    OwnRow(c, g, w, s, n);
    OwnRow(c, g, w, t, n);
    if n in p.instant {
      InstantConsumedIff(c, g, w, s, n);
      InstantConsumedIff(c, g, w, t, n);
    }
    if n in p.push {
      PushConsumedIff(c, g, w, s, n);
      PushConsumedIff(c, g, w, t, n);
    }
    SameDigests(c, g, w, s, u);
    hide NoPushes;
  }

  lemma SameDigests(c: Call, g: Settings, w: World, s: Store, u: UserId)
    requires u in s.users
    ensures PlanRun(c, g, w, NoPushes(s, u)).digests == PlanRun(c, g, w, s).digests
  {
    hide PlanRun;
    var t := NoPushes(s, u);
    forall v | v in s.users ensures DigestView(s.users[v]) == DigestView(t.users[v]) { }
    DigestsIgnoreOtherChannels(c, g, w, s, t);
  }
}
