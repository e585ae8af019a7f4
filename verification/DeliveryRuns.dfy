/** What whole runs guarantee: the email vehicles exclude each other, channels do not interfere,
    included rows are stamped or deferred, forced digests drain the backlog, and a second run at
    the same instant does nothing. */
module DeliveryRuns {
  import opened Options
  import opened OrderedGroups
  import opened Notifications
  import opened Schedule
  import opened DigestBalance
  import opened Delivery
  import opened DeliveryRows
  import opened DigestRows

  // ------------------------------------------------------------------ which rows a plan holds

  lemma NotesDistinct(s: Store)
    requires s.Valid()
    ensures DistinctIds(s.notes)
  {
    forall a, b | a in s.notes && b in s.notes && a.id == b.id ensures a == b {
      var i :| 0 <= i < |s.notes| && s.notes[i] == a;
      var j :| 0 <= j < |s.notes| && s.notes[j] == b;
      assert !(i < j) && !(j < i);
    }
  }

  lemma PlanRows(c: Call, g: Settings, w: World, s: Store, n: Note)
    ensures var p := PlanRun(c, g, w, s);
      var pending := n in s.notes && IsPending(c, g, w, s, n);
      && (n in p.email ==> pending && RoutesDigest(c, g, w, s, n))
      && (n in p.instant ==> pending && RoutesInstant(c, g, s, n))
      && (n in p.push ==> pending && RoutesPush(c, g, w, s, n))
      && (c.cap.None? ==>
            && (n in p.email <==> pending && RoutesDigest(c, g, w, s, n))
            && (n in p.instant <==> pending && RoutesInstant(c, g, s, n))
            && (n in p.push <==> pending && RoutesPush(c, g, w, s, n)))
  {
    var rows := Pending(c, g, w, s);
    IncludedMember(c.cap, Filter(DigestIn(c, g, w, s), rows), n);
    IncludedMember(c.cap, Filter(InstantIn(c, g, s), rows), n);
    IncludedMember(c.cap, Filter(PushIn(c, g, w, s), rows), n);
  }

  lemma PlanDistinct(c: Call, g: Settings, w: World, s: Store)
    requires s.Valid()
    ensures var p := PlanRun(c, g, w, s);
      DistinctIds(p.email) && DistinctIds(p.instant) && DistinctIds(p.push)
  {
    NotesDistinct(s);
    forall n { PlanRows(c, g, w, s, n); }
  }

  lemma PlanFate(c: Call, g: Settings, w: World, s: Store)
    requires s.Valid()
    ensures var p := PlanRun(c, g, w, s);
      && p.digests.delivered <= EmailStamped(p) && p.digests.deferred <= IdsOf(p.email)
      && p.mail.delivered <= InstantStamped(p)
      && p.pushes.delivered <= PushStamped(p)
      && (p.email != [] ==> EmailStamped(p) != {})
  {
    var p := PlanRun(c, g, w, s);
    PlanDistinct(c, g, w, s);
    DigestFate(g, w, s, p.email);
    PushFate(w, s, p.push);
    MailInside(g, w, w.instantMailFails, EmailAllowedIn(s), p.instant);
  }

  // ------------------------------------------------------------------ stamped or deferred

  /** A row a channel does not include, because it was not routed there or the cap dropped its group,
      keeps its stamp on that channel. */
  lemma NotIncludedKeepsStamp(c: Call, g: Settings, w: World, s: Store, n: Note)
    requires s.Valid() && n in s.notes
    ensures var p, before, after := PlanRun(c, g, w, s), s.stamps[n.id], Run(c, g, w, s).stamps[n.id];
      && (n !in p.email ==> after.emailed == before.emailed)
      && (n !in p.instant ==> after.instant == before.instant)
      && (n !in p.push ==> after.pushed == before.pushed)
  {
    var p := PlanRun(c, g, w, s);
    NotesDistinct(s);
    forall m | m in p.email || m in p.instant || m in p.push ensures m.id == n.id ==> m == n {
      PlanRows(c, g, w, s, m);
    }
    var t := RunTxn(c, g, w, s);
    assert Run(c, g, w, s).stamps[n.id] == StampRow(t, n.id, s.stamps[n.id]);
  }

  // ------------------------------------------------------------------ one vehicle per email

  /** Within a run no row is included for both email vehicles, whatever the routing. */
  lemma VehiclesDisjoint(c: Call, g: Settings, w: World, s: Store)
    requires s.Valid()
    ensures var p := PlanRun(c, g, w, s); IdsOf(p.email) !! IdsOf(p.instant)
  {
    var p := PlanRun(c, g, w, s);
    forall id | id in IdsOf(p.email) ensures id !in IdsOf(p.instant) {
      if id in IdsOf(p.instant) {
        var a: Note :| a in p.email && a.id == id;
        var b: Note :| b in p.instant && b.id == id;
        PlanRows(c, g, w, s, a);
        PlanRows(c, g, w, s, b);
        NotesDistinct(s);
      }
    }
  }

  predicate Both(st: Stamps) { st.emailed.Some? && st.instant.Some? }

  /** The row is in some entry of its recipient's digest, which goes out, and on none of its cards. */
  ghost predicate Overflows(g: Settings, w: World, s: Store, included: seq<Note>, n: Note) {
    g.combined &&
    exists d :: d in GroupBy(UserOf, EmailGroups(s, included)) && d.key == n.recipient && DigestSent(w, s, d)
                && n.id in EntryIds(SectionsOf(w, d.items)) && n.id !in Rendered(g, w, d)
  }

  lemma DeferredIffOverflows(c: Call, g: Settings, w: World, s: Store, n: Note)
    requires s.Valid() && n in PlanRun(c, g, w, s).email
    ensures var p := PlanRun(c, g, w, s);
      n.id in p.digests.deferred <==> Overflows(g, w, s, p.email, n)
  {
    hide DigestSent, SectionsOf, Rendered;
    PlanDistinct(c, g, w, s);
    DigestsOfPlan(c, g, w, s);
    if g.combined { DeferredByOwnDigest(g, w, s, PlanRun(c, g, w, s).email, n); }
  }

  lemma DigestsOfPlan(c: Call, g: Settings, w: World, s: Store)
    ensures var p := PlanRun(c, g, w, s);
      p.digests == Digests(g, w, s, p.email) && (!g.combined ==> p.digests.deferred == {})
  {
  }

  /** A run, capped or not, leaves a row with both email stamps if and only if it had both, or one of its
      vehicles was used before and this run includes it for the other one, without putting it off. */
  lemma BothStampsIff(c: Call, g: Settings, w: World, s: Store, n: Note)
    requires s.Valid() && n in s.notes
    ensures var st, p := s.stamps[n.id], PlanRun(c, g, w, s);
      Both(Run(c, g, w, s).stamps[n.id]) <==>
        || Both(st)
        || (st.emailed.Some? && n in p.instant)
        || (st.instant.Some? && n in p.email && !Overflows(g, w, s, p.email, n))
  {
    hide Overflows;
    var p := PlanRun(c, g, w, s);
    StampsAfter(c, g, w, s, n);
    VehiclesDisjoint(c, g, w, s);
    if n in p.email { DeferredIffOverflows(c, g, w, s, n); }
    assert n in p.email ==> n.id in IdsOf(p.email);
    assert n in p.instant ==> n.id in IdsOf(p.instant);
  }

  lemma StampsAfter(c: Call, g: Settings, w: World, s: Store, n: Note)
    requires s.Valid() && n in s.notes
    ensures var p, st, st' := PlanRun(c, g, w, s), s.stamps[n.id], Run(c, g, w, s).stamps[n.id];
      && st'.emailed == Stamp(w.now, n in p.email && n.id !in p.digests.deferred, st.emailed)
      && st'.instant == Stamp(w.now, n in p.instant, st.instant)
  {
    var p := PlanRun(c, g, w, s);
    NotesDistinct(s);
    forall m | m in p.email || m in p.instant ensures m.id == n.id ==> m == n { PlanRows(c, g, w, s, m); }
  }

  /** Every row included for email comes out of the run stamped, unless its recipient's digest went out with
      the row in an entry and on no card: then it keeps the stamp it had. */
  lemma StampedOrDeferred(c: Call, g: Settings, w: World, s: Store, n: Note)
    requires s.Valid() && n in PlanRun(c, g, w, s).email
    ensures n.id in Run(c, g, w, s).stamps && n.id in s.stamps
    ensures Run(c, g, w, s).stamps[n.id].emailed
         == if Overflows(g, w, s, PlanRun(c, g, w, s).email, n) then s.stamps[n.id].emailed else Some(w.now)
  {
    hide Overflows;
    PlanRows(c, g, w, s, n);
    StampsAfter(c, g, w, s, n);
    DeferredIffOverflows(c, g, w, s, n);
  }

  /** Without a cap what is included is what is pending and routed, which a caller sees beforehand. */
  lemma BothStampsUncappedIff(c: Call, g: Settings, w: World, s: Store, n: Note)
    requires s.Valid() && n in s.notes && c.cap.None?
    ensures var st, pending := s.stamps[n.id], IsPending(c, g, w, s, n);
      var routed := Filter(DigestIn(c, g, w, s), Pending(c, g, w, s));
      Both(Run(c, g, w, s).stamps[n.id]) <==>
        || Both(st)
        || (st.emailed.Some? && pending && RoutesInstant(c, g, s, n))
        || (st.instant.Some? && pending && RoutesDigest(c, g, w, s, n)
            && !Overflows(g, w, s, Included(None, routed), n))
  {
    hide Overflows;
    BothStampsIff(c, g, w, s, n);
    PlanRows(c, g, w, s, n);
    EmailOfPlan(c, g, w, s);
  }

  lemma EmailOfPlan(c: Call, g: Settings, w: World, s: Store)
    ensures PlanRun(c, g, w, s).email == Included(c.cap, Filter(DigestIn(c, g, w, s), Pending(c, g, w, s)))
  {
  }

  /** A row emailed in a digest gets the other stamp as well once its feature is switched to instant email. */
  lemma SwitchedRoutingStampsBoth() returns (c: Call, g: Settings, w: World, s: Store)
    ensures s.Valid() && 0 in s.stamps && !Both(s.stamps[0]) && 0 in Run(c, g, w, s).stamps
      && Both(Run(c, g, w, s).stamps[0])
  {
    hide PlanRun;
    var n := Note(0, 1, 2, NewFollower, None, 0, None, None);
    var u := User(false, 0, {}, {}, true, None, None);
    s := Store([n], map[0 := Stamps(Some(0), None, None)], map[1 := u]);
    c := Call(false, None, {}, None, false, false);
    g := Settings(true, {SocialActivity}, {SocialActivity}, {}, DEFAULT_SCHEDULE, None, true, 5, 20, 10);
    w := World(0, {}, {}, {}, {}, map[], map[], {}, {}, {}, map[]);
    assert SocialActivity in FeaturesInstant(g);
    assert IsPending(c, g, w, s, n) && RoutesInstant(c, g, s, n);
    PlanRows(c, g, w, s, n);
    BothStampsIff(c, g, w, s, n);
  }

  // ------------------------------------------------------------------ channels do not interfere

  /** What digests depend on in a user. */
  function DigestView(u: User): User { u.(lastInterestPush := None, pushOn := {}) }

  /** The same table up to push and instant-email stamps, interest-push clocks and push switches. */
  ghost predicate SameForDigest(s: Store, t: Store) {
    && s.notes == t.notes && s.stamps.Keys == t.stamps.Keys && s.users.Keys == t.users.Keys
    && (forall id :: id in s.stamps ==> s.stamps[id].emailed == t.stamps[id].emailed)
    && (forall u :: u in s.users ==> DigestView(s.users[u]) == DigestView(t.users[u]))
  }

  lemma {:induction false} FilterTwice<T(!new)>(p: T -> bool, q: T -> bool, p': T -> bool, q': T -> bool, xs: seq<T>)
    requires forall x :: x in xs ==> (p(x) && q(x) <==> p'(x) && q'(x))
    ensures Filter(q, Filter(p, xs)) == Filter(q', Filter(p', xs))
  {
    if xs != [] {
      var init, x := xs[..|xs| - 1], xs[|xs| - 1];
      assert xs == init + [x];
      FilterTwice(p, q, p', q', init);
      FilterTwicePush(p, q, init, x);
      FilterTwicePush(p', q', init, x);
    }
  }

  lemma FilterTwicePush<T(!new)>(p: T -> bool, q: T -> bool, init: seq<T>, x: T)
    ensures Filter(q, Filter(p, init + [x])) == Filter(q, Filter(p, init)) + if p(x) && q(x) then [x] else []
  {
    FilterPush(p, init, x);
    if p(x) { FilterPush(q, Filter(p, init), x); } else { assert Filter(p, init) + [] == Filter(p, init); }
  }

  lemma {:induction false} FilterAgree<T(!new)>(p: T -> bool, q: T -> bool, xs: seq<T>)
    requires forall x :: x in xs ==> (p(x) <==> q(x))
    ensures Filter(p, xs) == Filter(q, xs)
  {
    if xs != [] {
      assert forall x :: x in xs[..|xs| - 1] ==> x in xs;
      FilterAgree(p, q, xs[..|xs| - 1]);
    }
  }

  lemma SameCombined(g: Settings, w: World, s: Store, t: Store, ds: seq<Digest>)
    requires SameForDigest(s, t)
    ensures CombinedDigests(g, w, s, ds) == CombinedDigests(g, w, t, ds)
  {
    forall d: Digest ensures DigestAttempted(w, s, d) == DigestAttempted(w, t, d) {
      var u: UserId := d.key;
      if u in s.users { assert DigestView(s.users[u]) == DigestView(t.users[u]); }
    }
    FilterAgree(Attempted(w, s), Attempted(w, t), ds);
    hide DigestAttempted, DigestDelivers, DigestDefers;
    UnionAgree(DeliversIn(g, w, s), DeliversIn(g, w, t), ds);
    UnionAgree(DefersIn(g, w, s), DefersIn(g, w, t), ds);
  }

  lemma SameDigestRoute(c: Call, g: Settings, w: World, s: Store, t: Store, n: Note)
    requires SameForDigest(s, t)
    ensures IsPending(c, g, w, s, n) && RoutesDigest(c, g, w, s, n)
       <==> IsPending(c, g, w, t, n) && RoutesDigest(c, g, w, t, n)
  {
    if n.recipient in s.users {
      var u, v := s.users[n.recipient], t.users[n.recipient];
      assert DigestView(u) == DigestView(v);
      assert u.deleted == v.deleted && u.offset == v.offset && u.lastDigest == v.lastDigest;
    }
  }

  /** Two states that differ only in push and instant-email bookkeeping give the same digests, the
      same deferrals and the same email stamps, and spend the same slots. */
  lemma DigestsIgnoreOtherChannels(c: Call, g: Settings, w: World, s: Store, t: Store)
    requires SameForDigest(s, t)
    ensures var p, q := PlanRun(c, g, w, s), PlanRun(c, g, w, t);
      p.email == q.email && p.digests == q.digests
    ensures SameForDigest(Run(c, g, w, s), Run(c, g, w, t))
  {
    forall n ensures IsPending(c, g, w, s, n) && RoutesDigest(c, g, w, s, n)
                <==> IsPending(c, g, w, t, n) && RoutesDigest(c, g, w, t, n) {
      SameDigestRoute(c, g, w, s, t, n);
    }
    FilterTwice(PendingIn(c, g, w, s), DigestIn(c, g, w, s), PendingIn(c, g, w, t), DigestIn(c, g, w, t), s.notes);
    var email := PlanRun(c, g, w, s).email;
    assert email == PlanRun(c, g, w, t).email;
    forall n | n in email ensures EmailAllowed(s, n) <==> EmailAllowed(t, n) {
      if n.recipient in s.users {
        assert DigestView(s.users[n.recipient]) == DigestView(t.users[n.recipient]);
        assert s.users[n.recipient].emailOn == t.users[n.recipient].emailOn;
      }
    }
    FilterAgree(EmailAllowedIn(s), EmailAllowedIn(t), email);
    SameCombined(g, w, s, t, GroupBy(UserOf, EmailGroups(s, email)));
    SameAfterCommit(w.now, PlanRun(c, g, w, s), PlanRun(c, g, w, t), s, t);
  }

  lemma SameAfterCommit(now: int, p: Plan, q: Plan, s: Store, t: Store)
    requires SameForDigest(s, t) && p.email == q.email && p.digests == q.digests
    ensures SameForDigest(Commit(TxnOf(now, p), s), Commit(TxnOf(now, q), t))
  {
    var s', t' := Commit(TxnOf(now, p), s), Commit(TxnOf(now, q), t);
    forall u | u in s'.users
      ensures DigestView(s'.users[u]) == DigestView(t'.users[u])
    {
      assert DigestView(s.users[u]) == DigestView(t.users[u]);
      assert s.users[u].lastDigest == t.users[u].lastDigest;
    }
  }

  /** `deliver_immediate`: instant emails and pushes of the request-created kinds. */
  function ImmediateCall(users: set<UserId>): Call {
    Call(false, Some(users), FastPushKinds(), None, false, true)
  }

  function FastPushKinds(): (r: set<Kind>)
    ensures forall k :: k in r <==> IsFastPush(k)
  {
    {SubscriptionGoing, SubscriptionSuggested, SubscriptionReview, SubscriptionMemories, SubscriptionMilestone,
     NewFollower, NewFriend, FollowRequest, FollowRequestApproved, EventMessage, EventMessageReply, PlanSessionAdded}
  }

  datatype Job = Job(users: set<UserId>, settings: Settings, world: World)

  function RunJobs(jobs: seq<Job>, s: Store): Store {
    if jobs == [] then s else
      var j := jobs[|jobs| - 1];
      Run(ImmediateCall(j.users), j.settings, j.world, RunJobs(jobs[..|jobs| - 1], s))
  }

  lemma JobLeavesDigestState(users: set<UserId>, g: Settings, w: World, s: Store)
    ensures SameForDigest(s, Run(ImmediateCall(users), g, w, s))
  {
    var c := ImmediateCall(users);
    var p := PlanRun(c, g, w, s);
    if p.email != [] { PlanRows(c, g, w, s, p.email[0]); }
    assert Seen(p.email) == {} && EmailStamped(p) == {};
    NoEmailCommit(TxnOf(w.now, p), s);
  }

  lemma NoEmailCommit(t: Txn, s: Store)
    requires t.email == {} && t.slots == {}
    ensures SameForDigest(s, Commit(t, s))
  {
    forall u | u in s.users ensures DigestView(s.users[u]) == DigestView(Commit(t, s).users[u]) {
      assert Commit(t, s).users[u] == StampUser(t, u, s.users[u]);
    }
  }

  lemma {:induction false} JobsLeaveDigestState(jobs: seq<Job>, s: Store)
    ensures SameForDigest(s, RunJobs(jobs, s))
  {
    if jobs != [] {
      var j := jobs[|jobs| - 1];
      var t := RunJobs(jobs[..|jobs| - 1], s);
      JobsLeaveDigestState(jobs[..|jobs| - 1], s);
      JobLeavesDigestState(j.users, j.settings, j.world, t);
      SameTransitive(s, t, RunJobs(jobs, s));
    }
  }

  lemma SameTransitive(s: Store, t: Store, r: Store)
    requires SameForDigest(s, t) && SameForDigest(t, r)
    ensures SameForDigest(s, r)
  {
    forall u | u in s.users ensures DigestView(s.users[u]) == DigestView(r.users[u]) {
      assert DigestView(s.users[u]) == DigestView(t.users[u]);
    }
  }

  /** However many deliver jobs run before a tick, they change no digest outcome. */
  lemma JobsNeverChangeDigests(jobs: seq<Job>, c: Call, g: Settings, w: World, s: Store)
    ensures PlanRun(c, g, w, RunJobs(jobs, s)).digests == PlanRun(c, g, w, s).digests
    ensures SameForDigest(Run(c, g, w, s), Run(c, g, w, RunJobs(jobs, s)))
  {
    JobsLeaveDigestState(jobs, s);
    DigestsIgnoreOtherChannels(c, g, w, s, RunJobs(jobs, s));
  }

  // ------------------------------------------------------------------ quiescence

  ghost predicate NoTransientPush(w: World) { forall t :: t in w.pushes ==> w.pushes[t].Sent? }

  lemma NoRetries(w: World, groups: seq<Bucket<Target, Note>>)
    requires NoTransientPush(w)
    ensures SendPushes(w, groups).retry == {}
  {
  }

  /** A row routed after a commit was routed before it, and the commit did not concern it. */
  lemma RoutedBefore(c: Call, g: Settings, w: World, t: Txn, s: Store, n: Note)
    requires n.id in s.stamps && !c.force && !c.resend && t.now == w.now
    requires IsPending(c, g, w, Commit(t, s), n)
    ensures RoutesDigest(c, g, w, Commit(t, s), n) ==>
      IsPending(c, g, w, s, n) && RoutesDigest(c, g, w, s, n) && n.recipient !in t.slots
    ensures RoutesInstant(c, g, Commit(t, s), n) ==>
      IsPending(c, g, w, s, n) && RoutesInstant(c, g, s, n) && n.id !in t.instant
    ensures RoutesPush(c, g, w, Commit(t, s), n) ==>
      IsPending(c, g, w, s, n) && RoutesPush(c, g, w, s, n) && n.id !in t.push
  {
    assert Commit(t, s).stamps[n.id] == StampRow(t, n.id, s.stamps[n.id]);
    if n.recipient in s.users {
      assert Commit(t, s).users[n.recipient] == StampUser(t, n.recipient, s.users[n.recipient]);
    }
    if RoutesInstant(c, g, Commit(t, s), n) { assert FeatureOf(n.kind) in FeaturesInstant(g); }
  }

  lemma TxnCovers(c: Call, g: Settings, w: World, s: Store, n: Note)
    requires NoTransientPush(w)
    ensures var p, t := PlanRun(c, g, w, s), RunTxn(c, g, w, s);
      && (n in p.email ==> n.recipient in t.slots)
      && (n in p.instant ==> n.id in t.instant)
      && (n in p.push ==> n.id in t.push)
  {
    var p := PlanRun(c, g, w, s);
    PlanRows(c, g, w, s, n);
    NoRetries(w, PushGroups(s, p.push));
  }

  /** After an ordinary run no row is routed anywhere at that same instant. */
  lemma NothingLeft(c: Call, g: Settings, w: World, s: Store, n: Note)
    requires s.Valid() && n in s.notes && !c.force && !c.resend && c.cap.None? && NoTransientPush(w)
    requires IsPending(c, g, w, Run(c, g, w, s), n)
    ensures var s' := Run(c, g, w, s);
      !RoutesDigest(c, g, w, s', n) && !RoutesInstant(c, g, s', n) && !RoutesPush(c, g, w, s', n)
  {
    RoutedBefore(c, g, w, RunTxn(c, g, w, s), s, n);
    TxnCovers(c, g, w, s, n);
    PlanRows(c, g, w, s, n);
  }

  lemma PlanEmpty(c: Call, g: Settings, w: World, s: Store)
    requires forall n :: n in s.notes && IsPending(c, g, w, s, n) ==>
      !RoutesDigest(c, g, w, s, n) && !RoutesInstant(c, g, s, n) && !RoutesPush(c, g, w, s, n)
    ensures var p := PlanRun(c, g, w, s); p.email == [] && p.instant == [] && p.push == []
  {
    var p := PlanRun(c, g, w, s);
    if p.email != [] { PlanRows(c, g, w, s, p.email[0]); }
    if p.instant != [] { PlanRows(c, g, w, s, p.instant[0]); }
    if p.push != [] { PlanRows(c, g, w, s, p.push[0]); }
  }

  /** Quiescence: with the same settings and no force, resend, cap or transient push error, a second
      run at the same instant sends nothing and changes nothing, digest overflow included. */
  lemma SecondRunIsIdle(c: Call, g: Settings, w: World, s: Store)
    requires s.Valid() && !c.force && !c.resend && c.cap.None? && NoTransientPush(w)
    ensures var s' := Run(c, g, w, s);
      var p := PlanRun(c, g, w, s');
      && p.digests.sent == [] && p.mail.sent == 0 && p.pushes.pushed == 0
      && RunTxn(c, g, w, s').sends == {}
      && Run(c, g, w, s') == s'
  {
    var s' := Run(c, g, w, s);
    forall n | n in s'.notes && IsPending(c, g, w, s', n)
      ensures !RoutesDigest(c, g, w, s', n) && !RoutesInstant(c, g, s', n) && !RoutesPush(c, g, w, s', n)
    {
      NothingLeft(c, g, w, s, n);
    }
    PlanEmpty(c, g, w, s');
    EmptyPlanIsIdle(c, g, w, s');
  }

  lemma EmptyPlanIsIdle(c: Call, g: Settings, w: World, s: Store)
    requires var p := PlanRun(c, g, w, s); p.email == [] && p.instant == [] && p.push == []
    ensures var p := PlanRun(c, g, w, s);
      p.digests == DigestOutcome([], {}, {}) && p.mail == MailOutcome(0, {}, {}) && p.pushes == PushResult(0, {}, {})
    ensures RunTxn(c, g, w, s).sends == {} && Run(c, g, w, s) == s
  {
    NothingToSend(g, w, s);
    EmptyCommit(RunTxn(c, g, w, s), s);
  }

  lemma NothingToSend(g: Settings, w: World, s: Store)
    ensures Digests(g, w, s, []) == DigestOutcome([], {}, {})
    ensures SendMail(g, w, w.instantMailFails, EmailGroups(s, [])) == MailOutcome(0, {}, {})
    ensures SendPushes(w, PushGroups(s, [])) == PushResult(0, {}, {})
  {
  }

  lemma EmptyCommit(t: Txn, s: Store)
    requires t.email == {} && t.instant == {} && t.push == {} && t.slots == {} && t.interest == {}
    ensures Commit(t, s) == s
  {
    assert Commit(t, s).stamps == s.stamps && Commit(t, s).users == s.users;
  }

  // ------------------------------------------------------------------ draining the backlog

  /** The rows a digest would take up now. */
  function Backlog(c: Call, g: Settings, w: World, s: Store): set<Id> {
    set n | n in s.notes && IsPending(c, g, w, s, n) && RoutesDigest(c, g, w, s, n) :: n.id
  }

  /** A later look at the world: time has passed, the row filters are the same; how sends end may differ. */
  ghost predicate Later(w: World, w': World) {
    w.now <= w'.now && w.visible == w'.visible && w.unsafe == w'.unsafe && w.locked == w'.locked
  }

  lemma BacklogAfter(c: Call, g: Settings, w: World, w': World, t: Txn, s: Store)
    requires c.force && !c.resend && Later(w, w')
    ensures Backlog(c, g, w', Commit(t, s)) <= Backlog(c, g, w, s) - t.email
  {
    forall id | id in Backlog(c, g, w', Commit(t, s)) ensures id in Backlog(c, g, w, s) - t.email {
      var n: Note :| n in s.notes && n.id == id && IsPending(c, g, w', Commit(t, s), n)
                     && RoutesDigest(c, g, w', Commit(t, s), n);
      assert Commit(t, s).stamps[id] == StampRow(t, id, s.stamps[id]);
      if n.recipient in s.users {
        assert Commit(t, s).users[n.recipient] == StampUser(t, n.recipient, s.users[n.recipient]);
      }
      assert IsPending(c, g, w, s, n) && RoutesDigest(c, g, w, s, n);
    }
  }

  lemma BacklogIncluded(c: Call, g: Settings, w: World, s: Store)
    requires c.cap.Some? ==> c.cap.value >= 1
    requires Backlog(c, g, w, s) != {}
    ensures PlanRun(c, g, w, s).email != []
  {
    var id :| id in Backlog(c, g, w, s);
    var n: Note :| n in s.notes && n.id == id && IsPending(c, g, w, s, n) && RoutesDigest(c, g, w, s, n);
    var routed := Filter(DigestIn(c, g, w, s), Pending(c, g, w, s));
    assert n in routed;
    IncludedNonempty(c.cap, routed);
  }

  lemma StampedFromBacklog(c: Call, g: Settings, w: World, s: Store, id: Id)
    requires id in EmailStamped(PlanRun(c, g, w, s))
    ensures id in Backlog(c, g, w, s)
  {
    var m: Note :| m in PlanRun(c, g, w, s).email && m.id == id;
    PlanRows(c, g, w, s, m);
  }

  /** A forced digest takes up at least one row of a nonempty backlog and adds none, however its
      sends end and however little the cards show. */
  lemma ForcedDigestShrinks(c: Call, g: Settings, w: World, w': World, s: Store)
    requires s.Valid() && c.force && !c.resend && (c.cap.Some? ==> c.cap.value >= 1) && Later(w, w')
    requires Backlog(c, g, w, s) != {}
    ensures Backlog(c, g, w', Run(c, g, w, s)) < Backlog(c, g, w, s)
  {
    BacklogIncluded(c, g, w, s);
    PlanFate(c, g, w, s);
    var hit :| hit in EmailStamped(PlanRun(c, g, w, s));
    StampedFromBacklog(c, g, w, s, hit);
    BacklogAfter(c, g, w, w', RunTxn(c, g, w, s), s);
  }

  lemma RunKeepsValid(c: Call, g: Settings, w: World, s: Store)
    requires s.Valid()
    ensures Run(c, g, w, s).Valid()
  {
  }

  function RunAll(c: Call, g: Settings, ws: seq<World>, s: Store): Store {
    if ws == [] then s else RunAll(c, g, ws[1..], Run(c, g, ws[0], s))
  }

  ghost predicate Chronological(ws: seq<World>) {
    forall i, j :: 0 <= i < j < |ws| ==> Later(ws[i], ws[j])
  }

  lemma SmallerSet<T>(a: set<T>, b: set<T>)
    requires a <= b
    ensures |a| <= |b| && (a < b ==> |a| < |b|)
  {
    assert b == a + (b - a);
    assert |b| == |a| + |b - a|;
    if |b - a| == 0 { assert b == a; }
  }

  /** Repeated forced digests drain the backlog: each of them shrinks it until it is empty, so no more
      runs are needed than rows were waiting. */
  lemma {:induction false} ForcedDigestsDrain(c: Call, g: Settings, ws: seq<World>, last: World, s: Store)
    requires s.Valid() && c.force && !c.resend && (c.cap.Some? ==> c.cap.value >= 1)
    requires Chronological(ws + [last]) && ws != []
    ensures var left := |Backlog(c, g, last, RunAll(c, g, ws, s))|;
      left + |ws| <= |Backlog(c, g, ws[0], s)| || left == 0
  {
    hide Backlog, PlanRun;
    var next := (ws + [last])[1];
    assert ws[0] == (ws + [last])[0];
    ForcedDigestStep(c, g, ws[0], next, s);
    if |ws| > 1 {
      RunKeepsValid(c, g, ws[0], s);
      assert ws[1..] + [last] == (ws + [last])[1..];
      ForcedDigestsDrain(c, g, ws[1..], last, Run(c, g, ws[0], s));
    } else {
      assert ws[1..] == [];
    }
  }

  lemma ForcedDigestStep(c: Call, g: Settings, w: World, w': World, s: Store)
    requires s.Valid() && c.force && !c.resend && (c.cap.Some? ==> c.cap.value >= 1) && Later(w, w')
    ensures var before, after := |Backlog(c, g, w, s)|, |Backlog(c, g, w', Run(c, g, w, s))|;
      after < before || after == before == 0
  {
    BacklogAfter(c, g, w, w', RunTxn(c, g, w, s), s);
    SmallerSet(Backlog(c, g, w', Run(c, g, w, s)), Backlog(c, g, w, s));
    if Backlog(c, g, w, s) != {} { ForcedDigestShrinks(c, g, w, w', s); }
  }
}
