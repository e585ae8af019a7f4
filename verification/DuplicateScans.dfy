/** Duplicate scans: which pairs a scan looks at and records, and the store it works on. */
module DuplicateScans {
  import opened Options
  import opened OrderedGroups
  import opened Duplicates

  // ------------------------------------------------------------------ scans

  datatype ScanLog = ScanLog(candidatesFound: nat, groupsCreated: nat)

  datatype Outcome = Done | GroupNotFound | NotAMember

  /** What a scan reads: the events neither deleted, hidden nor over, in the order the query lists
      them; which are public, which only ask to be; and the ordered pairs the title and start-time
      matcher accepts. The matcher need not be symmetric. */
  datatype Catalog = Catalog(upcoming: seq<EventId>, public: set<EventId>, requested: set<EventId>, similar: set<Edge>)

  predicate Candidate(c: Catalog, blocked: set<EventId>, e: EventId, m: EventId) {
    m in c.upcoming && m in c.public && m !in blocked && m != e && Edge(e, m) in c.similar
  }

  predicate Scanned(c: Catalog, blocked: set<EventId>, e: EventId) {
    e in c.upcoming && e in c.public && e !in blocked
  }

  predicate Detectable(c: Catalog, blocked: set<EventId>, e: EventId) {
    e in c.upcoming && e !in blocked && (e in c.public || e in c.requested)
  }

  function CandidateOf(c: Catalog, blocked: set<EventId>, e: EventId): EventId -> bool {
    m => Candidate(c, blocked, e, m)
  }

  /** The matches of one event, in query order. */
  function Matches(c: Catalog, blocked: set<EventId>, e: EventId): seq<EventId> {
    Filter(CandidateOf(c, blocked, e), c.upcoming)
  }

  /** The unordered pair, as `tuple(sorted((a, b)))`. */
  function Pair(a: EventId, b: EventId): set<EventId> { {a, b} }

  function PairsOf(c: Catalog, blocked: set<EventId>): EventId -> set<set<EventId>> {
    e => if Scanned(c, blocked, e) then set m | m in Matches(c, blocked, e) :: Pair(e, m) else {}
  }

  /** Every action records a pair the matcher accepted, found from an event that may be looked at. */
  ghost predicate Records(c: Catalog, blocked: set<EventId>, actions: seq<Action>) {
    forall action :: action in actions ==>
      action.Record? && Detectable(c, blocked, action.a) && Candidate(c, blocked, action.a, action.b)
  }

  ghost predicate ScanRecords(c: Catalog, blocked: set<EventId>, actions: seq<Action>) {
    forall action :: action in actions ==>
      action.Record? && Scanned(c, blocked, action.a) && Candidate(c, blocked, action.a, action.b)
  }

  /** Every match a full scan can come across is recorded. */
  ghost predicate Covered(c: Catalog, blocked: set<EventId>, t: Tables) {
    forall e, m :: Scanned(c, blocked, e) && Candidate(c, blocked, e, m) ==> Recorded(t, e, m)
  }

  ghost predicate AllRecorded(t: Tables, pairs: set<set<EventId>>) {
    forall x, y :: Pair(x, y) in pairs ==> Recorded(t, x, y)
  }

  /** How far a scan that began in `s0` has come: `seen` pairs went to the tables. */
  ghost predicate Progress(c: Catalog, s0: State, s: State, actions: seq<Action>, seen: set<set<EventId>>,
                           created: nat) {
    && Invariant(s) && ScanRecords(c, s0.blocked, actions) && s == Execute(s0, actions) && s.blocked == s0.blocked
    && s0.tables.members <= s.tables.members
    && 0 <= |s.tables.groups| - |s0.tables.groups| <= created <= |seen|
    && AllRecorded(s.tables, seen)
    && (created == 0 ==> s.tables == s0.tables)
    && (AllRecorded(s0.tables, seen) ==> created == 0)
  }

  lemma OnePairFurther(c: Catalog, s0: State, s: State, actions: seq<Action>, seen: set<set<EventId>>, created: nat,
                       action: Action, s': State, isNew: bool)
    requires Progress(c, s0, s, actions, seen, created)
    requires action.Record? && Scanned(c, s0.blocked, action.a) && Candidate(c, s0.blocked, action.a, action.b)
    requires Pair(action.a, action.b) !in seen
    requires s' == Apply(s, action) && Invariant(s') && Recorded(s'.tables, action.a, action.b)
      && s.tables.members <= s'.tables.members
    requires |s.tables.groups| <= |s'.tables.groups| <= |s.tables.groups| + if isNew then 1 else 0
    requires isNew <==> !Recorded(s.tables, action.a, action.b)
    requires !isNew ==> s'.tables == s.tables
    ensures Progress(c, s0, s', actions + [action], seen + {Pair(action.a, action.b)}, created + if isNew then 1 else 0)
  {
    ExecutePush(s0, actions, action);
    var a, b := action.a, action.b;
    var seen' := seen + {Pair(a, b)};
    forall x, y | Pair(x, y) in seen' ensures Recorded(s'.tables, x, y) {
      if Pair(x, y) in seen {
        RecordedGrows(s.tables, s'.tables, x, y);
      } else {
        SamePair(x, y, a, b);
      }
    }
    if AllRecorded(s0.tables, seen') {
      forall x, y | Pair(x, y) in seen ensures Recorded(s0.tables, x, y) { assert Pair(x, y) in seen'; }
      assert Pair(a, b) in seen';
    }
  }

  lemma SamePair(x: EventId, y: EventId, a: EventId, b: EventId)
    requires Pair(x, y) == Pair(a, b)
    ensures (x == a && y == b) || (x == b && y == a)
  {
    assert x in Pair(a, b) && y in Pair(a, b) && a in Pair(x, y) && b in Pair(x, y);
  }

  lemma NothingSeen(c: Catalog, s: State)
    requires Invariant(s)
    ensures Progress(c, s, s, [], {}, 0)
  {
  }

  lemma MatchIsCandidate(c: Catalog, blocked: set<EventId>, e: EventId, i: nat)
    requires i < |Matches(c, blocked, e)|
    ensures Candidate(c, blocked, e, Matches(c, blocked, e)[i])
  {
    assert Matches(c, blocked, e)[i] in Matches(c, blocked, e);
  }

  lemma RecordBlocksNobody(s: State, action: Action)
    requires action.Record?
    ensures Apply(s, action).blocked == s.blocked
  {
  }

  lemma NoPairs(c: Catalog, blocked: set<EventId>)
    ensures Union(PairsOf(c, blocked), c.upcoming[..0]) == {}
  {
  }

  lemma PairsEnds(c: Catalog, blocked: set<EventId>, e: EventId)
    ensures PairsTo(c, blocked, e, 0) == {}
    ensures PairsOf(c, blocked)(e) ==
            if Scanned(c, blocked, e) then PairsTo(c, blocked, e, |Matches(c, blocked, e)|) else {}
  {
    var found := Matches(c, blocked, e);
    assert found[..|found|] == found;
  }

  lemma PairsPush(c: Catalog, blocked: set<EventId>, e: EventId, i: nat)
    requires i < |Matches(c, blocked, e)|
    ensures PairsTo(c, blocked, e, i + 1) == PairsTo(c, blocked, e, i) + {Pair(e, Matches(c, blocked, e)[i])}
  {
    var found := Matches(c, blocked, e);
    assert found[..i + 1] == found[..i] + [found[i]];
  }

  function PairsTo(c: Catalog, blocked: set<EventId>, e: EventId, i: nat): set<set<EventId>>
    requires i <= |Matches(c, blocked, e)|
  {
    set m | m in Matches(c, blocked, e)[..i] :: Pair(e, m)
  }

  lemma SeenIsEverything(c: Catalog, blocked: set<EventId>, t: Tables)
    ensures AllRecorded(t, Union(PairsOf(c, blocked), c.upcoming)) <==> Covered(c, blocked, t)
  {
    var all := Union(PairsOf(c, blocked), c.upcoming);
    if AllRecorded(t, all) {
      forall e, m | Scanned(c, blocked, e) && Candidate(c, blocked, e, m) ensures Recorded(t, e, m) {
        assert m in Matches(c, blocked, e);
        assert Pair(e, m) in PairsOf(c, blocked)(e);
        UnionHas(PairsOf(c, blocked), c.upcoming, e, Pair(e, m));
      }
    }
    if Covered(c, blocked, t) {
      forall x, y | Pair(x, y) in all ensures Recorded(t, x, y) {
        var e := UnionFrom(PairsOf(c, blocked), c.upcoming, Pair(x, y));
        var m :| m in Matches(c, blocked, e) && Pair(x, y) == Pair(e, m);
        SamePair(x, y, e, m);
      }
    }
  }

  lemma RemoveEventsPush(s: State, losers: seq<EventId>, l: EventId)
    ensures var before := RemoveEvents(s, losers);
      RemoveEvents(s, losers + [l]) == RemoveEvent(before.(blocked := before.blocked + {l}), l)
  {
    assert (losers + [l])[..|losers|] == losers;
  }

  lemma NothingRemoved(s: State)
    ensures RemoveEvents(s, []) == s
  {
  }

  lemma {:induction false} RemovalTrashes(s: State, losers: seq<EventId>)
    ensures RemoveEvents(s, losers).removed == s.removed + set l | l in losers
  {
    if losers != [] {
      RemovalTrashes(s, losers[..|losers| - 1]);
      assert losers == losers[..|losers| - 1] + [losers[|losers| - 1]];
    }
  }

  /** A blocked event stays blocked until an admin unblocks it, and until then no scan looks at it, as
      source or as candidate. */
  lemma {:induction false} BlockedUntilUnblocked(s: State, more: seq<Action>, e: EventId, c: Catalog, other: EventId)
    requires e in s.blocked && Restore(e, true) !in more
    ensures var blocked := Execute(s, more).blocked;
      e in blocked && !Scanned(c, blocked, e) && !Detectable(c, blocked, e) && !Candidate(c, blocked, other, e)
  {
    hide Withdraw, AddPair;
    if more != [] {
      var n := |more| - 1;
      BlockedUntilUnblocked(s, more[..n], e, c, other);
      assert more[n] in more;
      var before := Execute(s, more[..n]);
      match more[n]
      case Keep(g, kept, losers) =>
        var tables := if g < |before.tables.groups| then SetStatus(before.tables, g, Resolved) else before.tables;
        RemovalBlocks(before.(tables := tables), losers);
      case _ =>
    }
  }

  // ------------------------------------------------------------------ scans and components

  /** The ordered pairs a full scan accepts. */
  function MatchEdges(c: Catalog, blocked: set<EventId>): set<Edge> {
    set e | e in c.similar && Scanned(c, blocked, e.a) && Candidate(c, blocked, e.a, e.b)
  }

  /** What full scans and dismissals between them do. */
  ghost predicate ScansAndDismissals(c: Catalog, blocked: set<EventId>, actions: seq<Action>) {
    forall action :: action in actions ==>
      action.Dismiss? || (action.Record? && Edge(action.a, action.b) in MatchEdges(c, blocked))
  }

  lemma {:induction false} OnlyMatchesRecorded(c: Catalog, blocked: set<EventId>, actions: seq<Action>)
    requires ScansAndDismissals(c, blocked, actions)
    ensures Execute(INITIAL, actions).edges <= MatchEdges(c, blocked)
  {
    hide AddPair;
    if actions != [] {
      var n := |actions| - 1;
      assert actions[n] in actions && forall action :: action in actions[..n] ==> action in actions;
      OnlyMatchesRecorded(c, blocked, actions[..n]);
    }
  }

  /** From empty tables, over every sequence of full scans with dismissals in between, whatever
      `.first()` returns: once every match is recorded, as after a complete scan, two events are related
      through shared groups exactly when they are related through matches. */
  lemma ScansFindComponents(c: Catalog, blocked: set<EventId>, actions: seq<Action>, x: EventId, y: EventId)
    requires ScansAndDismissals(c, blocked, actions) && Covered(c, blocked, Execute(INITIAL, actions).tables)
    ensures Joined(Shares(Execute(INITIAL, actions).tables), x, y) <==> Joined(Linked(MatchEdges(c, blocked)), x, y)
  {
    hide Execute, Components;
    var s := Execute(INITIAL, actions);
    GroupsAreComponents(actions, x, y);
    OnlyMatchesRecorded(c, blocked, actions);
    if Joined(Linked(s.edges), x, y) { JoinedBelow(Linked(s.edges), Linked(MatchEdges(c, blocked)), x, y); }
    if Joined(Linked(MatchEdges(c, blocked)), x, y) {
      EdgesShared(s.tables, MatchEdges(c, blocked));
      JoinedBelow(Linked(MatchEdges(c, blocked)), Shares(s.tables), x, y);
    }
  }

  // ------------------------------------------------------------------ who gets into groups

  /** Still to come, public and not blocked. */
  predicate Groupable(c: Catalog, blocked: set<EventId>, e: EventId) {
    e in c.upcoming && e in c.public && e !in blocked
  }

  /** The matcher accepted the two, looking from one or the other. */
  predicate Alike(c: Catalog, a: EventId, b: EventId) {
    a != b && (Edge(a, b) in c.similar || Edge(b, a) in c.similar)
  }

  /** The row's event may be grouped, and some other event of its group is like it. */
  ghost predicate WellAdded(c: Catalog, blocked: set<EventId>, m: Member, members: set<Member>) {
    Groupable(c, blocked, m.event) && exists o :: Member(m.group, o) in members && Alike(c, m.event, o)
  }

  lemma MatchesIff(c: Catalog, blocked: set<EventId>, e: EventId, m: EventId)
    ensures m in Matches(c, blocked, e) <==> Groupable(c, blocked, m) && m != e && Edge(e, m) in c.similar
    ensures Scanned(c, blocked, e) <==> Groupable(c, blocked, e)
  {
    assert m in Matches(c, blocked, e) <==> m in c.upcoming && CandidateOf(c, blocked, e)(m);
  }

  /** The pairs a full scan looks at: the unordered pairs of groupable events the matcher accepts. */
  lemma PairsAre(c: Catalog, blocked: set<EventId>)
    ensures Union(PairsOf(c, blocked), c.upcoming)
         == (set d | d in c.similar && d.a != d.b && Groupable(c, blocked, d.a) && Groupable(c, blocked, d.b)
               :: {d.a, d.b})
  {
    hide Matches, Groupable, Scanned;
    var all := set d | d in c.similar && d.a != d.b && Groupable(c, blocked, d.a) && Groupable(c, blocked, d.b)
      :: {d.a, d.b};
    forall pair | pair in Union(PairsOf(c, blocked), c.upcoming) ensures pair in all {
      var e := UnionFrom(PairsOf(c, blocked), c.upcoming, pair);
      var m :| m in Matches(c, blocked, e) && pair == Pair(e, m);
      MatchesIff(c, blocked, e, m);
      assert Edge(e, m).a == e && Edge(e, m).b == m;
    }
    forall pair | pair in all ensures pair in Union(PairsOf(c, blocked), c.upcoming) {
      var d :| d in c.similar && d.a != d.b && Groupable(c, blocked, d.a) && Groupable(c, blocked, d.b)
               && pair == {d.a, d.b};
      assert d == Edge(d.a, d.b);
      MatchesIff(c, blocked, d.a, d.b);
      GroupableIsUpcoming(c, blocked, d.a);
      UnionHas(PairsOf(c, blocked), c.upcoming, d.a, pair);
    }
  }

  lemma MatchEdgesAre(c: Catalog, blocked: set<EventId>, d: Edge)
    ensures d in MatchEdges(c, blocked) <==>
      d in c.similar && d.a != d.b && Groupable(c, blocked, d.a) && Groupable(c, blocked, d.b)
  {
  }

  lemma GroupableIsUpcoming(c: Catalog, blocked: set<EventId>, e: EventId)
    requires Groupable(c, blocked, e)
    ensures e in c.upcoming
  {
  }

  lemma RecordAdds(s: State, action: Action)
    requires action.Record?
    ensures var t' := Apply(s, action).tables;
      && s.tables.members <= t'.members && Apply(s, action).blocked == s.blocked
      && forall m :: m in t'.members - s.tables.members ==>
           && (m.event == action.a || m.event == action.b)
           && Member(m.group, action.a) in t'.members && Member(m.group, action.b) in t'.members
  {
  }

  /** Whatever tables a full scan starts from, every membership row it adds is of an event that may be grouped
      and has one like it in its group. */
  lemma {:induction false} ScanAddsOnlyAlike(c: Catalog, s: State, actions: seq<Action>)
    requires ScanRecords(c, s.blocked, actions)
    ensures var s' := Execute(s, actions);
      && s'.blocked == s.blocked && s.tables.members <= s'.tables.members
      && forall m :: m in s'.tables.members - s.tables.members ==> WellAdded(c, s.blocked, m, s'.tables.members)
  {
    hide Apply, WellAdded;
    if actions != [] {
      var n := |actions| - 1;
      assert actions[n] in actions && forall action :: action in actions[..n] ==> action in actions;
      var before := Execute(s, actions[..n]);
      ScanAddsOnlyAlike(c, s, actions[..n]);
      RecordAdds(before, actions[n]);
      var after := Execute(s, actions).tables.members;
      forall m | m in after - s.tables.members ensures WellAdded(c, s.blocked, m, after) {
        if m in before.tables.members {
          WellAddedGrows(c, s.blocked, m, before.tables.members, after);
        } else {
          PairIsAlike(c, s.blocked, actions[n].a, actions[n].b);
          IsWellAdded(c, s.blocked, m, actions[n].a, actions[n].b, after);
        }
      }
    }
  }

  lemma WellAddedGrows(c: Catalog, blocked: set<EventId>, m: Member, members: set<Member>, more: set<Member>)
    requires WellAdded(c, blocked, m, members) && members <= more
    ensures WellAdded(c, blocked, m, more)
  {
  }

  lemma PairIsAlike(c: Catalog, blocked: set<EventId>, a: EventId, b: EventId)
    requires Scanned(c, blocked, a) && Candidate(c, blocked, a, b)
    ensures Groupable(c, blocked, a) && Groupable(c, blocked, b) && Alike(c, a, b) && Alike(c, b, a)
  {
  }

  lemma IsWellAdded(c: Catalog, blocked: set<EventId>, m: Member, a: EventId, b: EventId, members: set<Member>)
    requires m.event == a || m.event == b
    requires Member(m.group, a) in members && Member(m.group, b) in members
    requires Groupable(c, blocked, a) && Groupable(c, blocked, b) && Alike(c, a, b) && Alike(c, b, a)
    ensures WellAdded(c, blocked, m, members)
  {
    var o := if m.event == a then b else a;
    assert Member(m.group, o) in members && Alike(c, m.event, o);
  }

  /** The event may be looked at: still to come, not blocked, and public or waiting to become so. */
  predicate MayDetect(c: Catalog, blocked: set<EventId>, e: EventId) {
    e in c.upcoming && e !in blocked && (e in c.public || e in c.requested)
  }

  /** Every event it is like, and that may be grouped, shares a group with it. */
  ghost predicate AllDetected(c: Catalog, blocked: set<EventId>, e: EventId, t: Tables) {
    MayDetect(c, blocked, e) ==>
      forall m :: Groupable(c, blocked, m) && m != e && Edge(e, m) in c.similar ==> Recorded(t, e, m)
  }

  /** The row is the event's own or that of such an event, and both are in the row's group. */
  ghost predicate DetectedFor(c: Catalog, blocked: set<EventId>, e: EventId, m: Member, members: set<Member>) {
    && MayDetect(c, blocked, e)
    && exists o :: Groupable(c, blocked, o) && o != e && Edge(e, o) in c.similar && (m.event == e || m.event == o)
                   && Member(m.group, e) in members && Member(m.group, o) in members
  }

  lemma DetectedAll(c: Catalog, blocked: set<EventId>, e: EventId, t: Tables)
    requires Detectable(c, blocked, e) ==> forall m :: m in Matches(c, blocked, e) ==> Recorded(t, e, m)
    ensures AllDetected(c, blocked, e, t)
  {
    forall m | Groupable(c, blocked, m) && m != e && Edge(e, m) in c.similar ensures m in Matches(c, blocked, e) {
      MatchesIff(c, blocked, e, m);
    }
    hide Matches, Recorded, Groupable;
  }

  lemma {:induction false} DetectionAdds(c: Catalog, s: State, actions: seq<Action>, e: EventId)
    requires Records(c, s.blocked, actions) && forall action :: action in actions ==> action.a == e
    ensures var s' := Execute(s, actions);
      && s'.blocked == s.blocked && s.tables.members <= s'.tables.members
      && forall m :: m in s'.tables.members - s.tables.members ==> DetectedFor(c, s.blocked, e, m, s'.tables.members)
  {
    hide Apply, DetectedFor, Records;
    if actions != [] {
      var n := |actions| - 1;
      var before, after := Execute(s, actions[..n]), Execute(s, actions);
      LastRecord(c, s.blocked, actions);
      DetectionAdds(c, s, actions[..n], e);
      RecordAdds(before, actions[n]);
      forall m | m in after.tables.members - s.tables.members
        ensures DetectedFor(c, s.blocked, e, m, after.tables.members) {
        if m in before.tables.members {
          DetectedGrows(c, s.blocked, e, m, before.tables.members, after.tables.members);
        } else {
          PairIsDetected(c, s.blocked, m, actions[n].a, actions[n].b, after.tables.members);
        }
      }
    }
  }

  /** How far a scan for one event has come. */
  ghost predicate Detecting(c: Catalog, s0: State, s: State, actions: seq<Action>, e: EventId) {
    && Records(c, s0.blocked, actions) && s == Execute(s0, actions)
    && forall action :: action in actions ==> action.a == e
  }

  lemma NothingDetected(c: Catalog, s: State, e: EventId)
    ensures Detecting(c, s, s, [], e)
  {
  }

  lemma DetectedOneMore(c: Catalog, s0: State, s: State, actions: seq<Action>, e: EventId, action: Action)
    requires Detecting(c, s0, s, actions, e)
    requires action.Record? && action.a == e && Detectable(c, s0.blocked, e) && Candidate(c, s0.blocked, e, action.b)
    ensures Detecting(c, s0, Apply(s, action), actions + [action], e)
  {
    hide Apply, Candidate, Detectable;
    ExecutePush(s0, actions, action);
  }

  lemma AllOfDetection(c: Catalog, s0: State, s: State, actions: seq<Action>, e: EventId)
    requires Detecting(c, s0, s, actions, e)
    ensures Records(c, s0.blocked, actions) && s == Execute(s0, actions)
    ensures forall m :: m in s.tables.members - s0.tables.members ==> DetectedFor(c, s0.blocked, e, m, s.tables.members)
  {
    DetectionAdds(c, s0, actions, e);
    hide *;
  }

  lemma LastRecord(c: Catalog, blocked: set<EventId>, actions: seq<Action>)
    requires actions != [] && Records(c, blocked, actions)
    ensures var n := |actions| - 1;
      && Records(c, blocked, actions[..n]) && actions[n] in actions && actions[n].Record?
      && (forall action :: action in actions[..n] ==> action in actions)
      && Detectable(c, blocked, actions[n].a) && Candidate(c, blocked, actions[n].a, actions[n].b)
  {
    assert forall action :: action in actions[..|actions| - 1] ==> action in actions;
    assert actions[|actions| - 1] in actions;
  }

  lemma DetectedGrows(c: Catalog, blocked: set<EventId>, e: EventId, m: Member, members: set<Member>,
                      more: set<Member>)
    requires DetectedFor(c, blocked, e, m, members) && members <= more
    ensures DetectedFor(c, blocked, e, m, more)
  {
  }

  lemma PairIsDetected(c: Catalog, blocked: set<EventId>, m: Member, a: EventId, b: EventId, members: set<Member>)
    requires Detectable(c, blocked, a) && Candidate(c, blocked, a, b) && (m.event == a || m.event == b)
    requires Member(m.group, a) in members && Member(m.group, b) in members
    ensures DetectedFor(c, blocked, a, m, members)
  {
  }

  /** A full scan of some catalog: what it recorded. */
  datatype Scan = Scan(catalog: Catalog, actions: seq<Action>)

  function ScanAll(s: State, scans: seq<Scan>): State {
    if scans == [] then s else
      var n := |scans| - 1;
      Execute(ScanAll(s, scans[..n]), scans[n].actions)
  }

  /** Over any sequence of full scans, from any tables and while catalogs change: every row added is of an event
      that could be grouped in one of those catalogs, beside one like it there. */
  lemma {:induction false} ScansAddOnlyAlike(s: State, scans: seq<Scan>)
    requires forall scan :: scan in scans ==> ScanRecords(scan.catalog, s.blocked, scan.actions)
    ensures var s' := ScanAll(s, scans);
      && s'.blocked == s.blocked && s.tables.members <= s'.tables.members
      && forall m :: m in s'.tables.members - s.tables.members ==>
           exists scan :: scan in scans && WellAdded(scan.catalog, s.blocked, m, s'.tables.members)
  {
    hide WellAdded, ScanRecords, Execute;
    if scans != [] {
      var n := |scans| - 1;
      assert scans[n] in scans;
      var before, after := ScanAll(s, scans[..n]), ScanAll(s, scans);
      ScansAddOnlyAlike(s, scans[..n]);
      ScanAddsOnlyAlike(scans[n].catalog, before, scans[n].actions);
      forall m | m in after.tables.members - s.tables.members
        ensures exists scan :: scan in scans && WellAdded(scan.catalog, s.blocked, m, after.tables.members) {
        if m in before.tables.members {
          assert m in before.tables.members - s.tables.members;
          var scan :| scan in scans[..n] && WellAdded(scan.catalog, s.blocked, m, before.tables.members);
          WellAddedGrows(scan.catalog, s.blocked, m, before.tables.members, after.tables.members);
          assert scan in scans;
        }
      }
    }
  }

  // ------------------------------------------------------------------ the store

  class DuplicateStore {
    var groups: seq<Status>
    var members: set<Member>
    var kept: map<nat, EventId>
    var removed: set<EventId>
    var blocked: set<EventId>
    ghost var withdrawn: set<EventId>
    ghost var edges: set<Edge>
    ghost var standing: set<Edge>
    ghost var ever: set<Member>

    constructor ()
      ensures Snapshot() == INITIAL && kept == map[] && Valid()
    {
      groups, members, kept, removed, blocked := [], {}, map[], {}, {};
      withdrawn, edges, standing, ever := {}, {}, {}, {};
    }

    function Contents(): Tables reads this { Tables(groups, members) }

    ghost function Snapshot(): State reads this {
      State(Contents(), removed, blocked, withdrawn, edges, standing, ever)
    }

    ghost predicate Valid() reads this { Invariant(Snapshot()) }

    /** Into the picked group when it is pending, else into a new one. */
    method InsertPair(a: EventId, b: EventId, pick: Option<Member>) returns (g: nat)
      requires !Recorded(Contents(), a, b)
      modifies this`groups, this`members
      ensures Contents() == AddPair(old(Contents()), a, b, pick) && old(members) <= members
      ensures IsPending(Contents(), g) && Member(g, a) in members && Member(g, b) in members
      ensures |old(groups)| <= |groups| <= |old(groups)| + 1
    {
      hide Recorded;
      g := |groups|;
      if pick.Some? && pick.value.group < |groups| && groups[pick.value.group] == Pending {
        g := pick.value.group;
      } else {
        groups := groups + [Pending];
      }
      if Member(g, a) !in members { members := members + {Member(g, a)}; }
      if Member(g, b) !in members { members := members + {Member(g, b)}; }
      assert members == old(members) + {Member(g, a), Member(g, b)};
    }

    /** Joins the group of an arbitrary membership row of either event when it is pending, else opens
        one; nothing when the pair is recorded. */
    method AddToGroupOrCreate(a: EventId, b: EventId) returns (group: Option<nat>, ghost action: Action)
      requires Valid()
      modifies this
      ensures Valid() && kept == old(kept)
      ensures action.Record? && action.a == a && action.b == b
      ensures Snapshot() == Apply(old(Snapshot()), action) && Recorded(Contents(), a, b)
      ensures group.None? <==> Recorded(old(Contents()), a, b)
      ensures group.None? ==> Contents() == old(Contents())
      ensures group.Some? ==>
        && IsPending(Contents(), group.value)
        && Member(group.value, a) in members && Member(group.value, b) in members
      ensures old(members) <= members && |old(groups)| <= |groups| <= |old(groups)| + if group.Some? then 1 else 0
    {
      hide Invariant, Recorded, Apply, AddPair;
      ghost var s := Snapshot();
      var touching := Touching(Contents(), a, b);
      var pick: Option<Member> := None;
      if touching != {} {
        var m :| m in touching;
        pick := Some(m);
      }
      action := Record(a, b, pick);
      RecordOutcome(s, a, b, pick);
      edges, standing := edges + {Edge(a, b)}, standing + {Edge(a, b)};
      if Recorded(Contents(), a, b) {
        group := None;
      } else {
        var g := InsertPair(a, b, pick);
        group := Some(g);
      }
      ever := ever + members;
      assert Contents() == AddPair(s.tables, a, b, pick);
    }

    method FindCandidateMatches(c: Catalog, e: EventId) returns (found: seq<EventId>)
      ensures found == Matches(c, blocked, e)
      ensures forall m :: m in found <==> Groupable(c, blocked, m) && m != e && Edge(e, m) in c.similar
    {
      forall m { MatchesIff(c, blocked, e, m); }
      found := [];
      for i := 0 to |c.upcoming|
        invariant found == Filter(CandidateOf(c, blocked, e), c.upcoming[..i])
      {
        assert c.upcoming[..i + 1] == c.upcoming[..i] + [c.upcoming[i]];
        FilterPush(CandidateOf(c, blocked, e), c.upcoming[..i], c.upcoming[i]);
        if Candidate(c, blocked, e, c.upcoming[i]) { found := found + [c.upcoming[i]]; }
      }
      assert c.upcoming[..|c.upcoming|] == c.upcoming;
    }

    method RunFullScan(c: Catalog) returns (log: ScanLog, ghost actions: seq<Action>)
      requires Valid()
      modifies this
      ensures Valid() && kept == old(kept)
      ensures ScanRecords(c, old(blocked), actions) && Snapshot() == Execute(old(Snapshot()), actions)
      ensures Covered(c, old(blocked), Contents())
      ensures log.candidatesFound
           == |set d | d in c.similar && d.a != d.b && Groupable(c, blocked, d.a) && Groupable(c, blocked, d.b)
                 :: {d.a, d.b}|
      ensures old(members) <= members && blocked == old(blocked)
      ensures forall m :: m in members - old(members) ==> WellAdded(c, blocked, m, members)
      ensures 0 <= |groups| - |old(groups)| <= log.groupsCreated <= log.candidatesFound
      ensures Covered(c, old(blocked), old(Contents())) ==> log.groupsCreated == 0 && Contents() == old(Contents())
    {
      hide Invariant, Execute, Apply, ScanRecords, AllRecorded, Recorded, Candidate, Scanned, Matches;
      hide PairsOf, PairsTo, Union, Covered;
      ghost var s0 := Snapshot();
      var seen: set<set<EventId>> := {};
      var found, created := 0, 0;
      actions := [];
      NothingSeen(c, s0);
      assert Union(PairsOf(c, s0.blocked), c.upcoming[..0]) == {} by { NoPairs(c, s0.blocked); }
      for i := 0 to |c.upcoming|
        invariant Progress(c, s0, Snapshot(), actions, seen, created) && found == |seen| && kept == old(kept)
        invariant seen == Union(PairsOf(c, s0.blocked), c.upcoming[..i])
      {
        var e := c.upcoming[i];
        UnionPush(PairsOf(c, s0.blocked), c.upcoming[..i], e);
        PairsEnds(c, s0.blocked, e);
        assert c.upcoming[..i + 1] == c.upcoming[..i] + [e];
        if Scanned(c, blocked, e) {
          var matches := FindCandidateMatches(c, e);
          for k := 0 to |matches|
            invariant Progress(c, s0, Snapshot(), actions, seen, created) && found == |seen| && kept == old(kept)
            invariant seen == Union(PairsOf(c, s0.blocked), c.upcoming[..i]) + PairsTo(c, s0.blocked, e, k)
          {
            PairsPush(c, s0.blocked, e, k);
            MatchIsCandidate(c, s0.blocked, e, k);
            if Pair(e, matches[k]) !in seen {
              ghost var s := Snapshot();
              var group, action := AddToGroupOrCreate(e, matches[k]);
              OnePairFurther(c, s0, s, actions, seen, created, action, Snapshot(), group.Some?);
              actions := actions + [action];
              seen := seen + {Pair(e, matches[k])};
              found := found + 1;
              if group.Some? { created := created + 1; }
            }
          }
        }
      }
      assert c.upcoming[..|c.upcoming|] == c.upcoming;
      log := ScanLog(found, created);
      SeenIsEverything(c, s0.blocked, s0.tables);
      SeenIsEverything(c, s0.blocked, Contents());
      PairsAre(c, s0.blocked);
      ScanAddsOnlyAlike(c, s0, actions);
    }

    /** Scans for one event as it is added or edited. */
    method DetectForEvent(c: Catalog, e: EventId) returns (log: ScanLog, ghost actions: seq<Action>)
      requires Valid()
      modifies this
      ensures Valid() && kept == old(kept)
      ensures Records(c, old(blocked), actions) && Snapshot() == Execute(old(Snapshot()), actions)
      ensures log.candidatesFound == if Detectable(c, old(blocked), e) then |Matches(c, old(blocked), e)| else 0
      ensures AllDetected(c, old(blocked), e, Contents())
      ensures forall m :: m in members - old(members) ==> DetectedFor(c, old(blocked), e, m, members)
      ensures 0 <= |groups| - |old(groups)| <= log.groupsCreated <= log.candidatesFound
      ensures log.groupsCreated == 0 ==> Contents() == old(Contents())
    {
      hide Invariant, Apply, Execute, Records, Recorded, Candidate, Detectable, Matches;
      hide AllDetected, DetectedFor, Groupable, Detecting;
      ghost var s0 := Snapshot();
      var found, created := 0, 0;
      actions := [];
      NothingDetected(c, s0, e);
      if Detectable(c, blocked, e) {
        var matches := FindCandidateMatches(c, e);
        found := |matches|;
        for k := 0 to |matches|
          invariant Valid() && kept == old(kept) && blocked == s0.blocked
          invariant Detecting(c, s0, Snapshot(), actions, e)
          invariant forall m :: m in matches[..k] ==> Recorded(Contents(), e, m)
          invariant 0 <= |groups| - |s0.tables.groups| <= created <= k
          invariant created == 0 ==> Contents() == s0.tables
        {
          ghost var s := Snapshot();
          MatchIsCandidate(c, blocked, e, k);
          var group, action := AddToGroupOrCreate(e, matches[k]);
          DetectedOneMore(c, s0, s, actions, e, action);
          actions := actions + [action];
          RecordBlocksNobody(s, action);
          assert matches[..k + 1] == matches[..k] + [matches[k]];
          forall m | m in matches[..k] ensures Recorded(Contents(), e, m) { RecordedGrows(s.tables, Contents(), e, m); }
          if group.Some? { created := created + 1; }
        }
        assert matches[..|matches|] == matches;
      }
      AllOfDetection(c, s0, Snapshot(), actions, e);
      DetectedAll(c, s0.blocked, e, Contents());
      log := ScanLog(found, created);
    }

    method DismissGroup(g: nat) returns (outcome: Outcome)
      requires Valid()
      modifies this
      ensures Valid() && kept == old(kept)
      ensures Snapshot() == Apply(old(Snapshot()), Dismiss(g))
      ensures outcome == if g < |old(groups)| then Done else GroupNotFound
    {
      ApplyKeepsInvariant(Snapshot(), Dismiss(g));
      if g >= |groups| { return GroupNotFound; }
      groups := groups[g := Dismissed];
      return Done;
    }

    /** The flush hook of a newly removed event: it leaves every pending group. */
    method WithdrawEvent(e: EventId)
      modifies this`groups, this`members
      ensures Contents() == Withdraw(old(Contents()), e)
    {
      ghost var t := Contents();
      for g := 0 to |groups|
        invariant |groups| == |t.groups|
        invariant forall h :: 0 <= h < g ==> groups[h] == Withdraw(t, e).groups[h]
        invariant forall h :: g <= h < |groups| ==> groups[h] == t.groups[h]
        invariant members == set m | m in t.members && !(m.event == e && m.group < g && IsPending(t, m.group))
      {
        if groups[g] == Pending && Member(g, e) in members {
          var others := OthersIn(Contents(), g, e);
          assert others == OthersIn(t, g, e);
          members := members - {Member(g, e)};
          if |others| < 2 { groups := groups[g := Dismissed]; }
        }
      }
      assert groups == Withdraw(t, e).groups;
    }

    /** Sets the removed status; the hook runs when that is a change. */
    method TakeOff(e: EventId)
      modifies this`groups, this`members, this`removed, this`withdrawn, this`standing
      ensures Snapshot() == RemoveEvent(old(Snapshot()), e)
    {
      if e !in removed {
        WithdrawEvent(e);
        removed, withdrawn, standing := removed + {e}, withdrawn + {e}, Apart(standing, e);
      }
    }

    /** A removal from anywhere: the sync, the owner, a review, or an admin, who may block it as well. */
    method RemoveFromListing(e: EventId, block: bool)
      requires Valid()
      modifies this
      ensures Valid() && kept == old(kept) && Snapshot() == Apply(old(Snapshot()), Remove(e, block))
    {
      hide Invariant, Withdraw;
      ApplyKeepsInvariant(Snapshot(), Remove(e, block));
      assert blocked + {} == blocked;
      if block { blocked := blocked + {e}; }
      TakeOff(e);
    }

    /** The next sync undoes its own deletion; an admin takes an event out of the trash and unblocks it. */
    method RestoreToListing(e: EventId, unblock: bool)
      requires Valid()
      modifies this
      ensures Valid() && kept == old(kept) && Snapshot() == Apply(old(Snapshot()), Restore(e, unblock))
    {
      hide Invariant;
      ApplyKeepsInvariant(Snapshot(), Restore(e, unblock));
      assert blocked - {} == blocked;
      if unblock { blocked := blocked - {e}; }
      removed := removed - {e};
    }

    /** A group made by hand: always a new one, whatever was decided before. */
    method CreateManualGroup(events: seq<EventId>) returns (group: nat)
      requires Valid()
      modifies this
      ensures Valid() && kept == old(kept) && Snapshot() == Apply(old(Snapshot()), Flag(events))
      ensures group == |old(groups)|
    {
      hide Invariant;
      ApplyKeepsInvariant(Snapshot(), Flag(events));
      group := |groups|;
      ghost var t := Contents();
      groups := groups + [Pending];
      for i := 0 to |events|
        invariant groups == t.groups + [Pending] && members == t.members + FlagMembers(group, events[..i])
        invariant Snapshot() == old(Snapshot()).(tables := Contents()) && kept == old(kept)
      {
        assert events[..i + 1] == events[..i] + [events[i]];
        assert FlagMembers(group, events[..i + 1]) == FlagMembers(group, events[..i]) + {Member(group, events[i])};
        members := members + {Member(group, events[i])};
      }
      assert events[..|events|] == events;
      edges, standing := edges + FlagEdges(events), standing + FlagEdges(events);
      ever := ever + FlagMembers(group, events);
    }

    /** Keeps one member of a group and removes and blocks the others whose event still exists. */
    method KeepEvent(g: nat, e: EventId, existing: set<EventId>) returns (outcome: Outcome, ghost losers: seq<EventId>)
      requires Valid()
      modifies this
      ensures Valid()
      ensures outcome == if g >= |old(groups)| then GroupNotFound
                         else if Member(g, e) !in old(members) then NotAMember else Done
      ensures outcome != Done ==> Snapshot() == old(Snapshot()) && kept == old(kept)
      ensures outcome == Done ==>
        && Snapshot() == Apply(old(Snapshot()), Keep(g, e, losers)) && kept == old(kept)[g := e]
        && (forall l :: l in losers <==> l in existing && l != e && Member(g, l) in old(members))
        && (forall l :: l in losers ==> l in blocked && l in removed)
    {
      hide Invariant, Withdraw, Apart, RemoveEvents, RemoveEvent;
      losers := [];
      if g >= |groups| { return GroupNotFound, []; }
      var rest := set m | m in members && m.group == g :: m.event;
      if e !in rest { return NotAMember, []; }
      groups := groups[g := Resolved];
      kept := kept[g := e];
      rest := (rest - {e}) * existing;
      ghost var s, all := Snapshot(), rest;
      NothingRemoved(s);
      while rest != {}
        invariant rest <= all && kept == old(kept)[g := e]
        invariant Snapshot() == RemoveEvents(s, losers)
        invariant forall l :: l in losers <==> l in all - rest
      {
        var l :| l in rest;
        RemoveEventsPush(s, losers, l);
        blocked := blocked + {l};
        TakeOff(l);
        losers := losers + [l];
        rest := rest - {l};
      }
      ApplyKeepsInvariant(old(Snapshot()), Keep(g, e, losers));
      RemovalTrashes(s, losers);
      RemovalBlocks(s, losers);
      return Done, losers;
    }
  }
}
