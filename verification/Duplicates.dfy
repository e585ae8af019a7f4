/** Duplicate groups: pairs are recorded one by one in overlapping groups, joining an arbitrary
    existing group of either event. The groups still describe the connected components. */
module Duplicates {
  import opened Options
  import opened OrderedGroups

  type EventId = string

  // ------------------------------------------------------------------ tables

  datatype Status = Pending | Resolved | Dismissed

  datatype Member = Member(group: nat, event: EventId)

  /** Groups by id (their position) and the membership rows. */
  datatype Tables = Tables(groups: seq<Status>, members: set<Member>) {
    ghost predicate Valid() { forall m :: m in members ==> m.group < |groups| }
  }

  const EMPTY := Tables([], {})

  function GroupsOf(t: Tables, e: EventId): set<nat> { set m | m in t.members && m.event == e :: m.group }

  /** The pair co-occurs in some group, whatever that group's status. */
  predicate Recorded(t: Tables, a: EventId, b: EventId) { GroupsOf(t, a) * GroupsOf(t, b) != {} }

  function Touching(t: Tables, a: EventId, b: EventId): set<Member> {
    set m | m in t.members && (m.event == a || m.event == b)
  }

  /** What `.first()` may return: any membership row of either event, or nothing when there is none. */
  predicate MayPick(t: Tables, a: EventId, b: EventId, pick: Option<Member>) {
    if pick.Some? then pick.value in Touching(t, a, b) else Touching(t, a, b) == {}
  }

  /** Records the pair unless it is recorded: in the picked group when that is pending, else in a new one. */
  function AddPair(t: Tables, a: EventId, b: EventId, pick: Option<Member>): Tables {
    if Recorded(t, a, b) then t
    else if pick.Some? && pick.value.group < |t.groups| && t.groups[pick.value.group] == Pending then
      t.(members := t.members + {Member(pick.value.group, a), Member(pick.value.group, b)})
    else
      Tables(t.groups + [Pending], t.members + {Member(|t.groups|, a), Member(|t.groups|, b)})
  }

  // ------------------------------------------------------------------ connectedness

  type Relation = (EventId, EventId) -> bool

  ghost predicate Chain(r: Relation, p: seq<EventId>) {
    p != [] && forall i, j :: 0 <= i < j < |p| && j == i + 1 ==> r(p[i], p[j])
  }

  /** The equivalence closure of a symmetric relation. */
  ghost predicate Joined(r: Relation, x: EventId, y: EventId) {
    exists p :: Chain(r, p) && p[0] == x && p[|p| - 1] == y
  }

  datatype Edge = Edge(a: EventId, b: EventId)

  function Linked(edges: set<Edge>): Relation { (x, y) => Edge(x, y) in edges || Edge(y, x) in edges }

  function Shares(t: Tables): Relation { (x, y) => Recorded(t, x, y) }

  function LinkedWithin(edges: set<Edge>, t: Tables, g: nat): Relation {
    (x, y) => (Edge(x, y) in edges || Edge(y, x) in edges) && Member(g, x) in t.members && Member(g, y) in t.members
  }

  ghost predicate Symmetric(r: Relation) { forall x, y :: r(x, y) ==> r(y, x) }

  ghost predicate Below(r: Relation, q: Relation) { forall x, y :: r(x, y) ==> q(x, y) }

  lemma JoinedSelf(r: Relation, x: EventId)
    ensures Joined(r, x, x)
  {
    assert Chain(r, [x]);
  }

  lemma JoinedOne(r: Relation, x: EventId, y: EventId)
    requires r(x, y)
    ensures Joined(r, x, y)
  {
    assert Chain(r, [x, y]) && [x, y][0] == x && [x, y][|[x, y]| - 1] == y;
  }

  lemma JoinedTrans(r: Relation, x: EventId, y: EventId, z: EventId)
    requires Joined(r, x, y) && Joined(r, y, z)
    ensures Joined(r, x, z)
  {
    var p :| Chain(r, p) && p[0] == x && p[|p| - 1] == y;
    var q :| Chain(r, q) && q[0] == y && q[|q| - 1] == z;
    var c := p + q[1..];
    forall i, j | 0 <= i < j < |c| && j == i + 1 ensures r(c[i], c[j]) {
      if j < |p| {
        assert r(p[i], p[j]);
      } else {
        assert r(q[j - |p|], q[j - |p| + 1]);
      }
    }
    assert Chain(r, c) && c[0] == x && c[|c| - 1] == z;
  }

  lemma JoinedSym(r: Relation, x: EventId, y: EventId)
    requires Symmetric(r) && Joined(r, x, y)
    ensures Joined(r, y, x)
  {
    var p :| Chain(r, p) && p[0] == x && p[|p| - 1] == y;
    var c := seq(|p|, i requires 0 <= i < |p| => p[|p| - 1 - i]);
    forall i, j | 0 <= i < j < |c| && j == i + 1 ensures r(c[i], c[j]) {
      assert r(p[|p| - 1 - j], p[|p| - 1 - i]);
    }
    assert Chain(r, c);
  }

  lemma JoinedBelow(r: Relation, q: Relation, x: EventId, y: EventId)
    requires Below(r, q) && Joined(r, x, y)
    ensures Joined(q, x, y)
  {
    var p :| Chain(r, p) && p[0] == x && p[|p| - 1] == y;
    assert Chain(q, p);
  }

  /** If every single link of `r` joins in `q`, so does every chain. */
  lemma {:induction false} ChainJoins(r: Relation, q: Relation, p: seq<EventId>)
    requires Chain(r, p) && forall x, y :: r(x, y) ==> Joined(q, x, y)
    ensures Joined(q, p[0], p[|p| - 1])
  {
    if |p| == 1 {
      JoinedSelf(q, p[0]);
    } else {
      var n := |p| - 1;
      var init := p[..n];
      forall i, j | 0 <= i < j < |init| && j == i + 1 ensures r(init[i], init[j]) { assert r(p[i], p[j]); }
      ChainJoins(r, q, init);
      assert r(p[n - 1], p[n]);
      JoinedTrans(q, p[0], p[n - 1], p[n]);
    }
  }

  // ------------------------------------------------------------------ the invariant

  /** Every recorded edge lies inside some group, and every group is connected through edges of its
      own members. */
  ghost predicate Components(t: Tables, edges: set<Edge>) {
    && t.Valid()
    && (forall e :: e in edges ==> Recorded(t, e.a, e.b))
    && (forall g, x, y :: Member(g, x) in t.members && Member(g, y) in t.members ==>
          Joined(LinkedWithin(edges, t, g), x, y))
  }

  lemma SharedGroup(t: Tables, a: EventId, b: EventId) returns (g: nat)
    requires Recorded(t, a, b)
    ensures Member(g, a) in t.members && Member(g, b) in t.members
  {
    g :| g in GroupsOf(t, a) * GroupsOf(t, b);
    var m :| m in t.members && m.event == a && m.group == g;
    var n :| n in t.members && n.event == b && n.group == g;
    assert m == Member(g, a) && n == Member(g, b);
  }

  lemma SharingRecords(t: Tables, g: nat, a: EventId, b: EventId)
    requires Member(g, a) in t.members && Member(g, b) in t.members
    ensures Recorded(t, a, b)
  {
    assert g in GroupsOf(t, a) && g in GroupsOf(t, b);
    assert g in GroupsOf(t, a) * GroupsOf(t, b);
  }

  /** The groups describe exactly the connected components of the recorded match edges. */
  lemma ComponentsAgree(t: Tables, edges: set<Edge>, x: EventId, y: EventId)
    requires Components(t, edges)
    ensures Joined(Shares(t), x, y) <==> Joined(Linked(edges), x, y)
  {
    if Joined(Linked(edges), x, y) {
      forall a, b | Linked(edges)(a, b) ensures Shares(t)(a, b) {
        if Edge(a, b) in edges { assert Recorded(t, a, b); } else { assert Recorded(t, Edge(b, a).a, Edge(b, a).b); }
      }
      JoinedBelow(Linked(edges), Shares(t), x, y);
    }
    if Joined(Shares(t), x, y) {
      forall a, b | Shares(t)(a, b) ensures Joined(Linked(edges), a, b) {
        var g := SharedGroup(t, a, b);
        JoinedBelow(LinkedWithin(edges, t, g), Linked(edges), a, b);
      }
      var p :| Chain(Shares(t), p) && p[0] == x && p[|p| - 1] == y;
      ChainJoins(Shares(t), Linked(edges), p);
    }
  }

  // ------------------------------------------------------------------ recording a pair

  lemma RecordedGrows(t: Tables, t': Tables, a: EventId, b: EventId)
    requires t.members <= t'.members && Recorded(t, a, b)
    ensures Recorded(t', a, b)
  {
    var g := SharedGroup(t, a, b);
    SharingRecords(t', g, a, b);
  }

  lemma AddPairRecords(t: Tables, a: EventId, b: EventId, pick: Option<Member>)
    requires t.Valid()
    ensures var t' := AddPair(t, a, b, pick);
      t'.Valid() && t.members <= t'.members && |t.groups| <= |t'.groups| && Recorded(t', a, b)
  {
    var t' := AddPair(t, a, b, pick);
    if !Recorded(t, a, b) {
      var g: nat :| Member(g, a) in t'.members && Member(g, b) in t'.members;
      SharingRecords(t', g, a, b);
    }
  }

  /** Two old members of a group stay joined inside it as rows and edges are added. */
  lemma StillJoined(t: Tables, edges: set<Edge>, t': Tables, edges': set<Edge>, g: nat, x: EventId, y: EventId)
    requires Components(t, edges) && t.members <= t'.members && edges <= edges'
    requires Member(g, x) in t.members && Member(g, y) in t.members
    ensures Joined(LinkedWithin(edges', t', g), x, y)
  {
    JoinedBelow(LinkedWithin(edges, t, g), LinkedWithin(edges', t', g), x, y);
  }

  /** Every member of the group the pair went to is joined to `hub`, one of the pair. */
  lemma JoinedToHub(t: Tables, edges: set<Edge>, a: EventId, b: EventId, g: nat, hub: EventId, x: EventId)
    requires Components(t, edges) && (hub == a || hub == b)
    requires Member(g, hub) in t.members || (forall m :: m in t.members ==> m.group != g)
    requires Member(g, x) in t.members || x == a || x == b
    ensures var t' := t.(members := t.members + {Member(g, a), Member(g, b)});
      Joined(LinkedWithin(edges + {Edge(a, b)}, t', g), x, hub)
  {
    var t' := t.(members := t.members + {Member(g, a), Member(g, b)});
    var r := LinkedWithin(edges + {Edge(a, b)}, t', g);
    if x == hub {
      JoinedSelf(r, x);
    } else if x == a || x == b {
      JoinedOne(r, x, hub);
    } else {
      StillJoined(t, edges, t', edges + {Edge(a, b)}, g, x, hub);
    }
  }

  lemma GroupStaysJoined(t: Tables, edges: set<Edge>, a: EventId, b: EventId, g: nat, hub: EventId, x: EventId,
                         y: EventId)
    requires Components(t, edges) && (hub == a || hub == b)
    requires Member(g, hub) in t.members || (forall m :: m in t.members ==> m.group != g)
    requires Member(g, x) in t.members || x == a || x == b
    requires Member(g, y) in t.members || y == a || y == b
    ensures var t' := t.(members := t.members + {Member(g, a), Member(g, b)});
      Joined(LinkedWithin(edges + {Edge(a, b)}, t', g), x, y)
  {
    var r := LinkedWithin(edges + {Edge(a, b)}, t.(members := t.members + {Member(g, a), Member(g, b)}), g);
    JoinedToHub(t, edges, a, b, g, hub, x);
    JoinedToHub(t, edges, a, b, g, hub, y);
    JoinedSym(r, y, hub);
    JoinedTrans(r, x, hub, y);
  }

  // ------------------------------------------------------------------ all histories

  /** The store between two actions. `removed` events are in the trash now; the rest is bookkeeping for
      the proofs: `withdrawn` events have been there at some time, `edges` are the pairs ever put to the
      tables, `standing` those put there since either event was last removed, `ever` the membership
      rows that ever existed. */
  datatype State = State(
    tables: Tables, removed: set<EventId>, blocked: set<EventId>,
    withdrawn: set<EventId>, edges: set<Edge>, standing: set<Edge>, ever: set<Member>)

  const INITIAL := State(EMPTY, {}, {}, {}, {}, {}, {})

  /** Everything that writes the tables. `pick` is the row `.first()` happened to return, `losers` the
      other members of the kept event's group that still exist, in the order they were gone through.
      Removals come from the sync, the owner, a review or an admin, and only some of them block; a
      restored event may be unblocked with it. */
  datatype Action =
    | Record(a: EventId, b: EventId, pick: Option<Member>)
    | Flag(events: seq<EventId>)
    | Dismiss(group: nat)
    | Resolve(group: nat)
    | Keep(group: nat, event: EventId, losers: seq<EventId>)
    | Remove(gone: EventId, block: bool)
    | Restore(back: EventId, unblock: bool)

  function SetStatus(t: Tables, g: nat, status: Status): Tables
    requires g < |t.groups|
  {
    t.(groups := t.groups[g := status])
  }

  predicate IsPending(t: Tables, g: nat) { g < |t.groups| && t.groups[g] == Pending }

  function OthersIn(t: Tables, g: nat, e: EventId): set<Member> {
    set m | m in t.members && m.group == g && m.event != e
  }

  /** A newly removed event leaves every pending group; a group left with fewer than two members is
      dismissed. */
  function Withdraw(t: Tables, e: EventId): Tables {
    Tables(
      seq(|t.groups|, g requires 0 <= g < |t.groups| =>
        if t.groups[g] == Pending && Member(g, e) in t.members && |OthersIn(t, g, e)| < 2 then Dismissed
        else t.groups[g]),
      set m | m in t.members && !(m.event == e && IsPending(t, m.group)))
  }

  function Apart(edges: set<Edge>, e: EventId): set<Edge> { set d | d in edges && d.a != e && d.b != e }

  function RemoveEvent(s: State, e: EventId): State {
    if e in s.removed then s else
      s.(tables := Withdraw(s.tables, e), removed := s.removed + {e}, withdrawn := s.withdrawn + {e},
         standing := Apart(s.standing, e))
  }

  function RemoveEvents(s: State, losers: seq<EventId>): State {
    if losers == [] then s else
      var n := |losers| - 1;
      var before := RemoveEvents(s, losers[..n]);
      RemoveEvent(before.(blocked := before.blocked + {losers[n]}), losers[n])
  }

  predicate MayKeep(t: Tables, g: nat, e: EventId, losers: seq<EventId>) {
    && g < |t.groups| && Member(g, e) in t.members
    && forall l :: l in losers ==> l != e && Member(g, l) in t.members
  }

  function AfterRecord(s: State, a: EventId, b: EventId, pick: Option<Member>): State {
    var t' := AddPair(s.tables, a, b, pick);
    s.(tables := t', edges := s.edges + {Edge(a, b)}, standing := s.standing + {Edge(a, b)},
       ever := s.ever + t'.members)
  }

  function FlagMembers(g: nat, events: seq<EventId>): set<Member> { set e | e in events :: Member(g, e) }

  function FlagEdges(events: seq<EventId>): set<Edge> { set e | e in events :: Edge(events[0], e) }

  /** A group made by hand is always a new one. */
  function AfterFlag(s: State, events: seq<EventId>): State {
    var g := |s.tables.groups|;
    s.(tables := Tables(s.tables.groups + [Pending], s.tables.members + FlagMembers(g, events)),
       edges := s.edges + FlagEdges(events), standing := s.standing + FlagEdges(events),
       ever := s.ever + FlagMembers(g, events))
  }

  function Apply(s: State, action: Action): State {
    match action
    case Record(a, b, pick) => if MayPick(s.tables, a, b, pick) then AfterRecord(s, a, b, pick) else s
    case Flag(events) => AfterFlag(s, events)
    case Dismiss(g) => if g < |s.tables.groups| then s.(tables := SetStatus(s.tables, g, Dismissed)) else s
    case Resolve(g) => if IsPending(s.tables, g) then s.(tables := SetStatus(s.tables, g, Resolved)) else s
    case Keep(g, e, losers) =>
      if MayKeep(s.tables, g, e, losers) then RemoveEvents(s.(tables := SetStatus(s.tables, g, Resolved)), losers)
      else s
    case Remove(e, block) => RemoveEvent(s.(blocked := s.blocked + if block then {e} else {}), e)
    case Restore(e, unblock) =>
      s.(removed := s.removed - {e}, blocked := s.blocked - if unblock then {e} else {})
  }

  function Execute(s: State, actions: seq<Action>): State {
    if actions == [] then s else
      var n := |actions| - 1;
      Apply(Execute(s, actions[..n]), actions[n])
  }

  // ------------------------------------------------------------------ row by row

  /** Where a pair goes: nowhere when a group has both; else into the group of the row found first, if that is
      pending, and into a new one otherwise, which is also where it goes when neither has a row. */
  lemma PairGoesTo(t: Tables, a: EventId, b: EventId, pick: Option<Member>)
    requires MayPick(t, a, b, pick)
    ensures pick.Some? <==> exists m :: m in t.members && (m.event == a || m.event == b)
    ensures pick.Some? ==> pick.value in t.members && (pick.value.event == a || pick.value.event == b)
    ensures var t' := AddPair(t, a, b, pick);
      if exists m :: m in t.members && m.event == a && Member(m.group, b) in t.members then t' == t
      else if pick.Some? && pick.value.group < |t.groups| && t.groups[pick.value.group] == Pending then
        t' == Tables(t.groups, t.members + {Member(pick.value.group, a), Member(pick.value.group, b)})
      else
        t' == Tables(t.groups + [Pending], t.members + {Member(|t.groups|, a), Member(|t.groups|, b)})
  {
    if m :| m in t.members && (m.event == a || m.event == b) { assert m in Touching(t, a, b); }
    if pick.None? { assert forall m :: m in t.members ==> m !in Touching(t, a, b); }
    if m :| m in t.members && m.event == a && Member(m.group, b) in t.members {
      assert m.group in GroupsOf(t, a);
      assert Member(m.group, b).event == b && m.group in GroupsOf(t, b);
      assert m.group in GroupsOf(t, a) * GroupsOf(t, b);
    }
    if Recorded(t, a, b) {
      var g :| g in GroupsOf(t, a) * GroupsOf(t, b);
      var m :| m in t.members && m.event == a && m.group == g;
      var n :| n in t.members && n.event == b && n.group == g;
      assert n == Member(m.group, b);
    }
  }

  /** What the removal hook does: the event's rows go from pending groups only, and a pending group of it with
      at most one other event is dismissed; nothing else changes. */
  lemma WithdrawIs(t: Tables, e: EventId)
    ensures var t' := Withdraw(t, e);
      && (forall m :: m in t'.members <==>
            m in t.members && (m.event == e ==> m.group >= |t.groups| || t.groups[m.group] != Pending))
      && |t'.groups| == |t.groups|
      && forall g :: 0 <= g < |t.groups| ==>
           var others := set m | m in t.members && m.group == g && m.event != e :: m.event;
           t'.groups[g] == if t.groups[g] == Pending && Member(g, e) in t.members && |others| <= 1 then Dismissed
                           else t.groups[g]
  {
    forall g | 0 <= g < |t.groups|
      ensures |OthersIn(t, g, e)| == |set m | m in t.members && m.group == g && m.event != e :: m.event| {
      EventsAsMembers(g, OthersIn(t, g, e));
      assert (set m | m in t.members && m.group == g && m.event != e :: m.event)
          == set m | m in OthersIn(t, g, e) :: m.event;
    }
  }

  /** The rows of one group are as many as their events. */
  lemma {:induction false} EventsAsMembers(g: nat, members: set<Member>)
    requires forall m :: m in members ==> m.group == g
    ensures |members| == |set m | m in members :: m.event|
  {
    if members != {} {
      var m :| m in members;
      EventsAsMembers(g, members - {m});
      assert (set k | k in members :: k.event) == (set k | k in members - {m} :: k.event) + {m.event};
    }
  }

  /** What an admin decides about a group, and that a decision about something that is not there does nothing:
      keeping one member resolves the group and takes off and blocks the others named, who must be members. */
  lemma DecisionsAre(s: State, g: nat, e: EventId, losers: seq<EventId>)
    ensures Apply(s, Dismiss(g)) == if g < |s.tables.groups| then
      s.(tables := Tables(s.tables.groups[g := Dismissed], s.tables.members)) else s
    ensures Apply(s, Resolve(g)) == if g < |s.tables.groups| && s.tables.groups[g] == Pending then
      s.(tables := Tables(s.tables.groups[g := Resolved], s.tables.members)) else s
    ensures var s', among := Apply(s, Keep(g, e, losers)), set l | l in losers;
      if g < |s.tables.groups| && Member(g, e) in s.tables.members
         && forall l :: l in losers ==> l != e && Member(g, l) in s.tables.members
      then
        && s'.removed == s.removed + among && s'.blocked == s.blocked + among
        && |s'.tables.groups| == |s.tables.groups| && s'.tables.groups[g] == Resolved
        && s'.tables.members <= s.tables.members
        && (forall m :: m in s.tables.members - s'.tables.members ==> m.event in among && m.group != g)
      else s' == s
  {
    if MayKeep(s.tables, g, e, losers) {
      KeptOnes(s.(tables := SetStatus(s.tables, g, Resolved)), losers, g);
    }
  }

  lemma {:induction false} KeptOnes(s: State, losers: seq<EventId>, g: nat)
    requires g < |s.tables.groups| && s.tables.groups[g] == Resolved
    ensures var s', among := RemoveEvents(s, losers), set l | l in losers;
      && s'.removed == s.removed + among && s'.blocked == s.blocked + among
      && |s'.tables.groups| == |s.tables.groups| && s'.tables.groups[g] == Resolved
      && s'.tables.members <= s.tables.members
      && (forall m :: m in s.tables.members - s'.tables.members ==> m.event in among && m.group != g)
  {
    if losers != [] {
      var n := |losers| - 1;
      assert losers == losers[..n] + [losers[n]];
      KeptOnes(s, losers[..n], g);
      WithdrawIs(RemoveEvents(s, losers[..n]).tables, losers[n]);
      hide Withdraw;
    }
  }

  function History(s: State): Tables { s.tables.(members := s.ever) }

  ghost predicate AllRecordedIn(t: Tables, edges: set<Edge>) { forall e :: e in edges ==> Recorded(t, e.a, e.b) }

  /** The membership rows that ever existed describe the components of all edges; the standing edges lie
      inside groups now; only events once removed ever lost a row or a standing edge. */
  ghost predicate Invariant(s: State) {
    && Components(History(s), s.edges)
    && s.tables.members <= s.ever && s.standing <= s.edges
    && AllRecordedIn(s.tables, s.standing)
    && (forall m :: m in s.ever - s.tables.members ==> m.event in s.withdrawn)
    && (forall e :: e in s.edges - s.standing ==> e.a in s.withdrawn || e.b in s.withdrawn)
  }

  lemma StandingGrows(t: Tables, t': Tables, edges: set<Edge>)
    requires AllRecordedIn(t, edges) && t.members <= t'.members
    ensures AllRecordedIn(t', edges)
  {
    forall e | e in edges ensures Recorded(t', e.a, e.b) { RecordedGrows(t, t', e.a, e.b); }
  }

  /** Whichever row `.first()` returns, recording a pair keeps the groups equal to the components. */
  lemma RecordKeepsInvariant(s: State, a: EventId, b: EventId, pick: Option<Member>)
    requires Invariant(s) && MayPick(s.tables, a, b, pick)
    ensures Invariant(AfterRecord(s, a, b, pick))
  {
    var s' := AfterRecord(s, a, b, pick);
    var t, t', h, h' := s.tables, s'.tables, History(s), History(s');
    forall m | m in t.members ensures m.group < |t.groups| { assert m in h.members; }
    AddPairRecords(t, a, b, pick);
    RecordedGrows(t', h', a, b);
    StandingGrows(t, t', s.standing);
    forall e | e in s'.edges ensures Recorded(h', e.a, e.b) {
      if e in s.edges { RecordedGrows(h, h', e.a, e.b); }
    }
    var joins := pick.Some? && IsPending(t, pick.value.group);
    var g0, hub := if joins then pick.value.group else |t.groups|, if joins then pick.value.event else a;
    forall g, x, y | Member(g, x) in h'.members && Member(g, y) in h'.members
      ensures Joined(LinkedWithin(s'.edges, h', g), x, y)
    {
      if g == g0 && !Recorded(t, a, b) {
        if joins { assert pick.value == Member(g0, hub); }
        GroupStaysJoined(h, s.edges, a, b, g, hub, x, y);
        SameMembers(h, h', a, b, g0, s'.edges, x, y);
      } else {
        StillJoined(h, s.edges, h', s'.edges, g, x, y);
      }
    }
  }

  lemma SameMembers(t: Tables, t': Tables, a: EventId, b: EventId, g: nat, edges: set<Edge>, x: EventId, y: EventId)
    requires t'.members == t.members + {Member(g, a), Member(g, b)}
    requires Joined(LinkedWithin(edges, t.(members := t.members + {Member(g, a), Member(g, b)}), g), x, y)
    ensures Joined(LinkedWithin(edges, t', g), x, y)
  {
    JoinedBelow(LinkedWithin(edges, t.(members := t.members + {Member(g, a), Member(g, b)}), g),
                LinkedWithin(edges, t', g), x, y);
  }

  /** Components look at membership rows only, not at statuses. */
  lemma StatusIsIrrelevant(t: Tables, t': Tables, edges: set<Edge>)
    requires Components(t, edges) && t'.members == t.members && |t'.groups| == |t.groups|
    ensures Components(t', edges)
  {
    forall e | e in edges ensures Recorded(t', e.a, e.b) { RecordedGrows(t, t', e.a, e.b); }
    forall h, x, y | Member(h, x) in t'.members && Member(h, y) in t'.members
      ensures Joined(LinkedWithin(edges, t', h), x, y)
    {
      StillJoined(t, edges, t', edges, h, x, y);
    }
  }

  /** A flagged group hangs together by its first event. */
  lemma FlagKeepsInvariant(s: State, events: seq<EventId>)
    requires Invariant(s)
    ensures Invariant(AfterFlag(s, events))
  {
    var s' := AfterFlag(s, events);
    var h, h', g0 := History(s), History(s'), |s.tables.groups|;
    StandingGrows(s.tables, s'.tables, s.standing);
    forall e | e in FlagEdges(events) ensures Recorded(s'.tables, e.a, e.b) && Recorded(h', e.a, e.b) {
      assert Member(g0, e.a) in FlagMembers(g0, events) && Member(g0, e.b) in FlagMembers(g0, events);
      SharingRecords(s'.tables, g0, e.a, e.b);
      SharingRecords(h', g0, e.a, e.b);
    }
    forall e | e in s.edges ensures Recorded(h', e.a, e.b) { RecordedGrows(h, h', e.a, e.b); }
    forall g, x, y | Member(g, x) in h'.members && Member(g, y) in h'.members
      ensures Joined(LinkedWithin(s'.edges, h', g), x, y)
    {
      if g == g0 {
        FlaggedTogether(s'.edges, h', g0, events, x, y);
      } else {
        StillJoined(h, s.edges, h', s'.edges, g, x, y);
      }
    }
  }

  lemma FlaggedTogether(edges: set<Edge>, t: Tables, g: nat, events: seq<EventId>, x: EventId, y: EventId)
    requires x in events && y in events && FlagEdges(events) <= edges && FlagMembers(g, events) <= t.members
    ensures Joined(LinkedWithin(edges, t, g), x, y)
  {
    var r, hub := LinkedWithin(edges, t, g), events[0];
    forall z | z in events ensures r(z, hub) && r(hub, z) {
      assert Edge(hub, z) in FlagEdges(events);
      assert Member(g, z) in FlagMembers(g, events) && Member(g, hub) in FlagMembers(g, events);
    }
    JoinedOne(r, x, hub);
    JoinedOne(r, hub, y);
    JoinedTrans(r, x, hub, y);
  }

  lemma WithdrawKeepsStanding(t: Tables, e: EventId, edges: set<Edge>)
    requires AllRecordedIn(t, edges)
    ensures AllRecordedIn(Withdraw(t, e), Apart(edges, e))
  {
    forall d | d in Apart(edges, e) ensures Recorded(Withdraw(t, e), d.a, d.b) {
      var g := SharedGroup(t, d.a, d.b);
      SharingRecords(Withdraw(t, e), g, d.a, d.b);
    }
  }

  lemma RemoveKeepsInvariant(s: State, e: EventId)
    requires Invariant(s)
    ensures Invariant(RemoveEvent(s, e))
  {
    StatusIsIrrelevant(History(s), History(RemoveEvent(s, e)), s.edges);
    WithdrawKeepsStanding(s.tables, e, s.standing);
  }

  /** Removing events loses only rows of removed events. */
  lemma {:induction false} RemovalKeepsInvariant(s: State, losers: seq<EventId>)
    requires Invariant(s)
    ensures var s' := RemoveEvents(s, losers);
      && Invariant(s') && s'.edges == s.edges && s'.ever == s.ever
      && (forall m :: m in s.tables.members - s'.tables.members ==> m.event in losers)
  {
    if losers != [] {
      var n := |losers| - 1;
      RemovalKeepsInvariant(s, losers[..n]);
      var before := RemoveEvents(s, losers[..n]);
      RemoveKeepsInvariant(before.(blocked := before.blocked + {losers[n]}), losers[n]);
      assert losers == losers[..n] + [losers[n]];
    }
  }

  lemma StatusKeepsInvariant(s: State, g: nat, status: Status)
    requires Invariant(s) && g < |s.tables.groups|
    ensures Invariant(s.(tables := SetStatus(s.tables, g, status)))
  {
    var s' := s.(tables := SetStatus(s.tables, g, status));
    StatusIsIrrelevant(History(s), History(s'), s.edges);
    StandingGrows(s.tables, s'.tables, s.standing);
  }

  lemma ApplyKeepsInvariant(s: State, action: Action)
    requires Invariant(s)
    ensures Invariant(Apply(s, action))
    ensures !action.Keep? && !action.Remove? ==> Apply(s, action).withdrawn == s.withdrawn
  {
    hide Invariant, Withdraw, AddPair;
    match action
    case Record(a, b, pick) => if MayPick(s.tables, a, b, pick) { RecordKeepsInvariant(s, a, b, pick); }
    case Flag(events) => FlagKeepsInvariant(s, events);
    case Dismiss(g) => if g < |s.tables.groups| { StatusKeepsInvariant(s, g, Dismissed); }
    case Resolve(g) => if IsPending(s.tables, g) { StatusKeepsInvariant(s, g, Resolved); }
    case Keep(g, e, losers) =>
      if MayKeep(s.tables, g, e, losers) {
        StatusKeepsInvariant(s, g, Resolved);
        RemovalKeepsInvariant(s.(tables := SetStatus(s.tables, g, Resolved)), losers);
      }
    case Remove(e, block) =>
      TrashIsIrrelevant(s, s.removed, s.blocked + if block then {e} else {});
      RemoveKeepsInvariant(s.(blocked := s.blocked + if block then {e} else {}), e);
    case Restore(e, unblock) =>
      TrashIsIrrelevant(s, s.removed - {e}, s.blocked - if unblock then {e} else {});
  }

  lemma TrashIsIrrelevant(s: State, removed: set<EventId>, blocked: set<EventId>)
    requires Invariant(s)
    ensures Invariant(s.(removed := removed, blocked := blocked))
  {
  }

  lemma RecordOutcome(s: State, a: EventId, b: EventId, pick: Option<Member>)
    requires Invariant(s) && MayPick(s.tables, a, b, pick)
    ensures var s' := Apply(s, Record(a, b, pick));
      && Invariant(s') && Recorded(s'.tables, a, b)
      && s' == AfterRecord(s, a, b, pick) && s'.tables == AddPair(s.tables, a, b, pick)
    ensures Recorded(s.tables, a, b) ==> AddPair(s.tables, a, b, pick) == s.tables
  {
    forall m | m in s.tables.members ensures m.group < |s.tables.groups| { assert m in History(s).members; }
    AddPairRecords(s.tables, a, b, pick);
    RecordKeepsInvariant(s, a, b, pick);
  }

  predicate Removes(action: Action) { action.Keep? || action.Remove? }

  lemma {:induction false} ExecuteKeepsInvariant(s: State, actions: seq<Action>)
    requires Invariant(s)
    ensures Invariant(Execute(s, actions))
    ensures (forall action :: action in actions ==> !Removes(action)) ==> Execute(s, actions).withdrawn == s.withdrawn
  {
    hide Invariant, Apply;
    if actions != [] {
      var n := |actions| - 1;
      ExecuteKeepsInvariant(s, actions[..n]);
      ApplyKeepsInvariant(Execute(s, actions[..n]), actions[n]);
      assert actions[n] in actions;
      assert forall action :: action in actions[..n] ==> action in actions;
    }
  }

  lemma InitialInvariant()
    ensures Invariant(INITIAL)
  {
  }

  /** From empty tables, over every sequence of recorded and flagged pairs, decisions, removals and
      restorations and whatever `.first()` returns: events matched since they were last removed are
      related through shared groups, and events related through shared groups are matched. */
  lemma GroupsFollowMatches(actions: seq<Action>, x: EventId, y: EventId)
    ensures var s := Execute(INITIAL, actions);
      && (Joined(Linked(s.standing), x, y) ==> Joined(Shares(s.tables), x, y))
      && (Joined(Shares(s.tables), x, y) ==> Joined(Linked(s.edges), x, y))
  {
    hide Execute;
    var s := Execute(INITIAL, actions);
    InitialInvariant();
    ExecuteKeepsInvariant(INITIAL, actions);
    if Joined(Linked(s.standing), x, y) {
      EdgesShared(s.tables, s.standing);
      JoinedBelow(Linked(s.standing), Shares(s.tables), x, y);
    }
    if Joined(Shares(s.tables), x, y) {
      forall a, b | Shares(s.tables)(a, b) ensures Shares(History(s))(a, b) {
        RecordedGrows(s.tables, History(s), a, b);
      }
      JoinedBelow(Shares(s.tables), Shares(History(s)), x, y);
      ComponentsAgree(History(s), s.edges, x, y);
    }
  }

  lemma EdgesShared(t: Tables, edges: set<Edge>)
    requires AllRecordedIn(t, edges)
    ensures Below(Linked(edges), Shares(t))
  {
    forall a, b | Linked(edges)(a, b) ensures Shares(t)(a, b) {
      if Edge(a, b) in edges {
        assert Recorded(t, Edge(a, b).a, Edge(a, b).b);
      } else {
        assert Recorded(t, Edge(b, a).a, Edge(b, a).b);
      }
    }
  }

  lemma NothingMissing<T>(all: set<T>, part: set<T>)
    requires part <= all && all - part == {}
    ensures all == part
  {
    assert all == part + (all - part);
  }

  /** As long as no event was removed the groups are exactly the connected components. */
  lemma GroupsAreComponents(actions: seq<Action>, x: EventId, y: EventId)
    requires forall action :: action in actions ==> !Removes(action)
    ensures var s := Execute(INITIAL, actions);
      && (Joined(Shares(s.tables), x, y) <==> Joined(Linked(s.edges), x, y))
      && Components(s.tables, s.edges)
  {
    hide Execute, Components;
    var s := Execute(INITIAL, actions);
    InitialInvariant();
    ExecuteKeepsInvariant(INITIAL, actions);
    GroupsFollowMatches(actions, x, y);
    assert s.edges - s.standing == {} && s.ever - s.tables.members == {};
    NothingMissing(s.edges, s.standing);
    NothingMissing(s.ever, s.tables.members);
    assert History(s) == s.tables;
  }

  // ------------------------------------------------------------------ settled pairs

  /** The pair shares a group that was dismissed or resolved. */
  ghost predicate Decided(t: Tables, a: EventId, b: EventId) {
    exists g: nat :: g < |t.groups| && t.groups[g] != Pending && Member(g, a) in t.members && Member(g, b) in t.members
  }

  /** Groups that are not pending any more keep their status as such, and their rows. */
  ghost predicate DecisionsKept(t: Tables, t': Tables) {
    && |t.groups| <= |t'.groups|
    && (forall g :: 0 <= g < |t.groups| && t.groups[g] != Pending ==> t'.groups[g] != Pending)
    && (forall m :: m in t.members && m.group < |t.groups| && t.groups[m.group] != Pending ==> m in t'.members)
  }

  lemma {:induction false} RemovalKeepsDecisions(s: State, losers: seq<EventId>)
    ensures DecisionsKept(s.tables, RemoveEvents(s, losers).tables)
  {
    if losers != [] { RemovalKeepsDecisions(s, losers[..|losers| - 1]); }
  }

  lemma ApplyKeepsDecisions(s: State, action: Action)
    ensures DecisionsKept(s.tables, Apply(s, action).tables)
  {
    match action
    case Keep(g, e, losers) =>
      if MayKeep(s.tables, g, e, losers) {
        RemovalKeepsDecisions(s.(tables := SetStatus(s.tables, g, Resolved)), losers);
      }
    case _ =>
  }

  /** A pair that shares a dismissed or resolved group is settled: over every further history, removals
      and restorations included, recording it again changes nothing. */
  lemma {:induction false} DecidedForever(s: State, more: seq<Action>, a: EventId, b: EventId, pick: Option<Member>)
    requires Decided(s.tables, a, b)
    ensures var t := Execute(s, more).tables;
      Decided(t, a, b) && Recorded(t, a, b) && AddPair(t, a, b, pick) == t
  {
    hide Apply, DecisionsKept;
    if more != [] {
      var n := |more| - 1;
      DecidedForever(s, more[..n], a, b, pick);
      ApplyKeepsDecisions(Execute(s, more[..n]), more[n]);
      DecidedStays(Execute(s, more[..n]).tables, Execute(s, more).tables, a, b);
    }
    var t := Execute(s, more).tables;
    var g: nat :| g < |t.groups| && t.groups[g] != Pending && Member(g, a) in t.members && Member(g, b) in t.members;
    SharingRecords(t, g, a, b);
  }

  lemma DecidedStays(t: Tables, t': Tables, a: EventId, b: EventId)
    requires Decided(t, a, b) && DecisionsKept(t, t')
    ensures Decided(t', a, b)
  {
    var g: nat :| g < |t.groups| && t.groups[g] != Pending && Member(g, a) in t.members && Member(g, b) in t.members;
    assert g < |t'.groups| && t'.groups[g] != Pending;
  }

  /** All groups the pair shares are pending. */
  ghost predicate OnlyPending(t: Tables, a: EventId, b: EventId) {
    forall g :: g in GroupsOf(t, a) * GroupsOf(t, b) ==> IsPending(t, g)
  }

  lemma SharedMembers(t: Tables, g: nat, a: EventId, b: EventId)
    ensures g in GroupsOf(t, a) * GroupsOf(t, b) <==> Member(g, a) in t.members && Member(g, b) in t.members
  {
    if g in GroupsOf(t, a) * GroupsOf(t, b) {
      var m :| m in t.members && m.event == a && m.group == g;
      var n :| n in t.members && n.event == b && n.group == g;
      assert m == Member(g, a) && n == Member(g, b);
    }
    if Member(g, a) in t.members && Member(g, b) in t.members {
      assert g in GroupsOf(t, a) && g in GroupsOf(t, b);
    }
  }

  /** Withdrawing an event tears a pair apart exactly when it is one of the two and every group they
      share is pending. */
  lemma WithdrawUnrecordsIff(t: Tables, e: EventId, a: EventId, b: EventId)
    requires Recorded(t, a, b) && a != b
    ensures Recorded(Withdraw(t, e), a, b) <==> !((e == a || e == b) && OnlyPending(t, a, b))
    ensures Recorded(Withdraw(t, e), a, b) ==> (OnlyPending(Withdraw(t, e), a, b) <==> OnlyPending(t, a, b))
  {
    hide Withdraw, Recorded, OnlyPending;
    var t' := Withdraw(t, e);
    forall g: nat
      ensures SharedIn(t', a, b, g) <==> SharedIn(t, a, b, g) && !((e == a || e == b) && IsPending(t, g))
      ensures SharedIn(t', a, b, g) ==> (IsPending(t', g) <==> IsPending(t, g))
    {
      SharedAfterWithdraw(t, e, a, b, g);
    }
    RecordedIs(t, a, b);
    RecordedIs(t', a, b);
    PendingIs(t, a, b);
    PendingIs(t', a, b);
  }

  ghost predicate SharedIn(t: Tables, a: EventId, b: EventId, g: nat) {
    Member(g, a) in t.members && Member(g, b) in t.members
  }

  lemma SharedAfterWithdraw(t: Tables, e: EventId, a: EventId, b: EventId, g: nat)
    requires a != b
    ensures var t' := Withdraw(t, e);
      && (SharedIn(t', a, b, g) <==> SharedIn(t, a, b, g) && !((e == a || e == b) && IsPending(t, g)))
      && (SharedIn(t', a, b, g) ==> (IsPending(t', g) <==> IsPending(t, g)))
  {
    if SharedIn(t, a, b, g) && e != a && e != b {
      assert {Member(g, a), Member(g, b)} <= OthersIn(t, g, e);
      SubsetSize({Member(g, a), Member(g, b)}, OthersIn(t, g, e));
      assert |{Member(g, a), Member(g, b)}| == 2;
    }
  }

  lemma RecordedIs(t: Tables, a: EventId, b: EventId)
    ensures Recorded(t, a, b) <==> exists g: nat :: SharedIn(t, a, b, g)
  {
    if Recorded(t, a, b) {
      var g := SharedGroup(t, a, b);
      assert SharedIn(t, a, b, g);
    }
    if g: nat :| SharedIn(t, a, b, g) { SharingRecords(t, g, a, b); }
  }

  lemma PendingIs(t: Tables, a: EventId, b: EventId)
    ensures OnlyPending(t, a, b) <==> forall g: nat :: SharedIn(t, a, b, g) ==> IsPending(t, g)
  {
    forall g: nat ensures g in GroupsOf(t, a) * GroupsOf(t, b) <==> SharedIn(t, a, b, g) { SharedMembers(t, g, a, b); }
  }

  ghost predicate Hit(removed: set<EventId>, losers: seq<EventId>, a: EventId, b: EventId) {
    (a in losers && a !in removed) || (b in losers && b !in removed)
  }

  lemma {:induction false} RemovalUnrecordsIff(s: State, losers: seq<EventId>, a: EventId, b: EventId)
    requires Recorded(s.tables, a, b) && a != b
    ensures var s' := RemoveEvents(s, losers);
      && s'.removed == s.removed + (set l | l in losers)
      && (Recorded(s'.tables, a, b) <==> !(Hit(s.removed, losers, a, b) && OnlyPending(s.tables, a, b)))
      && (Recorded(s'.tables, a, b) ==> (OnlyPending(s'.tables, a, b) <==> OnlyPending(s.tables, a, b)))
  {
    hide Withdraw, OnlyPending, Recorded;
    if losers != [] {
      var n := |losers| - 1;
      var before, l := RemoveEvents(s, losers[..n]), losers[n];
      assert losers == losers[..n] + [l];
      RemovalUnrecordsIff(s, losers[..n], a, b);
      if Recorded(before.tables, a, b) {
        WithdrawUnrecordsIff(before.tables, l, a, b);
      } else {
        WithdrawAddsNothing(before.tables, l, a, b);
      }
    }
  }

  lemma WithdrawAddsNothing(t: Tables, e: EventId, a: EventId, b: EventId)
    ensures Recorded(Withdraw(t, e), a, b) ==> Recorded(t, a, b)
  {
    if Recorded(Withdraw(t, e), a, b) { RecordedGrows(Withdraw(t, e), t, a, b); }
  }

  /** The tables a removal meets: keeping an event resolves its group first. */
  function Met(s: State, action: Action): Tables {
    if action.Keep? && MayKeep(s.tables, action.group, action.event, action.losers) then
      SetStatus(s.tables, action.group, Resolved)
    else s.tables
  }

  /** The action takes one of the two off and every group they share is pending. */
  ghost predicate Unrecords(s: State, action: Action, a: EventId, b: EventId) {
    && OnlyPending(Met(s, action), a, b)
    && match action
       case Remove(e, _) => Hit(s.removed, [e], a, b)
       case Keep(g, e, losers) => MayKeep(s.tables, g, e, losers) && Hit(s.removed, losers, a, b)
       case _ => false
  }

  /** Exactly when one action makes the tables forget a recorded pair. */
  lemma StaysRecordedIff(s: State, action: Action, a: EventId, b: EventId)
    requires s.tables.Valid() && Recorded(s.tables, a, b) && a != b
    ensures Recorded(Apply(s, action).tables, a, b) <==> !Unrecords(s, action, a, b)
  {
    hide Withdraw, OnlyPending, Recorded, AddPair;
    var t := s.tables;
    match action
    case Record(c, d, pick) =>
      AddPairRecords(t, c, d, pick);
      RecordedGrows(t, AddPair(t, c, d, pick), a, b);
    case Flag(events) => RecordedGrows(t, AfterFlag(s, events).tables, a, b);
    case Remove(e, block) => WithdrawUnrecordsIff(t, e, a, b);
    case Keep(g, e, losers) =>
      if MayKeep(t, g, e, losers) {
        var resolved := s.(tables := SetStatus(t, g, Resolved));
        RecordedGrows(t, resolved.tables, a, b);
        RemovalUnrecordsIff(resolved, losers, a, b);
      }
    case _ => RecordedGrows(t, Apply(s, action).tables, a, b);
  }

  /** Over every history a recorded pair is skipped until an action makes the tables forget it. */
  lemma {:induction false} SettledUntilUnrecorded(s: State, more: seq<Action>, a: EventId, b: EventId,
                                                  pick: Option<Member>)
    requires Invariant(s) && Recorded(s.tables, a, b) && a != b
    requires forall k :: 0 <= k < |more| ==> !Unrecords(Execute(s, more[..k]), more[k], a, b)
    ensures var t := Execute(s, more).tables;
      Recorded(t, a, b) && AddPair(t, a, b, pick) == t
  {
    hide Apply, Invariant, Unrecords;
    if more != [] {
      var n := |more| - 1;
      forall k | 0 <= k < n ensures !Unrecords(Execute(s, more[..n][..k]), more[..n][k], a, b) {
        assert more[..n][..k] == more[..k];
      }
      SettledUntilUnrecorded(s, more[..n], a, b, pick);
      ExecuteKeepsInvariant(s, more[..n]);
      InvariantIsValid(Execute(s, more[..n]));
      StaysRecordedIff(Execute(s, more[..n]), more[n], a, b);
    }
  }

  lemma InvariantIsValid(s: State)
    requires Invariant(s)
    ensures s.tables.Valid()
  {
    forall m | m in s.tables.members ensures m.group < |s.tables.groups| { assert m in History(s).members; }
  }

  lemma FlaggedFirst(a: EventId, b: EventId)
    ensures var s := Apply(INITIAL, Record(a, b, None));
      s.tables == Tables([Pending], {Member(0, a), Member(0, b)}) && s.removed == {} && s.blocked == {}
  {
    assert GroupsOf(EMPTY, a) == {};
  }

  lemma RemovedNext(a: EventId, b: EventId)
    requires a != b
    ensures Withdraw(Tables([Pending], {Member(0, a), Member(0, b)}), a) == Tables([Dismissed], {Member(0, b)})
  {
    var t := Tables([Pending], {Member(0, a), Member(0, b)});
    assert OthersIn(t, 0, a) == {Member(0, b)};
  }

  lemma FlaggedAgain(a: EventId, b: EventId)
    requires a != b
    ensures var t := Tables([Dismissed], {Member(0, b)});
      && !Recorded(t, a, b) && MayPick(t, a, b, Some(Member(0, b)))
      && AddPair(t, a, b, Some(Member(0, b))).groups == [Dismissed, Pending]
  {
    var t := Tables([Dismissed], {Member(0, b)});
    assert GroupsOf(t, a) == {};
    assert Member(0, b) in Touching(t, a, b);
  }

  /** A pair is flagged, one of its events is removed by the sync and comes back: the next scan opens a
      second group for the same pair. */
  lemma RestoredPairIsFlaggedAgain(a: EventId, b: EventId)
    requires a != b
    ensures var removed := Execute(INITIAL, [Record(a, b, None), Remove(a, false), Restore(a, false)]);
      var again := Apply(removed, Record(a, b, Some(Member(0, b))));
      && !Recorded(removed.tables, a, b) && a !in removed.removed && removed.blocked == {}
      && MayPick(removed.tables, a, b, Some(Member(0, b))) && again.tables.groups == [Dismissed, Pending]
  {
    hide Withdraw, AddPair, Recorded, MayPick;
    FlaggedFirst(a, b);
    RemovedNext(a, b);
    FlaggedAgain(a, b);
    ThreeSteps(INITIAL, Record(a, b, None), Remove(a, false), Restore(a, false));
  }

  lemma ThreeSteps(s: State, x: Action, y: Action, z: Action)
    ensures Execute(s, [x, y, z]) == Apply(Apply(Apply(s, x), y), z)
  {
    hide Apply;
    assert [x, y, z][..2] == [x, y] && [x, y][..1] == [x] && [x][..0] == [];
    assert Execute(s, [x]) == Apply(Execute(s, []), x);
    assert Execute(s, [x, y]) == Apply(Execute(s, [x]), y);
  }

  lemma ExecutePush(s: State, actions: seq<Action>, action: Action)
    ensures Execute(s, actions + [action]) == Apply(Execute(s, actions), action)
  {
    assert (actions + [action])[..|actions|] == actions;
  }

  lemma {:induction false} RemovalBlocks(s: State, losers: seq<EventId>)
    ensures RemoveEvents(s, losers).blocked == s.blocked + (set l | l in losers)
  {
    if losers != [] {
      RemovalBlocks(s, losers[..|losers| - 1]);
      assert losers == losers[..|losers| - 1] + [losers[|losers| - 1]];
    }
  }
}
