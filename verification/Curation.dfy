/** Curation on behalf of admin-managed accounts: rules applied after a sync, and the bulk route. Both
    are runs of single-cell writes. */
module Curation {
  import opened Options
  import opened OrderedGroups
  import opened Engagement

  datatype User = User(id: UserId, handle: Option<string>, managed: bool, deleted: bool, defaultAudience: string)

  datatype CachedEvent = CachedEvent(id: EventId, calendar: string)

  datatype Rule = Rule(calendar: string, target: UserId, kind: Kind, audience: Option<string>, enabled: bool)

  /** Explicit audience, else the profile's default, else public. */
  function ResolveAudience(user: User, audience: Option<string>): string {
    if audience.Some? then audience.value else if user.defaultAudience != "" then user.defaultAudience else "public"
  }

  function Addition(user: User, event: EventId, kind: Kind, audience: Option<string>, admin: Option<UserId>): Write {
    Write(user.id, event, kind, Some(ResolveAudience(user, audience)), admin)
  }

  // ------------------------------------------------------------------ the primitive

  datatype EngagementResult = EngagementResult(changed: bool, created: bool, deleted: bool)

  class EngagementTable {
    var rows: Table
    var outbox: seq<Notice>  // what the notification service was asked, in order

    constructor (rows: Table)
      ensures this.rows == rows && outbox == []
    {
      this.rows, outbox := rows, [];
    }

    /** Every row of the user for the event goes. */
    method Sweep(first: First, w: Write, fanOut: bool) returns (deleted: bool)
      requires Chooses(first) && w.to.None?
      modifies this
      ensures rows == Do(old(rows), first, w) && outbox == old(outbox) + Notices(old(rows), first, w, fanOut)
      ensures deleted <==> Slice(old(rows), w) != map[]
    {
      ghost var t := rows;
      var own := Slice(rows, w);
      var left := own.Keys;
      var wasShared := false;
      while left != {}
        invariant left <= own.Keys && rows == t - (own.Keys - left) && outbox == old(outbox)
        invariant wasShared <==> exists k :: k in own.Keys - left && SharedTier(own[k].audience)
      {
        var k :| k in left;
        if SharedTier(own[k].audience) { wasShared := true; }
        rows := rows - {k};
        left := left - {k};
      }
      assert own.Keys - left == own.Keys;
      deleted := own.Keys != {};
      assert deleted <==> own != map[];
      if k :| k in own.Keys && SharedTier(own[k].audience) { assert k in own; }
      if k :| k in own && SharedTier(own[k].audience) { assert k in own.Keys; }
      assert wasShared <==> AnyShared(own);
      var told: seq<Notice> := [];
      if w.kind.Going? && deleted {
        told := [MemorySync(w.user, w.event)];
        if wasShared && fanOut { told := told + [Withdrawn(w.user, w.event)]; }
      }
      assert told == Notices(t, first, w, fanOut);
      outbox := outbox + told;
    }

    /** The one row that counts gets the audience, or a row is made. */
    method Put(first: First, w: Write, fanOut: bool) returns (changed: bool, created: bool)
      requires Chooses(first) && Valid(rows) && w.to.Some?
      modifies this
      ensures rows == Do(old(rows), first, w) && outbox == old(outbox) + Notices(old(rows), first, w, fanOut)
      ensures (changed <==> rows != old(rows)) && (created <==> Slice(old(rows), w) == map[])
    {
      hide Valid;
      HomeIsOwn(rows, w);
      ghost var t := rows;
      var own, to := Slice(rows, w), w.to.value;
      changed, created := true, own.Keys == {};
      if own.Keys == {} {
        assert own == map[];
        rows := rows[Home(w) := Row(Some(w.user), to, w.kind.Going? && to == "public", w.admin)];
        if w.kind.Going? && fanOut && SharedTier(to) { outbox := outbox + [FanOut(w.user, w.event, to)]; }
      } else {
        var k := first(own.Keys);
        var was := rows[k].audience;
        if was == to {
          changed := false;
        } else {
          rows := rows[k := Retarget(k, rows[k], to)];
          assert rows[k] != t[k];
          if w.kind.Going? {
            if fanOut && SharedTier(to) && !SharedTier(was) {
              outbox := outbox + [FanOut(w.user, w.event, to)];
            } else if SharedTier(was) && !SharedTier(to) {
              outbox := outbox + [Withdrawn(w.user, w.event)];
            }
          }
        }
      }
    }

    method SetEventEngagement(first: First, w: Write, fanOut: bool) returns (result: EngagementResult)
      requires Chooses(first) && Valid(rows)
      modifies this
      ensures Valid(rows) && rows == Do(old(rows), first, w)
      ensures outbox == old(outbox) + Notices(old(rows), first, w, fanOut)
      ensures result.changed <==> rows != old(rows)
      ensures result.created <==> w.to.Some? && Slice(old(rows), w) == map[]
      ensures result.deleted <==> w.to.None? && Slice(old(rows), w) != map[]
    {
      hide Valid, Notices;
      DoIsLocal(rows, first, w);
      if w.to.None? {
        RemovingChanges(rows, Slice(rows, w).Keys);
        var deleted := Sweep(first, w, fanOut);
        return EngagementResult(deleted, false, deleted);
      }
      var changed, created := Put(first, w, fanOut);
      return EngagementResult(changed, created, false);
    }
  }

  lemma RemovingChanges(t: Table, keys: set<RowKey>)
    requires keys <= t.Keys
    ensures t - keys == t <==> keys == {}
  {
    if keys != {} {
      var k :| k in keys;
      assert k in t && k !in t - keys;
    }
  }

  // ------------------------------------------------------------------ rules

  function CalendarOf(): CachedEvent -> string { (e: CachedEvent) => e.calendar }

  /** Existing, not deleted, still managed. */
  predicate ValidTarget(users: map<UserId, User>, rule: Rule) {
    rule.target in users && !users[rule.target].deleted && users[rule.target].managed
  }

  function RuleWrite(users: map<UserId, User>, rule: Rule, admin: Option<UserId>, e: CachedEvent): Write
    requires rule.target in users
  {
    Addition(users[rule.target], e.id, rule.kind, rule.audience, admin)
  }

  function WritesOf(users: map<UserId, User>, rule: Rule, admin: Option<UserId>, events: seq<CachedEvent>): seq<Write> {
    if !ValidTarget(users, rule) then [] else
      var own := WithKey(CalendarOf(), rule.calendar, events);
      seq(|own|, i requires 0 <= i < |own| => RuleWrite(users, rule, admin, own[i]))
  }

  function RuleWrites(users: map<UserId, User>, rules: seq<Rule>, admin: Option<UserId>,
                      events: seq<CachedEvent>): seq<Write> {
    if rules == [] then [] else
      var n := |rules| - 1;
      RuleWrites(users, rules[..n], admin, events) + WritesOf(users, rules[n], admin, events)
  }

  /** What the database guarantees: one rule per calendar, target and kind, one event per id. */
  ghost predicate UniqueRules(rules: seq<Rule>) {
    forall r, s :: r in rules && s in rules && r.calendar == s.calendar && r.target == s.target && r.kind == s.kind ==>
      r == s
  }

  ghost predicate UniqueEvents(events: seq<CachedEvent>) {
    forall d, e :: d in events && e in events && d.id == e.id ==> d == e
  }

  ghost predicate KeyedById(users: map<UserId, User>) { forall id :: id in users ==> users[id].id == id }

  /** A write comes from a rule with a valid target and an event of its calendar. */
  ghost predicate FromRule(users: map<UserId, User>, rules: seq<Rule>, admin: Option<UserId>,
                           events: seq<CachedEvent>, w: Write) {
    exists r, e :: r in rules && e in events && ValidTarget(users, r) && e.calendar == r.calendar
      && w == RuleWrite(users, r, admin, e)
  }

  lemma {:induction false} WritesComeFromRules(users: map<UserId, User>, rules: seq<Rule>, admin: Option<UserId>,
                                               events: seq<CachedEvent>, w: Write)
    ensures w in RuleWrites(users, rules, admin, events) <==> FromRule(users, rules, admin, events, w)
  {
    if rules != [] {
      var n := |rules| - 1;
      WritesComeFromRules(users, rules[..n], admin, events, w);
      assert rules == rules[..n] + [rules[n]];
      OneRulesWrites(users, rules[n], admin, events, w);
    }
  }

  lemma OneRulesWrites(users: map<UserId, User>, rule: Rule, admin: Option<UserId>, events: seq<CachedEvent>, w: Write)
    ensures w in WritesOf(users, rule, admin, events) <==>
      exists e :: e in events && ValidTarget(users, rule) && e.calendar == rule.calendar
        && w == RuleWrite(users, rule, admin, e)
  {
    if ValidTarget(users, rule) {
      var own := WithKey(CalendarOf(), rule.calendar, events);
      var writes := WritesOf(users, rule, admin, events);
      if w in writes {
        var i :| 0 <= i < |writes| && writes[i] == w;
        assert own[i] in own;
      }
      if e :| e in events && e.calendar == rule.calendar && w == RuleWrite(users, rule, admin, e) {
        assert CalendarOf()(e) == rule.calendar;
        assert e in own;
        var i :| 0 <= i < |own| && own[i] == e;
        assert writes[i] == w;
      }
    }
  }

  /** An event has one calendar, so no two rules write to the same cell. */
  lemma RulesAreConsistent(users: map<UserId, User>, rules: seq<Rule>, admin: Option<UserId>, events: seq<CachedEvent>)
    requires KeyedById(users) && UniqueRules(rules) && UniqueEvents(events)
    ensures Consistent(RuleWrites(users, rules, admin, events))
  {
    var writes := RuleWrites(users, rules, admin, events);
    forall i, j | 0 <= i < |writes| && 0 <= j < |writes| && SameCell(writes[i], writes[j])
      ensures writes[i] == writes[j] {
      WritesComeFromRules(users, rules, admin, events, writes[i]);
      WritesComeFromRules(users, rules, admin, events, writes[j]);
    }
  }

  /** The rows the rules leave do not depend on the order in which the database lists them. */
  lemma RuleOrderIsIrrelevant(t: Table, first: First, users: map<UserId, User>, rules: seq<Rule>, others: seq<Rule>,
                              admin: Option<UserId>, events: seq<CachedEvent>)
    requires Chooses(first) && Valid(t) && KeyedById(users) && UniqueRules(rules) && UniqueEvents(events)
    requires forall r :: r in rules <==> r in others
    ensures Run(t, first, RuleWrites(users, rules, admin, events))
      == Run(t, first, RuleWrites(users, others, admin, events))
  {
    RulesAreConsistent(users, rules, admin, events);
    RulesAreConsistent(users, others, admin, events);
    forall w ensures w in RuleWrites(users, rules, admin, events) <==> w in RuleWrites(users, others, admin, events) {
      WritesComeFromRules(users, rules, admin, events, w);
      WritesComeFromRules(users, others, admin, events, w);
    }
    OrderIsIrrelevant(t, first, RuleWrites(users, rules, admin, events), RuleWrites(users, others, admin, events));
  }

  /** Applying the same rules again: with the same answers of the database no row changes; whatever it
      returns first the second time, none does exactly when the rows not picked the first time had the
      wanted audience already. */
  lemma RulesTwice(t: Table, first: First, users: map<UserId, User>, rules: seq<Rule>, admin: Option<UserId>,
                   events: seq<CachedEvent>)
    requires Chooses(first) && Valid(t) && KeyedById(users) && UniqueRules(rules) && UniqueEvents(events)
    ensures var writes := RuleWrites(users, rules, admin, events);
      var t' := Run(t, first, writes);
      && Changed(t', first, writes) == 0 && Run(t', first, writes) == t'
      && ((forall second :: Chooses(second) ==> Changed(t', second, writes) == 0) <==>
          (forall w :: w in writes ==> Agrees(t, first, w)))
  {
    RulesAreConsistent(users, rules, admin, events);
    RerunIsIdle(t, first, RuleWrites(users, rules, admin, events));
    RerunIsIdleIff(t, first, RuleWrites(users, rules, admin, events));
  }

  /** Going rules alone are idle the second time whatever the database returns first. */
  lemma GoingRulesTwice(t: Table, first: First, second: First, users: map<UserId, User>, rules: seq<Rule>,
                        admin: Option<UserId>, events: seq<CachedEvent>)
    requires Chooses(first) && Chooses(second) && Valid(t) && UniqueGoing(t)
    requires KeyedById(users) && UniqueRules(rules) && UniqueEvents(events) && forall r :: r in rules ==> r.kind.Going?
    ensures var writes := RuleWrites(users, rules, admin, events);
      Changed(Run(t, first, writes), second, writes) == 0
  {
    var writes := RuleWrites(users, rules, admin, events);
    RulesAreConsistent(users, rules, admin, events);
    forall w | w in writes ensures w.kind.Going? { WritesComeFromRules(users, rules, admin, events, w); }
    GoingRerunIsIdle(t, first, second, writes);
  }

  lemma RunPush(t: Table, first: First, writes: seq<Write>, w: Write)
    requires Chooses(first)
    ensures Run(t, first, writes + [w]) == Do(Run(t, first, writes), first, w)
    ensures Changed(t, first, writes + [w]) ==
            Changed(t, first, writes) + if Settled(Run(t, first, writes), first, w) then 0 else 1
    ensures forall fanOut :: RunNotices(t, first, writes + [w], fanOut)
                          == RunNotices(t, first, writes, fanOut) + Notices(Run(t, first, writes), first, w, fanOut)
  {
    assert (writes + [w])[..|writes|] == writes;
  }

  // ------------------------------------------------------------------ the hook

  datatype HookResult = HookResult(evaluated: nat, changed: nat, skipped: nat)

  function TouchedEvents(events: seq<CachedEvent>, ids: seq<EventId>): seq<CachedEvent> {
    Filter((e: CachedEvent) => e.id in ids && e.id != "", events)
  }

  function ActiveRules(rules: seq<Rule>, events: seq<CachedEvent>): seq<Rule> {
    Filter((r: Rule) => r.enabled && WithKey(CalendarOf(), r.calendar, events) != [], rules)
  }

  function InvalidRules(users: map<UserId, User>, rules: seq<Rule>): seq<Rule> {
    Filter((r: Rule) => !ValidTarget(users, r), rules)
  }

  datatype Hooked = Hooked(rows: Table, notices: seq<Notice>, result: HookResult)

  /** The hook as a function of what it reads. */
  function Hook(t: Table, first: First, ids: seq<EventId>, events: seq<CachedEvent>, rules: seq<Rule>,
                users: map<UserId, User>, admin: Option<UserId>): Hooked
    requires Chooses(first)
  {
    var mine := TouchedEvents(events, ids);
    var active := ActiveRules(rules, mine);
    var writes := RuleWrites(users, active, admin, mine);
    Hooked(Run(t, first, writes), RunNotices(t, first, writes, true),
           HookResult(|active|, Changed(t, first, writes), |InvalidRules(users, active)|))
  }

  lemma DictionaryGet(events: seq<CachedEvent>, calendar: string)
    ensures var byCalendar := GroupBy(CalendarOf(), events);
      var at := Find(byCalendar, calendar);
      WithKey(CalendarOf(), calendar, events) == if at < |byCalendar| then byCalendar[at].items else []
  {
    var byCalendar := GroupBy(CalendarOf(), events);
    GroupByDescribes(CalendarOf(), events);
    if Find(byCalendar, calendar) == |byCalendar| {
      MissingKey(byCalendar, calendar);
      NoneWithKey(CalendarOf(), calendar, events);
    }
  }

  lemma {:induction false} MissingKey(groups: seq<Bucket<string, CachedEvent>>, key: string)
    requires Find(groups, key) == |groups|
    ensures key !in Keys(groups)
  {
    if groups != [] {
      MissingKey(groups[1..], key);
      assert Keys(groups) == [groups[0].key] + Keys(groups[1..]);
    }
  }

  method ApplyCurationRules(table: EngagementTable, first: First, ids: seq<EventId>, events: seq<CachedEvent>,
                            rules: seq<Rule>, users: map<UserId, User>, admin: Option<UserId>)
    returns (result: HookResult)
    requires Chooses(first) && Valid(table.rows)
    modifies table
    ensures Valid(table.rows)
    ensures var hooked := Hook(old(table.rows), first, ids, events, rules, users, admin);
      table.rows == hooked.rows && table.outbox == old(table.outbox) + hooked.notices && result == hooked.result
  {
    hide Do, Run, Changed, Settled, RuleWrites, WritesOf, InvalidRules, Valid, WithKey, Slice, RunNotices, Notices;
    ghost var sent := table.outbox;
    ghost var t := table.rows;
    var mine := TouchedEvents(events, ids);
    var byCalendar: seq<Bucket<string, CachedEvent>> := [];
    assert mine[..0] == [];
    for i := 0 to |mine|
      invariant table.rows == t && table.outbox == sent
      invariant byCalendar == GroupBy(CalendarOf(), mine[..i])
    {
      GroupByPush(CalendarOf(), mine[..i], mine[i]);
      assert mine[..i + 1] == mine[..i] + [mine[i]];
      byCalendar := Add(byCalendar, mine[i].calendar, mine[i]);
    }
    assert mine[..|mine|] == mine;
    var active := ActiveRules(rules, mine);
    NoRules(t, first, users, active, admin, mine);
    var evaluated, changed, skipped := 0, 0, 0;
    for i := 0 to |active|
      invariant evaluated == i && skipped == |InvalidRules(users, active[..i])|
      invariant Valid(table.rows) && table.rows == Run(t, first, RuleWrites(users, active[..i], admin, mine))
      invariant changed == Changed(t, first, RuleWrites(users, active[..i], admin, mine))
      invariant table.outbox == sent + RunNotices(t, first, RuleWrites(users, active[..i], admin, mine), true)
    {
      var rule := active[i];
      ghost var done := RuleWrites(users, active[..i], admin, mine);
      RuleWritesPush(users, active, i, admin, mine);
      evaluated := evaluated + 1;
      if !ValidTarget(users, rule) {
        skipped := skipped + 1;
        assert done + [] == done;
      } else {
        changed := ApplyRule(table, first, rule, byCalendar, mine, users, admin, t, done, sent, changed);
      }
    }
    assert active[..|active|] == active;
    result := HookResult(evaluated, changed, skipped);
  }

  lemma SettledIs(t: Table, first: First, w: Write)
    requires Chooses(first)
    ensures Settled(t, first, w) <==> Do(t, first, w) == t
  {
  }

  lemma WritesAt(users: map<UserId, User>, rule: Rule, admin: Option<UserId>, events: seq<CachedEvent>)
    requires ValidTarget(users, rule)
    ensures var own, writes := WithKey(CalendarOf(), rule.calendar, events), WritesOf(users, rule, admin, events);
      |writes| == |own| && forall k :: 0 <= k < |own| ==> writes[k] == RuleWrite(users, rule, admin, own[k])
  {
  }

  lemma NoRules(t: Table, first: First, users: map<UserId, User>, rules: seq<Rule>, admin: Option<UserId>,
                events: seq<CachedEvent>)
    requires Chooses(first)
    ensures var writes := RuleWrites(users, rules[..0], admin, events);
      && Run(t, first, writes) == t && Changed(t, first, writes) == 0 && RunNotices(t, first, writes, true) == []
      && InvalidRules(users, rules[..0]) == []
  {
    assert rules[..0] == [];
    assert RuleWrites(users, [], admin, events) == [];
  }

  lemma RuleWritesPush(users: map<UserId, User>, rules: seq<Rule>, i: nat, admin: Option<UserId>,
                       events: seq<CachedEvent>)
    requires i < |rules|
    ensures RuleWrites(users, rules[..i + 1], admin, events) ==
            RuleWrites(users, rules[..i], admin, events) + WritesOf(users, rules[i], admin, events)
    ensures !ValidTarget(users, rules[i]) ==> WritesOf(users, rules[i], admin, events) == []
    ensures |InvalidRules(users, rules[..i + 1])| ==
            |InvalidRules(users, rules[..i])| + if ValidTarget(users, rules[i]) then 0 else 1
  {
    assert rules[..i + 1][..i] == rules[..i];
    FilterPush((r: Rule) => !ValidTarget(users, r), rules[..i], rules[i]);
    assert rules[..i + 1] == rules[..i] + [rules[i]];
  }

  /** The inner loop over the events of a rule's calendar. */
  method ApplyRule(table: EngagementTable, first: First, rule: Rule, byCalendar: seq<Bucket<string, CachedEvent>>,
                   ghost mine: seq<CachedEvent>, users: map<UserId, User>, admin: Option<UserId>,
                   ghost t: Table, ghost done: seq<Write>, ghost sent: seq<Notice>, before: nat)
    returns (changed: nat)
    requires Chooses(first) && ValidTarget(users, rule) && byCalendar == GroupBy(CalendarOf(), mine)
    requires table.rows == Run(t, first, done) && before == Changed(t, first, done)
    requires table.outbox == sent + RunNotices(t, first, done, true)
    requires Valid(table.rows)
    modifies table
    ensures Valid(table.rows)
    ensures table.rows == Run(t, first, done + WritesOf(users, rule, admin, mine))
    ensures changed == Changed(t, first, done + WritesOf(users, rule, admin, mine))
    ensures table.outbox == sent + RunNotices(t, first, done + WritesOf(users, rule, admin, mine), true)
  {
    hide Do, Run, Changed, Settled, Valid, WritesOf, GroupBy, WithKey, Slice, RunNotices, Notices;
    changed := before;
    ghost var writes := WritesOf(users, rule, admin, mine);
    DictionaryGet(mine, rule.calendar);
    WritesAt(users, rule, admin, mine);
    var at := Find(byCalendar, rule.calendar);
    var events := if at < |byCalendar| then byCalendar[at].items else [];
    assert done + writes[..0] == done;
    for k := 0 to |events|
      invariant Valid(table.rows) && table.rows == Run(t, first, done + writes[..k])
        && changed == Changed(t, first, done + writes[..k])
      invariant table.outbox == sent + RunNotices(t, first, done + writes[..k], true)
    {
      var w := RuleWrite(users, rule, admin, events[k]);
      RunPush(t, first, done + writes[..k], w);
      SettledIs(table.rows, first, w);
      assert done + writes[..k + 1] == (done + writes[..k]) + [w];
      var result := table.SetEventEngagement(first, w, true);
      if result.changed { changed := changed + 1; }
    }
    assert writes[..|events|] == writes;
  }

  // ------------------------------------------------------------------ the bulk route

  datatype Status = ChangedRow | Noop | NotManaged | NoUser | NoEvent

  datatype Item = Item(handle: string, event: EventId, status: Status)

  datatype Order = Order(kind: Kind, remove: bool, audience: Option<string>, fanOut: bool, admin: Option<UserId>)

  /** The live accounts among the handles; the last row of a handle counts. */
  function ByHandle(accounts: seq<User>, handles: seq<string>): map<string, User> {
    if accounts == [] then map[] else
      var n := |accounts| - 1;
      var found, u := ByHandle(accounts[..n], handles), accounts[n];
      if u.handle.Some? && u.handle.value != "" && u.handle.value in handles && !u.deleted
      then found[u.handle.value := u]
      else found
  }

  /** The ownership gate: an admin-managed account, or the admin's own. */
  predicate Eligible(user: User, admin: Option<UserId>) { user.managed || admin == Some(user.id) }

  function OrderWrite(user: User, event: EventId, o: Order): Write {
    if o.remove then Write(user.id, event, o.kind, None, o.admin)
    else Addition(user, event, o.kind, o.audience, o.admin)
  }

  function Skip(found: map<string, User>, known: set<EventId>, o: Order, handle: string,
                event: EventId): Option<Status> {
    if handle !in found then Some(NoUser)
    else if !Eligible(found[handle], o.admin) then Some(NotManaged)
    else if event !in known then Some(NoEvent)
    else None
  }

  datatype Pair = Pair(handle: string, event: EventId)

  function PairsOf(handle: string, events: seq<EventId>): seq<Pair> {
    seq(|events|, j requires 0 <= j < |events| => Pair(handle, events[j]))
  }

  /** The cross product, handle by handle. */
  function Pairs(handles: seq<string>, events: seq<EventId>): seq<Pair> {
    if handles == [] then [] else
      var n := |handles| - 1;
      Pairs(handles[..n], events) + PairsOf(handles[n], events)
  }

  lemma {:induction false} PairAt(handles: seq<string>, events: seq<EventId>, i: nat, j: nat)
    requires i < |handles| && j < |events|
    ensures |Pairs(handles, events)| == |handles| * |events|
    ensures i * |events| + j < |Pairs(handles, events)|
      && Pairs(handles, events)[i * |events| + j] == Pair(handles[i], events[j])
  {
    var n := |handles| - 1;
    PairCount(handles[..n], events);
    assert n * |events| + |events| == |handles| * |events|;
    if i < n {
      PairAt(handles[..n], events, i, j);
      assert i * |events| + j < n * |events|;
    }
  }

  lemma {:induction false} PairCount(handles: seq<string>, events: seq<EventId>)
    ensures |Pairs(handles, events)| == |handles| * |events|
  {
    if handles != [] {
      PairCount(handles[..|handles| - 1], events);
      assert (|handles| - 1) * |events| + |events| == |handles| * |events|;
    }
  }

  /** The writes of the pairs that are not skipped. */
  function BulkWrites(found: map<string, User>, known: set<EventId>, o: Order, pairs: seq<Pair>): seq<Write> {
    if pairs == [] then [] else
      var n := |pairs| - 1;
      var p := pairs[n];
      BulkWrites(found, known, o, pairs[..n]) +
      if Skip(found, known, o, p.handle, p.event).Some? then [] else [OrderWrite(found[p.handle], p.event, o)]
  }

  /** One item per pair, each telling why it was skipped or whether it changed a row. */
  function Items(t: Table, first: First, found: map<string, User>, known: set<EventId>, o: Order,
                 pairs: seq<Pair>): (items: seq<Item>)
    requires Chooses(first)
    ensures |items| == |pairs|
    ensures forall k :: 0 <= k < |pairs| ==>
      && items[k].handle == pairs[k].handle && items[k].event == pairs[k].event
      && var skip := Skip(found, known, o, pairs[k].handle, pairs[k].event);
         if skip.Some? then items[k].status == skip.value else items[k].status in {ChangedRow, Noop}
  {
    if pairs == [] then [] else
      var n := |pairs| - 1;
      var p := pairs[n];
      var skip := Skip(found, known, o, p.handle, p.event);
      var before := Run(t, first, BulkWrites(found, known, o, pairs[..n]));
      Items(t, first, found, known, o, pairs[..n]) +
      [Item(p.handle, p.event,
            if skip.Some? then skip.value
            else if Settled(before, first, OrderWrite(found[p.handle], p.event, o)) then Noop else ChangedRow)]
  }

  function ChangedCount(items: seq<Item>): nat { |Filter((i: Item) => i.status == ChangedRow, items)| }

  lemma ItemsPush(t: Table, first: First, found: map<string, User>, known: set<EventId>, o: Order, pairs: seq<Pair>,
                  p: Pair)
    requires Chooses(first)
    ensures var skip, writes := Skip(found, known, o, p.handle, p.event), BulkWrites(found, known, o, pairs);
      && BulkWrites(found, known, o, pairs + [p]) ==
         (if skip.Some? then writes else writes + [OrderWrite(found[p.handle], p.event, o)])
      && Items(t, first, found, known, o, pairs + [p]) == Items(t, first, found, known, o, pairs) +
         [Item(p.handle, p.event,
               if skip.Some? then skip.value
               else if Settled(Run(t, first, writes), first, OrderWrite(found[p.handle], p.event, o)) then Noop
               else ChangedRow)]
  {
    hide Run, Settled;
    assert (pairs + [p])[..|pairs|] == pairs;
  }

  lemma NoItems(t: Table, first: First, found: map<string, User>, known: set<EventId>, o: Order)
    requires Chooses(first)
    ensures ChangedCount(Items(t, first, found, known, o, [])) == 0
      && Changed(t, first, BulkWrites(found, known, o, [])) == 0
  {
  }

  lemma CountPush(items: seq<Item>, item: Item)
    ensures ChangedCount(items + [item]) == ChangedCount(items) + if item.status == ChangedRow then 1 else 0
  {
    FilterPush((i: Item) => i.status == ChangedRow, items, item);
  }

  lemma {:induction false} CountsAgree(t: Table, first: First, found: map<string, User>, known: set<EventId>,
                                       o: Order, pairs: seq<Pair>)
    requires Chooses(first)
    ensures ChangedCount(Items(t, first, found, known, o, pairs))
      == Changed(t, first, BulkWrites(found, known, o, pairs))
  {
    hide Settled, Run, Changed, Items, BulkWrites, ChangedCount, OrderWrite;
    if pairs == [] {
      NoItems(t, first, found, known, o);
    } else {
      var n := |pairs| - 1;
      var p, before := pairs[n], pairs[..n];
      CountsAgree(t, first, found, known, o, before);
      assert pairs == before + [p];
      ItemsPush(t, first, found, known, o, before, p);
      var items := Items(t, first, found, known, o, pairs);
      CountPush(Items(t, first, found, known, o, before), items[n]);
      if Skip(found, known, o, p.handle, p.event).None? {
        RunPush(t, first, BulkWrites(found, known, o, before), OrderWrite(found[p.handle], p.event, o));
      }
    }
  }

  ghost predicate UniqueIds(found: map<string, User>) {
    forall h, k :: h in found && k in found && found[h].id == found[k].id ==> found[h] == found[k]
  }

  lemma {:induction false} BulkWriteFrom(found: map<string, User>, known: set<EventId>, o: Order, pairs: seq<Pair>,
                                         w: Write)
    requires w in BulkWrites(found, known, o, pairs)
    ensures exists h ::
      h in found && Eligible(found[h], o.admin) && w.event in known && w == OrderWrite(found[h], w.event, o)
  {
    var n := |pairs| - 1;
    if w in BulkWrites(found, known, o, pairs[..n]) { BulkWriteFrom(found, known, o, pairs[..n], w); }
  }

  lemma BulkIsConsistent(found: map<string, User>, known: set<EventId>, o: Order, pairs: seq<Pair>)
    requires UniqueIds(found)
    ensures Consistent(BulkWrites(found, known, o, pairs))
  {
    var writes := BulkWrites(found, known, o, pairs);
    forall i, j | 0 <= i < |writes| && 0 <= j < |writes| && SameCell(writes[i], writes[j])
      ensures writes[i] == writes[j] {
      BulkWriteFrom(found, known, o, pairs, writes[i]);
      BulkWriteFrom(found, known, o, pairs, writes[j]);
    }
  }

  /** The same bulk order a second time: with the same answers of the database it reports no change and
      changes no row; whatever comes first the second time, exactly when the rows not picked the first time
      had the wanted audience already. */
  lemma BulkTwice(t: Table, first: First, found: map<string, User>, known: set<EventId>, o: Order, pairs: seq<Pair>)
    requires Chooses(first) && Valid(t) && UniqueIds(found)
    ensures var writes := BulkWrites(found, known, o, pairs);
      var t' := Run(t, first, writes);
      && Run(t', first, writes) == t' && ChangedCount(Items(t', first, found, known, o, pairs)) == 0
      && ((forall second :: Chooses(second) ==> ChangedCount(Items(t', second, found, known, o, pairs)) == 0) <==>
          (forall w :: w in writes ==> Agrees(t, first, w)))
  {
    hide Items, ChangedCount, BulkWrites, Run, Changed, Agrees;
    var writes := BulkWrites(found, known, o, pairs);
    var t' := Run(t, first, writes);
    BulkIsConsistent(found, known, o, pairs);
    RerunIsIdle(t, first, writes);
    RerunIsIdleIff(t, first, writes);
    forall second | Chooses(second)
      ensures ChangedCount(Items(t', second, found, known, o, pairs)) == Changed(t', second, writes)
    {
      CountsAgree(t', second, found, known, o, pairs);
    }
  }

  /** Removals and Going orders are idle the second time whatever the database returns first. */
  lemma BulkTwiceUnconditionally(t: Table, first: First, second: First, found: map<string, User>, known: set<EventId>,
                                 o: Order, pairs: seq<Pair>)
    requires Chooses(first) && Chooses(second) && Valid(t) && UniqueIds(found)
    requires o.remove || (o.kind.Going? && UniqueGoing(t))
    ensures ChangedCount(Items(Run(t, first, BulkWrites(found, known, o, pairs)), second, found, known, o, pairs)) == 0
  {
    hide Items, ChangedCount, Run, Changed;
    var writes := BulkWrites(found, known, o, pairs);
    BulkIsConsistent(found, known, o, pairs);
    CountsAgree(Run(t, first, writes), second, found, known, o, pairs);
    forall w | w in writes ensures w.kind == o.kind && (o.remove ==> w.to.None?) {
      BulkWriteFrom(found, known, o, pairs, w);
    }
    if o.remove {
      RerunIsIdleIff(t, first, writes);
    } else {
      GoingRerunIsIdle(t, first, second, writes);
    }
  }

  /** Whatever is ordered, no row of a user who fails the ownership gate is touched. */
  lemma GateHolds(t: Table, first: First, found: map<string, User>, known: set<EventId>, o: Order, pairs: seq<Pair>,
                  user: User, event: EventId, kind: Kind)
    requires Chooses(first) && Valid(t) && UniqueIds(found)
    requires !Eligible(user, o.admin) && forall h :: h in found && found[h].id == user.id ==> found[h] == user
    ensures var cell := Write(user.id, event, kind, None, None);
      Slice(Run(t, first, BulkWrites(found, known, o, pairs)), cell) == Slice(t, cell)
  {
    var cell := Write(user.id, event, kind, None, None);
    BulkIsConsistent(found, known, o, pairs);
    forall w | w in BulkWrites(found, known, o, pairs) ensures !SameCell(w, cell) {
      BulkWriteFrom(found, known, o, pairs, w);
    }
    RunPointwise(t, first, BulkWrites(found, known, o, pairs), cell);
  }

  /** The rows of one handle: all skipped, or each event in turn. */
  method OneHandle(table: EngagementTable, first: First, handle: string, events: seq<EventId>, found: map<string, User>,
                   known: set<EventId>, o: Order, ghost t: Table, ghost done: seq<Pair>,
                   ghost sent: seq<Notice>, before: seq<Item>)
    returns (items: seq<Item>)
    requires Chooses(first)
    requires table.rows == Run(t, first, BulkWrites(found, known, o, done))
      && before == Items(t, first, found, known, o, done)
    requires table.outbox == sent + RunNotices(t, first, BulkWrites(found, known, o, done), o.fanOut)
    requires Valid(table.rows)
    modifies table
    ensures Valid(table.rows)
    ensures table.rows == Run(t, first, BulkWrites(found, known, o, done + PairsOf(handle, events)))
    ensures items == Items(t, first, found, known, o, done + PairsOf(handle, events))
    ensures table.outbox
         == sent + RunNotices(t, first, BulkWrites(found, known, o, done + PairsOf(handle, events)), o.fanOut)
  {
    hide Do, Run, Settled, Items, BulkWrites, RunNotices, Notices, Valid, Slice;
    items := before;
    ghost var row := PairsOf(handle, events);
    assert done + row[..0] == done;
    for j := 0 to |events|
      invariant Valid(table.rows) && table.rows == Run(t, first, BulkWrites(found, known, o, done + row[..j]))
      invariant items == Items(t, first, found, known, o, done + row[..j])
      invariant table.outbox == sent + RunNotices(t, first, BulkWrites(found, known, o, done + row[..j]), o.fanOut)
    {
      ghost var writes := BulkWrites(found, known, o, done + row[..j]);
      ItemsPush(t, first, found, known, o, done + row[..j], row[j]);
      assert done + row[..j + 1] == (done + row[..j]) + [row[j]];
      var status := NoUser;
      if handle in found {
        if !Eligible(found[handle], o.admin) {
          status := NotManaged;
        } else if events[j] !in known {
          status := NoEvent;
        } else {
          var w := OrderWrite(found[handle], events[j], o);
          RunPush(t, first, writes, w);
          SettledIs(Run(t, first, writes), first, w);
          var result := table.SetEventEngagement(first, w, o.fanOut);
          status := if result.changed then ChangedRow else Noop;
        }
      }
      items := items + [Item(handle, events[j], status)];
    }
    assert row[..|events|] == row;
  }

  lemma NoPairs(t: Table, first: First, found: map<string, User>, known: set<EventId>, o: Order,
                handles: seq<string>, events: seq<EventId>)
    requires Chooses(first)
    ensures Pairs(handles[..0], events) == []
    ensures BulkWrites(found, known, o, []) == [] && Items(t, first, found, known, o, []) == []
    ensures Run(t, first, []) == t && RunNotices(t, first, [], o.fanOut) == []
  {
  }

  method BulkSetEngagement(table: EngagementTable, first: First, handles: seq<string>, events: seq<EventId>,
                           accounts: seq<User>, cached: set<EventId>, o: Order)
    returns (items: seq<Item>)
    requires Chooses(first) && Valid(table.rows)
    modifies table
    ensures Valid(table.rows)
    ensures var found, known := ByHandle(accounts, handles), set e | e in cached && e in events;
      && table.rows == Run(old(table.rows), first, BulkWrites(found, known, o, Pairs(handles, events)))
      && items == Items(old(table.rows), first, found, known, o, Pairs(handles, events))
      && table.outbox == old(table.outbox)
         + RunNotices(old(table.rows), first, BulkWrites(found, known, o, Pairs(handles, events)), o.fanOut)
  {
    hide Do, Run, Settled, Items, BulkWrites, RunNotices, Notices, Valid, Slice;
    ghost var t, sent := table.rows, table.outbox;
    var found := map[];
    for i := 0 to |accounts|
      invariant found == ByHandle(accounts[..i], handles)
    {
      assert accounts[..i + 1][..i] == accounts[..i];
      var u := accounts[i];
      if u.handle.Some? && u.handle.value != "" && u.handle.value in handles && !u.deleted {
        found := found[u.handle.value := u];
      }
    }
    assert accounts[..|accounts|] == accounts;
    var known := set e | e in cached && e in events;
    items := [];
    NoPairs(t, first, found, known, o, handles, events);
    for i := 0 to |handles|
      invariant Valid(table.rows)
        && table.rows == Run(t, first, BulkWrites(found, known, o, Pairs(handles[..i], events)))
      invariant items == Items(t, first, found, known, o, Pairs(handles[..i], events))
      invariant table.outbox == sent
        + RunNotices(t, first, BulkWrites(found, known, o, Pairs(handles[..i], events)), o.fanOut)
    {
      items := OneHandle(table, first, handles[i], events, found, known, o, t, Pairs(handles[..i], events), sent,
                         items);
      assert handles[..i + 1][..i] == handles[..i];
    }
    assert handles[..|handles|] == handles;
  }
}
