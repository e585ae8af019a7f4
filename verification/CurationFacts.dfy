/** What the hook and the bulk route write and leave alone, said of rules, events, accounts and rows alone. */
module CurationFacts {
  import opened Options
  import opened OrderedGroups
  import opened Engagement
  import opened Curation

  // ------------------------------------------------------------------ one write

  /** The rows of the user for the event and kind, whatever device they are from. */
  predicate Owns(t: Table, k: RowKey, w: Write) {
    k in t && k.kind == w.kind && k.event == w.event && t[k].user == Some(w.user)
  }

  /** A removal takes all of them and nothing else. An addition to none makes one row under the curator's
      key; otherwise it changes the audience of one of them, and nothing at all where that is right. */
  lemma WriteAsPromised(t: Table, first: First, w: Write)
    requires Chooses(first)
    ensures var t' := Do(t, first, w);
      && (w.to.None? ==> forall k :: (k in t' <==> k in t && !Owns(t, k, w)) && (k in t' ==> t'[k] == t[k]))
      && (w.to.Some? && (forall k :: !Owns(t, k, w)) ==>
            t' == t[RowKey(w.kind, "admin:" + w.user, w.event) :=
                      Row(Some(w.user), w.to.value, w.kind == Going && w.to.value == "public", w.admin)])
      && (w.to.Some? && (exists k :: Owns(t, k, w)) ==>
            exists k :: Owns(t, k, w) &&
              t' == if t[k].audience == w.to.value then t else
                      t[k := Row(t[k].user, w.to.value,
                                 if w.kind == Going then w.to.value == "public" else t[k].publicly, t[k].curatedBy)])
  {
    var own, t' := Slice(t, w), Do(t, first, w);
    assert forall k :: k in own <==> Owns(t, k, w);
    if w.to.Some? {
      if own != map[] {
        assert own.Keys != {};
        var k := first(own.Keys);
        assert k in own;
        assert Owns(t, k, w);
      }
    }
  }

  /** A run that never writes to a cell leaves it as it was. */
  lemma {:induction false} UnwrittenStays(t: Table, first: First, writes: seq<Write>, w: Write)
    requires Chooses(first) && Valid(t) && forall v :: v in writes ==> !SameCell(v, w)
    ensures Valid(Run(t, first, writes)) && Slice(Run(t, first, writes), w) == Slice(t, w)
  {
    hide Do, Slice, Valid;
    if writes != [] {
      var n := |writes| - 1;
      assert writes[n] in writes;
      UnwrittenStays(t, first, writes[..n], w);
      DoIsLocal(Run(t, first, writes[..n]), first, writes[n]);
      DoElsewhere(Run(t, first, writes[..n]), first, writes[n], w);
    }
  }

  // ------------------------------------------------------------------ the hook

  /** The rule speaks for the event: it is switched on, for the event's calendar, the event is one the sync
      touched, and the target is an account curators still manage. */
  predicate Speaks(ids: seq<EventId>, users: map<UserId, User>, r: Rule, e: CachedEvent) {
    && r.enabled && r.calendar == e.calendar && e.id in ids && e.id != ""
    && r.target in users && !users[r.target].deleted && users[r.target].managed
  }

  /** What it asks for: its own audience, else the account's default one, else public. */
  function Wanted(users: map<UserId, User>, admin: Option<UserId>, r: Rule, e: CachedEvent): Write
    requires r.target in users
  {
    var u := users[r.target];
    var usual := if u.defaultAudience == "" then "public" else u.defaultAudience;
    Write(u.id, e.id, r.kind, if r.audience.Some? then r.audience else Some(usual), admin)
  }

  lemma HookWritesIff(ids: seq<EventId>, events: seq<CachedEvent>, rules: seq<Rule>, users: map<UserId, User>,
                      admin: Option<UserId>, w: Write)
    ensures var mine := TouchedEvents(events, ids);
      w in RuleWrites(users, ActiveRules(rules, mine), admin, mine) <==>
      exists r, e :: r in rules && e in events && Speaks(ids, users, r, e) && w == Wanted(users, admin, r, e)
  {
    var mine := TouchedEvents(events, ids);
    var active := ActiveRules(rules, mine);
    WritesComeFromRules(users, active, admin, mine, w);
    hide RuleWrites;
    if r, e :| r in rules && e in events && Speaks(ids, users, r, e) && w == Wanted(users, admin, r, e) {
      assert e in mine;
      assert e in WithKey(CalendarOf(), r.calendar, mine) by { assert CalendarOf()(e) == r.calendar; }
      assert r in active;
      assert w == RuleWrite(users, r, admin, e);
    }
  }

  /** Rows of a user and event for which no rule that is switched on speaks, and of every event the sync did
      not touch, stay as they were, whatever the other rules say. */
  lemma HookLeavesAlone(t: Table, first: First, ids: seq<EventId>, events: seq<CachedEvent>, rules: seq<Rule>,
                        users: map<UserId, User>, admin: Option<UserId>, k: RowKey)
    requires Chooses(first) && Valid(t) && k in t
    requires forall r, e :: r in rules && e in events && Speaks(ids, users, r, e) ==>
               !(e.id == k.event && r.kind == k.kind && Some(users[r.target].id) == t[k].user)
    ensures var t' := Hook(t, first, ids, events, rules, users, admin).rows; k in t' && t'[k] == t[k]
  {
    var mine := TouchedEvents(events, ids);
    var writes := RuleWrites(users, ActiveRules(rules, mine), admin, mine);
    if t[k].user.Some? {
      var cell := Write(t[k].user.value, k.event, k.kind, None, None);
      forall v | v in writes ensures !SameCell(v, cell) { HookWritesIff(ids, events, rules, users, admin, v); }
      UnwrittenStays(t, first, writes, cell);
      assert k in Slice(t, cell);
      assert k in Slice(Run(t, first, writes), cell);
      assert Slice(Run(t, first, writes), cell)[k] == t[k];
    } else {
      RunKeepsAnonymous(t, first, writes);
      assert k in Anonymous(t) && k in Anonymous(Run(t, first, writes));
      assert Anonymous(t)[k] == t[k];
    }
  }

  /** Where a rule speaks for an event, the hook leaves in its cell what this one write makes of it. */
  lemma HookCarriesOut(t: Table, first: First, ids: seq<EventId>, events: seq<CachedEvent>, rules: seq<Rule>,
                       users: map<UserId, User>, admin: Option<UserId>, r: Rule, e: CachedEvent)
    requires Chooses(first) && Valid(t) && KeyedById(users) && UniqueRules(rules) && UniqueEvents(events)
    requires r in rules && e in events && Speaks(ids, users, r, e)
    ensures var w := Wanted(users, admin, r, e);
      Slice(Hook(t, first, ids, events, rules, users, admin).rows, w) == Do(Slice(t, w), first, w)
  {
    var mine := TouchedEvents(events, ids);
    var active := ActiveRules(rules, mine);
    var writes, w := RuleWrites(users, active, admin, mine), Wanted(users, admin, r, e);
    HookWritesIff(ids, events, rules, users, admin, w);
    assert UniqueRules(active) && UniqueEvents(mine);
    RulesAreConsistent(users, active, admin, mine);
    forall v | v in writes && SameCell(v, w) ensures v == w {
      var i :| 0 <= i < |writes| && writes[i] == v;
      var j :| 0 <= j < |writes| && writes[j] == w;
    }
    RunPointwise(t, first, writes, w);
  }

  /** Switching a rule off is deleting it: same rows, same notices, same counters. */
  lemma SwitchedOffIsDeleted(t: Table, first: First, ids: seq<EventId>, events: seq<CachedEvent>, before: seq<Rule>,
                             off: Rule, after: seq<Rule>, users: map<UserId, User>, admin: Option<UserId>)
    requires Chooses(first) && !off.enabled
    ensures Hook(t, first, ids, events, before + [off] + after, users, admin)
         == Hook(t, first, ids, events, before + after, users, admin)
  {
    var mine := TouchedEvents(events, ids);
    SkippedRule(before, off, after, mine);
  }

  lemma {:induction false} SkippedRule(before: seq<Rule>, off: Rule, after: seq<Rule>, mine: seq<CachedEvent>)
    requires !off.enabled
    ensures ActiveRules(before + [off] + after, mine) == ActiveRules(before + after, mine)
  {
    var p := (r: Rule) => r.enabled && WithKey(CalendarOf(), r.calendar, mine) != [];
    if after == [] {
      FilterPush(p, before, off);
      assert before + [off] + after == before + [off] && before + after == before;
      assert Filter(p, before) + [] == Filter(p, before);
    } else {
      var n := |after| - 1;
      SkippedRule(before, off, after[..n], mine);
      assert before + [off] + after == (before + [off] + after[..n]) + [after[n]];
      assert before + after == (before + after[..n]) + [after[n]];
      FilterPush(p, before + [off] + after[..n], after[n]);
      FilterPush(p, before + after[..n], after[n]);
    }
  }

  /** The counters: a rule counts as evaluated when it is switched on and the sync touched an event of its
      calendar, as skipped when in addition its target is not there or not managed; the changed ones are the
      writes that found something to change. */
  lemma HookCounts(t: Table, first: First, ids: seq<EventId>, events: seq<CachedEvent>, rules: seq<Rule>, r: Rule,
                   users: map<UserId, User>, admin: Option<UserId>)
    requires Chooses(first)
    ensures var one, all := Hook(t, first, ids, events, rules, users, admin).result,
                            Hook(t, first, ids, events, rules + [r], users, admin).result;
      var evaluated := r.enabled && exists e :: e in events && e.calendar == r.calendar && e.id in ids && e.id != "";
      var valid := r.target in users && !users[r.target].deleted && users[r.target].managed;
      && all.evaluated == one.evaluated + (if evaluated then 1 else 0)
      && all.skipped == one.skipped + (if evaluated && !valid then 1 else 0)
    ensures Hook(t, first, ids, events, [], users, admin) == Hooked(t, [], HookResult(0, 0, 0))
  {
    hide Run, Changed, RunNotices, RuleWrites;
    var mine := TouchedEvents(events, ids);
    var p := (r: Rule) => r.enabled && WithKey(CalendarOf(), r.calendar, mine) != [];
    FilterPush(p, rules, r);
    var own := WithKey(CalendarOf(), r.calendar, mine);
    if own != [] { assert own[0] in own; }
    if e :| e in events && e.calendar == r.calendar && e.id in ids && e.id != "" {
      assert e in mine && CalendarOf()(e) == r.calendar;
      assert e in own;
    }
    if p(r) {
      FilterPush((r: Rule) => !ValidTarget(users, r), ActiveRules(rules, mine), r);
    } else {
      assert ActiveRules(rules, mine) + [] == ActiveRules(rules, mine);
    }
    NoRules(t, first, users, [], admin, mine);
  }

  // ------------------------------------------------------------------ the bulk route

  /** The accounts found are the live ones with a handle asked for; of several rows the last counts. */
  lemma {:induction false} FoundIff(accounts: seq<User>, handles: seq<string>, h: string)
    ensures var found := ByHandle(accounts, handles);
      && (h in found <==> h != "" && h in handles && exists u :: u in accounts && u.handle == Some(h) && !u.deleted)
      && (h in found ==> found[h] in accounts && found[h].handle == Some(h) && !found[h].deleted)
  {
    if accounts != [] {
      var n := |accounts| - 1;
      assert accounts == accounts[..n] + [accounts[n]];
      FoundIff(accounts[..n], handles, h);
    }
  }

  /** What one pair of handle and event comes to. */
  lemma StatusOf(t: Table, first: First, found: map<string, User>, known: set<EventId>, o: Order, pairs: seq<Pair>,
                 k: nat)
    requires Chooses(first) && k < |pairs|
    ensures var p, status := pairs[k], Curation.Items(t, first, found, known, o, pairs)[k].status;
      && (status == NoUser <==> p.handle !in found)
      && (status == NotManaged <==>
            p.handle in found && !found[p.handle].managed && o.admin != Some(found[p.handle].id))
      && (status == NoEvent <==>
            p.handle in found && (found[p.handle].managed || o.admin == Some(found[p.handle].id)) && p.event !in known)
  {
  }

  lemma {:induction false} BulkWritesIff(found: map<string, User>, known: set<EventId>, o: Order, pairs: seq<Pair>,
                                         w: Write)
    ensures w in BulkWrites(found, known, o, pairs) <==>
      exists p :: p in pairs && p.handle in found && p.event in known
        && (found[p.handle].managed || o.admin == Some(found[p.handle].id))
        && w == Write(found[p.handle].id, p.event, o.kind,
                      if o.remove then None else if o.audience.Some? then o.audience
                      else Some(if found[p.handle].defaultAudience == "" then "public"
                                else found[p.handle].defaultAudience),
                      o.admin)
  {
    if pairs != [] {
      var n := |pairs| - 1;
      assert pairs == pairs[..n] + [pairs[n]];
      BulkWritesIff(found, known, o, pairs[..n], w);
    }
  }
}
