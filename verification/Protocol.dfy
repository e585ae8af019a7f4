/** Ticks, deliver jobs and event-message jobs interleaved: each claims rows no other transaction
    holds, delivers one by one, and commits its stamps or aborts. */
module Protocol {
  import opened Options
  import opened Notifications
  import opened Schedule
  import opened Delivery
  import opened DeliveryRuns
  import opened EventMessages

  datatype Running = Running(txn: Txn, sent: set<Receipt>)

  /** `log` counts every successful delivery; `lost` those of transactions that aborted after them. */
  datatype System = System(
    store: Store, running: map<int, Running>, log: multiset<Receipt>, lost: multiset<Receipt>)

  datatype Step =
    | BeginRun(worker: int, call: Call, settings: Settings, world: World)
    | BeginMessages(worker: int, settings: Settings, messages: MessageWorld, user: UserId)
    | Send(worker: int, receipt: Receipt)
    | Finish(worker: int)
    | Abort(worker: int)
    | NewNote(note: Note, at: nat)
    | NewUsers(users: map<UserId, User>)

  function Locked(y: System): set<Id> { set k, id | k in y.running && id in y.running[k].txn.claimed :: id }

  function Begin(y: System, worker: int, t: Txn): System {
    if worker in y.running then y else y.(running := y.running[worker := Running(t, {})])
  }

  function Unstamped(): Stamps { Stamps(None, None, None) }

  function AddNote(s: Store, n: Note, at: nat): Store {
    if n.id in s.stamps || at > |s.notes| then s
    else s.(notes := s.notes[..at] + [n] + s.notes[at..], stamps := s.stamps[n.id := Unstamped()])
  }

  /** One step; a step that is not enabled changes nothing. */
  function Next(y: System, step: Step): System {
    match step
    case BeginRun(k, c, g, w) => Begin(y, k, RunTxn(c, g, w.(locked := Locked(y)), y.store))
    case BeginMessages(k, g, w, u) => Begin(y, k, MessageTxn(g, w.(locked := Locked(y)), y.store, u))
    case Send(k, d) =>
      if k in y.running && d in y.running[k].txn.sends && d !in y.running[k].sent then
        y.(running := y.running[k := y.running[k].(sent := y.running[k].sent + {d})], log := y.log + multiset{d})
      else y
    case Finish(k) =>
      if k in y.running && y.running[k].sent == y.running[k].txn.sends then
        y.(store := Commit(y.running[k].txn, y.store), running := y.running - {k})
      else y
    case Abort(k) =>
      if k in y.running then
        y.(running := y.running - {k}, lost := y.lost + multiset(y.running[k].sent))
      else y
    case NewNote(n, at) => y.(store := AddNote(y.store, n, at))
    case NewUsers(users) => y.(store := y.store.(users := users))
  }

  function Execute(y: System, steps: seq<Step>): System {
    if steps == [] then y else
      var n := |steps| - 1;
      Next(Execute(y, steps[..n]), steps[n])
  }

  function Start(s: Store): System { System(s, map[], multiset{}, multiset{}) }

  // ------------------------------------------------------------------ well-behaved transactions

  predicate StampedOn(s: Store, d: Receipt) {
    d.id in s.stamps &&
    match d.channel
    case DigestMail => s.stamps[d.id].emailed.Some?
    case InstantMail => s.stamps[d.id].instant.Some?
    case PushMessage => s.stamps[d.id].pushed.Some?
  }

  predicate WillStamp(t: Txn, d: Receipt) {
    match d.channel
    case DigestMail => d.id in t.email
    case InstantMail => d.id in t.instant
    case PushMessage => d.id in t.push
  }

  /** A transaction touches only rows it claims, and stamps everything it delivers. */
  ghost predicate Sound(t: Txn) {
    && t.email <= t.claimed && t.instant <= t.claimed && t.push <= t.claimed
    && forall d :: d in t.sends ==> WillStamp(t, d)
  }

  /** It delivers only what has not been stamped on that channel. */
  ghost predicate Fresh(t: Txn, s: Store) {
    && t.claimed <= s.stamps.Keys
    && forall d :: d in t.sends ==> !StampedOn(s, d)
  }

  lemma RunTxnClaims(c: Call, g: Settings, w: World, s: Store)
    requires s.Valid()
    ensures var t := RunTxn(c, g, w, s);
      && Sound(t) && t.claimed <= s.stamps.Keys && t.claimed !! w.locked
  {
    var p := PlanRun(c, g, w, s);
    PlanClaims(c, g, w, s);
    PlanFate(c, g, w, s);
    SoundIfInside(w.now, p);
    hide PlanRun, Sound;
    forall id | id in IdsOf(p.email) || id in IdsOf(p.instant) || id in IdsOf(p.push) ensures id in p.claimed {
      var n: Note :| (n in p.email || n in p.instant || n in p.push) && n.id == id;
      PlanRows(c, g, w, s, n);
    }
  }

  lemma SoundIfInside(now: int, p: Plan)
    requires p.digests.delivered <= EmailStamped(p) && p.mail.delivered <= InstantStamped(p)
    requires p.pushes.delivered <= PushStamped(p)
    ensures var t := TxnOf(now, p);
      t.email <= t.claimed && t.instant <= t.claimed && t.push <= t.claimed ==> Sound(t)
  {
  }

  lemma PlanClaims(c: Call, g: Settings, w: World, s: Store)
    requires s.Valid()
    ensures var p := PlanRun(c, g, w, s); p.claimed <= s.stamps.Keys && p.claimed !! w.locked
  {
  }

  lemma RunTxnFresh(c: Call, g: Settings, w: World, s: Store, d: Receipt)
    requires s.Valid() && !c.resend && d in RunTxn(c, g, w, s).sends
    ensures !StampedOn(s, d)
  {
    var p := PlanRun(c, g, w, s);
    PlanFate(c, g, w, s);
    var n := StampedRow(p, d);
    PlanRows(c, g, w, s, n);
  }

  lemma StampedRow(p: Plan, d: Receipt) returns (n: Note)
    requires d in Deliveries(EmailStamped(p), InstantStamped(p), PushStamped(p))
    ensures n.id == d.id
    ensures match d.channel
      case DigestMail => n in p.email
      case InstantMail => n in p.instant
      case PushMessage => n in p.push
  {
    match d.channel
    case DigestMail => n :| n in p.email && n.id == d.id;
    case InstantMail => n :| n in p.instant && n.id == d.id;
    case PushMessage => n :| n in p.push && n.id == d.id;
  }

  lemma MessageTxnClaims(g: Settings, w: MessageWorld, s: Store, u: UserId)
    requires s.Valid()
    ensures var t := MessageTxn(g, w, s, u);
      && Sound(t) && Fresh(t, s) && t.claimed !! w.locked
  {
    var t := MessageTxn(g, w, s, u);
    forall d | d in t.sends ensures WillStamp(t, d) && !StampedOn(s, d) {
      NotesDistinct(s);
    }
  }

  // ------------------------------------------------------------------ at most once

  ghost predicate InFlight(y: System, d: Receipt) { exists k :: k in y.running && d in y.running[k].sent }

  /** Running transactions are sound and hold disjoint rows, and what they deliver is not stamped yet. */
  ghost predicate Isolated(y: System) {
    && y.store.Valid()
    && (forall k :: k in y.running ==>
          Sound(y.running[k].txn) && Fresh(y.running[k].txn, y.store) && y.running[k].sent <= y.running[k].txn.sends)
    && (forall j, k :: j in y.running && k in y.running && j != k ==>
          y.running[j].txn.claimed !! y.running[k].txn.claimed)
  }

  /** Deliveries beyond those lost to aborts are at most one, and that one is stamped or in flight. */
  ghost predicate Counted(y: System, d: Receipt) {
    y.log[d] <= y.lost[d] + if StampedOn(y.store, d) || InFlight(y, d) then 1 else 0
  }

  predicate Resends(step: Step) { step.BeginRun? && step.call.resend }

  lemma SendsClaimed(t: Txn, d: Receipt)
    requires Sound(t) && d in t.sends
    ensures d.id in t.claimed
  {
    assert WillStamp(t, d);
  }

  lemma LockedCovers(y: System, k: int, id: Id)
    requires k in y.running && id in y.running[k].txn.claimed
    ensures id in Locked(y)
  {
  }

  lemma BeginKeeps(y: System, worker: int, t: Txn, d: Receipt)
    requires Isolated(y) && Counted(y, d)
    requires Sound(t) && Fresh(t, y.store) && t.claimed !! Locked(y)
    ensures Isolated(Begin(y, worker, t)) && Counted(Begin(y, worker, t), d)
  {
    var z := Begin(y, worker, t);
    if worker !in y.running {
      forall k | k in y.running ensures y.running[k].txn.claimed !! t.claimed {
        forall id | id in y.running[k].txn.claimed ensures id !in t.claimed { LockedCovers(y, k, id); }
      }
      forall k | k in y.running ensures z.running[k] == y.running[k] { }
      if InFlight(y, d) {
        var k :| k in y.running && d in y.running[k].sent;
        assert d in z.running[k].sent;
      }
    }
  }

  lemma NotInFlightBefore(y: System, k: int, d: Receipt)
    requires Isolated(y) && k in y.running && d in y.running[k].txn.sends - y.running[k].sent
    ensures !InFlight(y, d)
  {
    forall j | j in y.running ensures d !in y.running[j].sent {
      SendsClaimed(y.running[k].txn, d);
      if j != k && d in y.running[j].txn.sends { SendsClaimed(y.running[j].txn, d); }
    }
  }

  lemma SendKeeps(y: System, k: int, d: Receipt, e: Receipt)
    requires Isolated(y) && Counted(y, e)
    ensures Isolated(Next(y, Send(k, d))) && Counted(Next(y, Send(k, d)), e)
  {
    var z := Next(y, Send(k, d));
    if z != y {
      var r := y.running[k];
      assert z.running[k].txn == r.txn && forall j :: j in y.running && j != k ==> z.running[j] == y.running[j];
      if InFlight(y, e) {
        var j :| j in y.running && e in y.running[j].sent;
        assert e in z.running[j].sent;
      }
      NotInFlightBefore(y, k, d);
      if e == d { assert d in z.running[k].sent; }
    }
  }

  lemma CommitStamps(t: Txn, s: Store, d: Receipt)
    ensures StampedOn(s, d) ==> StampedOn(Commit(t, s), d)
    ensures d.id in s.stamps && WillStamp(t, d) ==> StampedOn(Commit(t, s), d)
    ensures d.id !in t.claimed && Sound(t) ==> (StampedOn(Commit(t, s), d) <==> StampedOn(s, d))
  {
    if d.id in s.stamps { assert Commit(t, s).stamps[d.id] == StampRow(t, d.id, s.stamps[d.id]); }
  }

  lemma FinishKeeps(y: System, k: int, e: Receipt)
    requires Isolated(y) && Counted(y, e)
    ensures Isolated(Next(y, Finish(k))) && Counted(Next(y, Finish(k)), e)
  {
    var z := Next(y, Finish(k));
    if z != y {
      var t := y.running[k].txn;
      forall j | j in z.running ensures Fresh(z.running[j].txn, z.store) {
        forall d | d in z.running[j].txn.sends ensures !StampedOn(z.store, d) {
          SendsClaimed(y.running[j].txn, d);
          CommitStamps(t, y.store, d);
        }
      }
      CommitStamps(t, y.store, e);
      if InFlight(y, e) {
        var j :| j in y.running && e in y.running[j].sent;
        if j == k {
          SendsClaimed(t, e);
        } else {
          assert e in z.running[j].sent;
        }
      }
    }
  }

  lemma AbortKeeps(y: System, k: int, e: Receipt)
    requires Isolated(y) && Counted(y, e)
    ensures Isolated(Next(y, Abort(k))) && Counted(Next(y, Abort(k)), e)
  {
    var z := Next(y, Abort(k));
    if z != y && InFlight(y, e) {
      var j :| j in y.running && e in y.running[j].sent;
      if j != k { assert e in z.running[j].sent; }
    }
  }

  lemma AddedNote(s: Store, n: Note, at: nat)
    requires s.Valid() && n.id !in s.stamps && at <= |s.notes|
    ensures var t := AddNote(s, n, at);
      t.Valid() && forall m :: m in t.notes <==> m in s.notes || m == n
  {
    var t := AddNote(s, n, at);
    assert forall m :: m in t.notes <==> m in s.notes || m == n;
    forall i | 0 <= i < |s.notes| ensures s.notes[i].id != n.id { assert s.notes[i] in s.notes; }
  }

  lemma NewNoteKeeps(y: System, n: Note, at: nat, e: Receipt)
    requires Isolated(y) && Counted(y, e)
    ensures Isolated(Next(y, NewNote(n, at))) && Counted(Next(y, NewNote(n, at)), e)
  {
    var s, t := y.store, AddNote(y.store, n, at);
    if t != s {
      AddedNote(s, n, at);
      forall k, d | k in y.running && d in y.running[k].txn.sends ensures !StampedOn(t, d) {
        SendsClaimed(y.running[k].txn, d);
      }
    }
    assert InFlight(Next(y, NewNote(n, at)), e) <==> InFlight(y, e);
  }

  lemma StepKeeps(y: System, step: Step, e: Receipt)
    requires Isolated(y) && Counted(y, e) && !Resends(step)
    ensures Isolated(Next(y, step)) && Counted(Next(y, step), e)
  {
    match step
    case BeginRun(k, c, g, w) =>
      var v := w.(locked := Locked(y));
      RunTxnClaims(c, g, v, y.store);
      forall d | d in RunTxn(c, g, v, y.store).sends ensures !StampedOn(y.store, d) {
        RunTxnFresh(c, g, v, y.store, d);
      }
      BeginKeeps(y, k, RunTxn(c, g, v, y.store), e);
    case BeginMessages(k, g, w, u) =>
      var v := w.(locked := Locked(y));
      MessageTxnClaims(g, v, y.store, u);
      BeginKeeps(y, k, MessageTxn(g, v, y.store, u), e);
    case Send(k, d) => SendKeeps(y, k, d, e);
    case Finish(k) => FinishKeeps(y, k, e);
    case Abort(k) => AbortKeeps(y, k, e);
    case NewNote(n, at) => NewNoteKeeps(y, n, at, e);
    case NewUsers(users) => assert InFlight(Next(y, step), e) <==> InFlight(y, e);
  }

  lemma {:induction false} ExecuteKeeps(s: Store, steps: seq<Step>, e: Receipt)
    requires s.Valid() && forall step :: step in steps ==> !Resends(step)
    ensures Isolated(Execute(Start(s), steps)) && Counted(Execute(Start(s), steps), e)
  {
    hide Next;
    if steps != [] {
      var n := |steps| - 1;
      assert steps[n] in steps && forall step :: step in steps[..n] ==> step in steps;
      ExecuteKeeps(s, steps[..n], e);
      StepKeeps(Execute(Start(s), steps[..n]), steps[n], e);
    }
  }

  /** Under every interleaving of ticks and deliver jobs, without resends, each notification is
      delivered at most once per channel, plus once for each aborted transaction that had sent it. */
  lemma DeliveredAtMostOnce(s: Store, steps: seq<Step>, e: Receipt)
    requires s.Valid() && forall step :: step in steps ==> !Resends(step)
    ensures var y := Execute(Start(s), steps);
      y.log[e] <= 1 + y.lost[e]
    ensures (forall step :: step in steps ==> !step.Abort?) ==> Execute(Start(s), steps).log[e] <= 1
  {
    ExecuteKeeps(s, steps, e);
    if forall step :: step in steps ==> !step.Abort? { NothingLost(s, steps, e); }
  }

  lemma NextLosesNothing(y: System, step: Step)
    requires !step.Abort?
    ensures Next(y, step).lost == y.lost
  {
    hide PlanRun, MessageTxn, Commit, AddNote;
  }

  lemma {:induction false} NothingLost(s: Store, steps: seq<Step>, e: Receipt)
    requires forall step :: step in steps ==> !step.Abort?
    ensures Execute(Start(s), steps).lost[e] == 0
  {
    hide Next;
    if steps != [] {
      var n := |steps| - 1;
      assert steps[n] in steps && forall step :: step in steps[..n] ==> step in steps;
      NothingLost(s, steps[..n], e);
      NextLosesNothing(Execute(Start(s), steps[..n]), steps[n]);
    }
  }

  // ------------------------------------------------------------------ the second writer and both stamps

  /** The event-message writer leaves a row with both email stamps if and only if it had both, or the row
      was emailed in a digest before and is mailed now. */
  lemma MessageBothStampsIff(g: Settings, w: MessageWorld, s: Store, u: UserId, n: Note)
    requires s.Valid() && n in s.notes
    ensures var st := s.stamps[n.id];
      Both(Commit(MessageTxn(g, w, s, u), s).stamps[n.id]) <==>
        Both(st) || (st.emailed.Some? && MailsMessage(g, w, s, u, n))
  {
    var t := MessageTxn(g, w, s, u);
    NotesDistinct(s);
    assert Commit(t, s).stamps[n.id] == StampRow(t, n.id, s.stamps[n.id]);
  }

  /** A message row emailed in a digest is mailed again once messages are switched to instant email. */
  lemma SwitchedMessagesStampBoth() returns (g: Settings, w: MessageWorld, s: Store)
    ensures s.Valid() && 0 in s.stamps && !Both(s.stamps[0])
    ensures var s' := Commit(MessageTxn(g, w, s, 1), s); 0 in s'.stamps && Both(s'.stamps[0])
  {
    hide MessageTxn;
    var n := Note(0, 1, 2, EventMessage, Some("event"), 0, None, None);
    var u := User(false, 0, {EventMessages}, {}, true, None, None);
    s := Store([n], map[0 := Stamps(Some(0), None, None)], map[1 := u]);
    g := Settings(true, {EventMessages}, {EventMessages}, {}, DEFAULT_SCHEDULE, None, true, 5, 20, 10);
    w := MessageWorld(0, {}, {"event"}, true, true, {}, map[]);
    assert MailsMessage(g, w, s, 1, n);
    MessageBothStampsIff(g, w, s, 1, n);
  }

  // ------------------------------------------------------------------ one email vehicle per row

  predicate Routes(step: Step, instant: set<Feature>) {
    && (step.BeginRun? ==> step.settings.instant == instant)
    && (step.BeginMessages? ==> step.settings.instant == instant)
  }

  /** Digest stamps, present or about to be committed, sit only on rows whose feature is not owned by
      instant email; instant stamps only on rows whose feature is sent instantly. */
  ghost predicate ByVehicle(y: System, instant: set<Feature>) {
    && (forall k :: k in y.running ==> y.running[k].txn.claimed <= y.store.stamps.Keys && Sound(y.running[k].txn))
    && (forall n :: n in y.store.notes ==>
          && n.id in y.store.stamps
          && (y.store.stamps[n.id].emailed.Some? ==> !InstantOwned(instant, FeatureOf(n.kind)))
          && (y.store.stamps[n.id].instant.Some? ==> InstantRouted(instant, FeatureOf(n.kind))))
    && (forall k, n :: k in y.running && n in y.store.notes ==>
          && (n.id in y.running[k].txn.email ==> !InstantOwned(instant, FeatureOf(n.kind)))
          && (n.id in y.running[k].txn.instant ==> InstantRouted(instant, FeatureOf(n.kind))))
  }

  lemma RunTxnByVehicle(c: Call, g: Settings, w: World, s: Store, n: Note)
    requires s.Valid() && n in s.notes
    ensures var t := RunTxn(c, g, w, s);
      && (n.id in t.email ==> !InstantOwned(g.instant, FeatureOf(n.kind)))
      && (n.id in t.instant ==> InstantRouted(g.instant, FeatureOf(n.kind)))
  {
    var p := PlanRun(c, g, w, s);
    NotesDistinct(s);
    if n.id in EmailStamped(p) {
      var m := RowOf(p.email, n.id);
      PlanRows(c, g, w, s, m);
    }
    if n.id in InstantStamped(p) {
      var m := RowOf(p.instant, n.id);
      PlanRows(c, g, w, s, m);
    }
  }

  lemma RowOf(rows: seq<Note>, id: Id) returns (n: Note)
    requires id in IdsOf(rows)
    ensures n in rows && n.id == id
  {
    n :| n in rows && n.id == id;
  }

  lemma MessageTxnByVehicle(g: Settings, w: MessageWorld, s: Store, u: UserId, n: Note)
    requires s.Valid() && n in s.notes
    ensures var t := MessageTxn(g, w, s, u);
      t.email == {} && (n.id in t.instant ==> InstantRouted(g.instant, FeatureOf(n.kind)))
  {
    NotesDistinct(s);
  }

  lemma StepKeepsVehicle(y: System, step: Step, instant: set<Feature>)
    requires y.store.Valid() && ByVehicle(y, instant) && Routes(step, instant)
    ensures Next(y, step).store.Valid() && ByVehicle(Next(y, step), instant)
  {
    match step
    case BeginRun(k, c, g, w) =>
      var v := w.(locked := Locked(y));
      RunTxnClaims(c, g, v, y.store);
      forall n | n in y.store.notes
        ensures var t := RunTxn(c, g, v, y.store);
          && (n.id in t.email ==> !InstantOwned(instant, FeatureOf(n.kind)))
          && (n.id in t.instant ==> InstantRouted(instant, FeatureOf(n.kind)))
      {
        RunTxnByVehicle(c, g, v, y.store, n);
      }
      BeginVehicle(y, k, RunTxn(c, g, v, y.store), instant);
    case BeginMessages(k, g, w, u) =>
      var v := w.(locked := Locked(y));
      MessageTxnClaims(g, v, y.store, u);
      forall n | n in y.store.notes
        ensures var t := MessageTxn(g, v, y.store, u);
          t.email == {} && (n.id in t.instant ==> InstantRouted(instant, FeatureOf(n.kind)))
      {
        MessageTxnByVehicle(g, v, y.store, u, n);
      }
      BeginVehicle(y, k, MessageTxn(g, v, y.store, u), instant);
    case Send(k, d) => RunningSame(y, Next(y, step), instant);
    case Finish(k) => FinishVehicle(y, k, instant);
    case Abort(k) => RunningSame(y, Next(y, step), instant);
    case NewNote(n, at) => NewNoteVehicle(y, n, at, instant);
    case NewUsers(users) => RunningSame(y, Next(y, step), instant);
  }

  lemma BeginVehicle(y: System, k: int, t: Txn, instant: set<Feature>)
    requires y.store.Valid() && ByVehicle(y, instant) && t.claimed <= y.store.stamps.Keys && Sound(t)
    requires forall n :: n in y.store.notes ==>
      && (n.id in t.email ==> !InstantOwned(instant, FeatureOf(n.kind)))
      && (n.id in t.instant ==> InstantRouted(instant, FeatureOf(n.kind)))
    ensures Begin(y, k, t).store.Valid() && ByVehicle(Begin(y, k, t), instant)
  {
  }

  lemma RunningSame(y: System, z: System, instant: set<Feature>)
    requires y.store.Valid() && ByVehicle(y, instant)
    requires z.store.notes == y.store.notes && z.store.stamps == y.store.stamps
    requires forall k :: k in z.running ==> k in y.running && z.running[k].txn == y.running[k].txn
    ensures z.store.Valid() && ByVehicle(z, instant)
  {
    forall k, n | k in z.running && n in z.store.notes
      ensures (n.id in z.running[k].txn.email ==> !InstantOwned(instant, FeatureOf(n.kind)))
           && (n.id in z.running[k].txn.instant ==> InstantRouted(instant, FeatureOf(n.kind)))
    {
      assert k in y.running;
    }
  }

  lemma FinishVehicle(y: System, k: int, instant: set<Feature>)
    requires y.store.Valid() && ByVehicle(y, instant)
    ensures Next(y, Finish(k)).store.Valid() && ByVehicle(Next(y, Finish(k)), instant)
  {
    var z := Next(y, Finish(k));
    if z != y {
      forall n | n in z.store.notes
        ensures (z.store.stamps[n.id].emailed.Some? ==> !InstantOwned(instant, FeatureOf(n.kind)))
             && (z.store.stamps[n.id].instant.Some? ==> InstantRouted(instant, FeatureOf(n.kind)))
      {
        assert z.store.stamps[n.id] == StampRow(y.running[k].txn, n.id, y.store.stamps[n.id]);
      }
      assert z.store.Valid();
    }
  }

  lemma NewNoteVehicle(y: System, n: Note, at: nat, instant: set<Feature>)
    requires y.store.Valid() && ByVehicle(y, instant)
    ensures Next(y, NewNote(n, at)).store.Valid() && ByVehicle(Next(y, NewNote(n, at)), instant)
  {
    var s, t := y.store, AddNote(y.store, n, at);
    if t != s {
      AddedNote(s, n, at);
    }
  }

  lemma {:induction false} ExecuteByVehicle(s: Store, steps: seq<Step>, instant: set<Feature>)
    requires s.Valid() && ByVehicle(Start(s), instant)
    requires forall step :: step in steps ==> Routes(step, instant)
    ensures Execute(Start(s), steps).store.Valid() && ByVehicle(Execute(Start(s), steps), instant)
  {
    hide Next;
    if steps != [] {
      var n := |steps| - 1;
      assert steps[n] in steps && forall step :: step in steps[..n] ==> step in steps;
      ExecuteByVehicle(s, steps[..n], instant);
      StepKeepsVehicle(Execute(Start(s), steps[..n]), steps[n], instant);
    }
  }

  /** With the instant routing held constant, over every interleaving of ticks, deliver jobs, resends
      and aborts, no row that started unstamped ever carries both email stamps. */
  lemma NeverBothEmailStamps(s: Store, steps: seq<Step>, instant: set<Feature>, n: Note)
    requires s.Valid() && forall m :: m in s.notes ==> s.stamps[m.id] == Unstamped()
    requires forall step :: step in steps ==> Routes(step, instant)
    ensures var end := Execute(Start(s), steps).store;
      n in end.notes ==> n.id in end.stamps && !Both(end.stamps[n.id])
  {
    ExecuteByVehicle(s, steps, instant);
  }

  // ------------------------------------------------------------------ one email per row

  /** What was or will be mailed went by the vehicle of the row's feature. */
  ghost predicate MailedByVehicle(y: System, instant: set<Feature>) {
    && (forall k, n :: k in y.running && n in y.store.notes ==>
          && (n.id in y.running[k].txn.email ==> !InstantOwned(instant, FeatureOf(n.kind)))
          && (n.id in y.running[k].txn.instant ==> InstantRouted(instant, FeatureOf(n.kind))))
    && (forall d :: d in y.log ==> d.id in y.store.stamps)
    && (forall n :: n in y.store.notes ==>
          && (Receipt(n.id, DigestMail) in y.log ==> !InstantOwned(instant, FeatureOf(n.kind)))
          && (Receipt(n.id, InstantMail) in y.log ==> InstantRouted(instant, FeatureOf(n.kind))))
  }

  lemma BeginMails(y: System, k: int, t: Txn, instant: set<Feature>)
    requires MailedByVehicle(y, instant)
    requires forall n :: n in y.store.notes ==>
      && (n.id in t.email ==> !InstantOwned(instant, FeatureOf(n.kind)))
      && (n.id in t.instant ==> InstantRouted(instant, FeatureOf(n.kind)))
    ensures MailedByVehicle(Begin(y, k, t), instant)
  {
  }

  lemma SendMails(y: System, k: int, d: Receipt, instant: set<Feature>)
    requires Isolated(y) && MailedByVehicle(y, instant)
    ensures MailedByVehicle(Next(y, Send(k, d)), instant)
  {
    var z := Next(y, Send(k, d));
    if z != y {
      SendsClaimed(y.running[k].txn, d);
      assert WillStamp(y.running[k].txn, d);
      assert forall j :: j in z.running ==> j in y.running && z.running[j].txn == y.running[j].txn;
    }
  }

  lemma FinishMails(y: System, k: int, instant: set<Feature>)
    requires MailedByVehicle(y, instant)
    ensures MailedByVehicle(Next(y, Finish(k)), instant)
  {
    hide StampRow;
    var z := Next(y, Finish(k));
    assert forall j :: j in z.running ==> j in y.running && z.running[j] == y.running[j];
    assert z.store.notes == y.store.notes && z.store.stamps.Keys == y.store.stamps.Keys;
  }

  lemma NewNoteMails(y: System, n: Note, at: nat, instant: set<Feature>)
    requires Isolated(y) && MailedByVehicle(y, instant)
    ensures MailedByVehicle(Next(y, NewNote(n, at)), instant)
  {
    if AddNote(y.store, n, at) != y.store {
      AddedNote(y.store, n, at);
      forall k | k in y.running ensures n.id !in y.running[k].txn.email && n.id !in y.running[k].txn.instant {
        assert Sound(y.running[k].txn) && Fresh(y.running[k].txn, y.store);
      }
    }
  }

  lemma StepMails(y: System, step: Step, instant: set<Feature>)
    requires Isolated(y) && MailedByVehicle(y, instant) && Routes(step, instant)
    ensures MailedByVehicle(Next(y, step), instant)
  {
    hide MailedByVehicle, Isolated;
    match step
    case BeginRun(k, c, g, w) =>
      var v := w.(locked := Locked(y));
      ValidStore(y);
      forall n | n in y.store.notes
        ensures var t := RunTxn(c, g, v, y.store);
          && (n.id in t.email ==> !InstantOwned(instant, FeatureOf(n.kind)))
          && (n.id in t.instant ==> InstantRouted(instant, FeatureOf(n.kind)))
      {
        RunTxnByVehicle(c, g, v, y.store, n);
      }
      BeginMails(y, k, RunTxn(c, g, v, y.store), instant);
    case BeginMessages(k, g, w, u) =>
      var v := w.(locked := Locked(y));
      ValidStore(y);
      forall n | n in y.store.notes
        ensures var t := MessageTxn(g, v, y.store, u);
          t.email == {} && (n.id in t.instant ==> InstantRouted(instant, FeatureOf(n.kind)))
      {
        MessageTxnByVehicle(g, v, y.store, u, n);
      }
      BeginMails(y, k, MessageTxn(g, v, y.store, u), instant);
    case Send(k, d) => SendMails(y, k, d, instant);
    case Finish(k) => FinishMails(y, k, instant);
    case Abort(k) => AbortMails(y, step, instant);
    case NewNote(n, at) => NewNoteMails(y, n, at, instant);
    case NewUsers(users) => AbortMails(y, step, instant);
  }

  lemma ValidStore(y: System)
    requires Isolated(y)
    ensures y.store.Valid()
  {
  }

  lemma AbortMails(y: System, step: Step, instant: set<Feature>)
    requires MailedByVehicle(y, instant) && (step.Abort? || step.NewUsers?)
    ensures MailedByVehicle(Next(y, step), instant)
  {
  }

  lemma {:induction false} ExecuteMails(s: Store, steps: seq<Step>, instant: set<Feature>)
    requires s.Valid() && forall step :: step in steps ==> !Resends(step) && Routes(step, instant)
    ensures MailedByVehicle(Execute(Start(s), steps), instant)
  {
    hide Next;
    if steps != [] {
      var n := |steps| - 1;
      assert steps[n] in steps && forall step :: step in steps[..n] ==> step in steps;
      ExecuteMails(s, steps[..n], instant);
      ExecuteKeeps(s, steps[..n], Receipt(0, DigestMail));
      StepMails(Execute(Start(s), steps[..n]), steps[n], instant);
    }
  }

  /** With constant instant routing and without resends, over every interleaving, a row is emailed at most
      once in all, by digest or instantly, plus once for each aborted transaction that had emailed it. */
  lemma EmailedAtMostOnce(s: Store, steps: seq<Step>, instant: set<Feature>, n: Note)
    requires s.Valid() && forall step :: step in steps ==> !Resends(step) && Routes(step, instant)
    ensures var y := Execute(Start(s), steps);
      var digest, mail := Receipt(n.id, DigestMail), Receipt(n.id, InstantMail);
      n in y.store.notes ==> y.log[digest] + y.log[mail] <= 1 + y.lost[digest] + y.lost[mail]
  {
    hide Execute;
    ExecuteMails(s, steps, instant);
    DeliveredAtMostOnce(s, steps, Receipt(n.id, DigestMail));
    DeliveredAtMostOnce(s, steps, Receipt(n.id, InstantMail));
  }
}
