/** The checkpoint protocol of one calendar. A token is a position in the source's log of changes; a
    run may be aborted, may fail at any step and may find its token expired. */
module CalendarSync {
  import opened Options

  type Id = string

  // ------------------------------------------------------------------ the source

  datatype Version = Version(id: Id, content: string, end: int)

  datatype Change = Put(version: Version) | Remove(gone: Id) {
    function Subject(): Id { if Put? then version.id else gone }
  }

  type Log = seq<Change>

  /** The events the calendar holds after the changes of `log`. */
  function Live(log: Log): (events: map<Id, Version>)
    ensures forall id :: id in events ==> events[id].id == id
  {
    if log == [] then map[] else
      var before, last := Live(log[..|log| - 1]), log[|log| - 1];
      if last.Put? then before[last.version.id := last.version] else before - {last.gone}
  }

  ghost predicate Touched(log: Log, since: nat, id: Id) {
    exists k :: since <= k < |log| && log[k].Subject() == id
  }

  lemma {:induction false} Untouched(log: Log, since: nat, id: Id)
    requires since <= |log| && !Touched(log, since, id)
    ensures id in Live(log) <==> id in Live(log[..since])
    ensures id in Live(log) ==> Live(log)[id] == Live(log[..since])[id]
  {
    if since == |log| {
      assert log[..since] == log;
    } else {
      var n := |log| - 1;
      assert log[n].Subject() != id;
      forall k | since <= k < n ensures log[..n][k].Subject() != id { assert log[k].Subject() != id; }
      Untouched(log[..n], since, id);
      assert log[..n][..since] == log[..since];
    }
  }

  // ------------------------------------------------------------------ what the source answers

  datatype SyncResult = SyncResult(events: seq<Version>, deleted: seq<Id>, next: Option<nat>)

  /** What a fetch must carry: everything touched since the token, or on a full fetch everything that
      has not ended before `timeMin`. */
  ghost predicate Wanted(log: Log, token: Option<nat>, timeMin: Option<int>, v: Version) {
    if token.Some? then Touched(log, token.value, v.id) else timeMin.Some? ==> v.end >= timeMin.value
  }

  /** The contract of `get_events`. An expired token is answered without a next token and then
      promises nothing; a full listing carries no deletions. */
  ghost predicate Honest(log: Log, token: Option<nat>, timeMin: Option<int>, r: SyncResult) {
    && (r.next.Some? ==>
          && r.next.value == |log|
          && (forall id :: id in Live(log) && Wanted(log, token, timeMin, Live(log)[id]) ==> Live(log)[id] in r.events))
    && (token.None? || r.next.Some? ==> forall v :: v in r.events ==> v.id in Live(log) && Live(log)[v.id] == v)
    && (token.None? ==> r.deleted == [])
    && (token.Some? && r.next.Some? ==>
          forall id :: id in r.deleted <==> id !in Live(log) && Touched(log, token.value, id))
  }

  // ------------------------------------------------------------------ one run

  /** The stored token, the versions ever accepted by the pipeline, the events held without a removal on
      record, those with one, carried out or proposed to an admin, and the listed events with another
      status change open, such as a cancellation an organizer asked for. */
  datatype Db = Db(token: Option<nat>, submitted: set<Version>, held: set<Id>, dropped: set<Id>, contested: set<Id>)

  datatype Fault = NoFault | AtTags | AtSubmit(event: nat) | AtDeletes | AtSave

  /** One run's surroundings: the answers to the fetch and to the repeated one (`None` when it raises),
      the observation of the abort flag from which on it is up, and the step that raises. The flag is
      observed once before the loop, then for each event by the loop and again inside `submit`. */
  datatype Script = Script(
    timeMin: Option<int>, first: Option<SyncResult>, second: Option<SyncResult>, abortAt: Option<nat>, fault: Fault)

  datatype Status = Processing | Warning | Failed

  datatype Outcome = Outcome(db: Db, status: Status)

  predicate AbortSeen(s: Script, observation: nat) { s.abortAt.Some? && s.abortAt.value <= observation }

  /** How many events pass the loop's check, and how many the check inside `submit`. */
  function Passed(s: Script, n: nat): nat {
    if s.abortAt.Some? && s.abortAt.value / 2 < n then s.abortAt.value / 2 else n
  }

  function Accepted(s: Script, n: nat): nat {
    if s.abortAt.None? then n
    else if s.abortAt.value == 0 then 0
    else if (s.abortAt.value - 1) / 2 < n then (s.abortAt.value - 1) / 2 else n
  }

  function Submit(db: Db, events: seq<Version>): Db {
    var ids := set v | v in events :: v.id;
    db.(submitted := db.submitted + (set v | v in events), held := db.held + ids, dropped := db.dropped - ids)
  }

  /** What the reported deletions put on record: an open status change stands in the way of a proposal. */
  function Gone(db: Db, deleted: seq<Id>): set<Id> { (set id | id in deleted) * db.held - db.contested }

  function Reconcile(db: Db, deleted: seq<Id>): Db {
    db.(held := db.held - Gone(db, deleted), dropped := db.dropped + Gone(db, deleted))
  }

  predicate Expired(local: Option<nat>, s: Script) {
    s.fault != AtTags && s.first.Some? && local.Some? && s.first.value.next.None?
  }

  /** The answer the run works with, if it gets that far. */
  function Answer(local: Option<nat>, s: Script): Option<SyncResult> {
    if s.fault == AtTags then None else if Expired(local, s) then s.second else s.first
  }

  function RunSync(db: Db, local: Option<nat>, s: Script): Outcome {
    var start := if Expired(local, s) then db.(token := None) else db;
    if Answer(local, s).None? then Outcome(start, Failed) else Finish(start, Answer(local, s).value, s)
  }

  function Finish(db: Db, r: SyncResult, s: Script): Outcome {
    var n := |r.events|;
    if AbortSeen(s, 0) then Outcome(db, Warning)
    else if s.fault.AtSubmit? && s.fault.event < Passed(s, n) then
      Outcome(Submit(db, r.events[..if s.fault.event < Accepted(s, n) then s.fault.event else Accepted(s, n)]), Failed)
    else
      var fed := Submit(db, r.events[..Accepted(s, n)]);
      if Passed(s, n) < n then Outcome(fed, Warning)
      else if s.fault == AtDeletes then Outcome(fed, Failed)
      else
        var cleaned := Reconcile(fed, r.deleted);
        if r.next.None? then Outcome(cleaned, Processing)
        else if s.fault == AtSave then Outcome(cleaned, Failed)
        else Outcome(cleaned.(token := r.next), Processing)
  }

  // ------------------------------------------------------------------ histories

  /** `floor` is the `timeMin` of the full fetch the stored token goes back to. */
  datatype World = World(log: Log, db: Db, floor: Option<int>)

  const INITIAL := World([], Db(None, {}, {}, {}, {}), None)

  /** A change at the source, a run, an admin's reseed, the start and end of another open status change,
      a removal from elsewhere, and an admin's decision to keep an event whose removal is on record. */
  datatype Step =
    | Source(change: Change)
    | Sync(script: Script)
    | Reseed
    | Contest(id: Id)
    | Settle(id: Id)
    | Drop(id: Id)
    | Keep(id: Id)

  predicate Full(local: Option<nat>, s: Script) { local.None? || Expired(local, s) }

  /** Answers are honest for the log as it is: a change that arrives while a run is under way is one
      that arrives behind it. */
  ghost predicate HonestScript(w: World, s: Script) {
    && (s.first.Some? ==> Honest(w.log, w.db.token, s.timeMin, s.first.value))
    && (s.second.Some? ==> Honest(w.log, None, s.timeMin, s.second.value))
  }

  ghost function Do(w: World, step: Step): World {
    match step
    case Source(change) => w.(log := w.log + [change])
    case Sync(s) =>
      if !HonestScript(w, s) then w else
        World(w.log, RunSync(w.db, w.db.token, s).db,
              if Full(w.db.token, s) && Saves(w.db.token, s) then s.timeMin else w.floor)
    case Reseed => w.(db := w.db.(token := None))
    case Contest(id) => w.(db := w.db.(contested := w.db.contested + {id}))
    case Settle(id) => w.(db := w.db.(contested := w.db.contested - {id}))
    case Drop(id) => w.(db := w.db.(held := w.db.held - {id}, dropped := w.db.dropped + {id} * w.db.held))
    case Keep(id) =>
      if id !in w.db.dropped then w else
        w.(db := w.db.(held := w.db.held + {id}, dropped := w.db.dropped - {id}))
  }

  ghost function Run(steps: seq<Step>): World {
    if steps == [] then INITIAL else
      var n := |steps| - 1;
      Do(Run(steps[..n]), steps[n])
  }

  predicate Ended(v: Version, floor: Option<int>) { floor.Some? && v.end < floor.value }

  /** The token has not moved past an event version nobody submitted. */
  ghost predicate TokenSafe(w: World) {
    w.db.token.Some? ==>
      && w.db.token.value <= |w.log|
      && forall id :: id in Live(w.log[..w.db.token.value]) ==>
           var v := Live(w.log[..w.db.token.value])[id];
           v in w.db.submitted || Ended(v, w.floor)
  }

  /** The flag goes up after the loop looked at it for the last event and before `submit` does: the
      event is dropped silently and the run goes on to store the token. */
  predicate AbortSlipsThrough(local: Option<nat>, s: Script) {
    var r := Answer(local, s);
    && r.Some? && r.value.next.Some? && r.value.events != []
    && s.abortAt == Some(2 * |r.value.events|) && s.fault != AtDeletes && s.fault != AtSave
    && !(s.fault.AtSubmit? && s.fault.event < |r.value.events|)
  }

  /** ... and that event was not known in this version before. */
  predicate LosesLastEvent(w: World, s: Script) {
    && AbortSlipsThrough(w.db.token, s)
    && var events := Answer(w.db.token, s).value.events;
       var last := events[|events| - 1];
       && last !in w.db.submitted && last !in events[..|events| - 1]
       && !Ended(last, if Full(w.db.token, s) then s.timeMin else w.floor)
  }

  /** Whether a run gets to store a new token. */
  predicate Saves(local: Option<nat>, s: Script) {
    var r := Answer(local, s);
    && r.Some? && r.value.next.Some? && !AbortSeen(s, 0) && Passed(s, |r.value.events|) == |r.value.events|
    && s.fault != AtDeletes && s.fault != AtSave && !(s.fault.AtSubmit? && s.fault.event < |r.value.events|)
  }

  lemma RunFacts(db: Db, local: Option<nat>, s: Script)
    ensures var db' := RunSync(db, local, s).db;
      && db.submitted <= db'.submitted
      && (if Saves(local, s) then db'.token == Answer(local, s).value.next
          else db'.token == if Expired(local, s) then None else db.token)
    ensures Saves(local, s) ==>
      var events := Answer(local, s).value.events;
      RunSync(db, local, s).db
        == Reconcile(Submit(db, events[..Accepted(s, |events|)]), Answer(local, s).value.deleted)
           .(token := Answer(local, s).value.next)
  {
  }

  /** What a run does, said of its script. It fails where something raises before the flag stops it, warns
      where the flag does, and otherwise goes through. An event is accepted when the flag is still down inside
      its submission and nothing raised at it or before it; that puts it back among the held ones. The
      reported deletions are recorded when the loop came to its end, except where another status change is
      open, and the token moves when nothing raised after that either. */
  lemma RunIsAsPromised(db: Db, local: Option<nat>, s: Script)
    ensures var outcome := RunSync(db, local, s);
      var expired := s.fault != AtTags && s.first.Some? && local.Some? && s.first.value.next.None?;
      var answer := if s.fault == AtTags then None else if expired then s.second else s.first;
      var start := if expired then None else db.token;
      && (answer.None? ==> outcome == Outcome(db.(token := start), Failed))
      && (answer.Some? ==>
            var events, up, db' := answer.value.events, s.abortAt, outcome.db;
            var n := |events|;
            var raised := s.fault.AtSubmit? && s.fault.event < n && (up.None? || 2 * s.fault.event + 1 < up.value);
            var stopped := up.Some? && (up.value == 0 || up.value <= 2 * n - 1);
            var through := !raised && !stopped && s.fault != AtDeletes;
            var saved := through && answer.value.next.Some? && s.fault != AtSave;
            var accepted := set i | 0 <= i < n && (up.None? || 2 * i + 2 < up.value)
                                    && (s.fault.AtSubmit? ==> i < s.fault.event) :: events[i];
            var back := set v | v in accepted :: v.id;
            var reported := set id | id in answer.value.deleted && id in db.held + back;
            var gone := if through then reported - db.contested else {};
            && outcome.status == (if raised then Failed else if stopped then Warning
                                  else if through && (saved || answer.value.next.None?) then Processing else Failed)
            && db'.submitted == db.submitted + accepted && db'.contested == db.contested
            && db'.held == db.held + back - gone && db'.dropped == db.dropped - back + gone
            && db'.token == if saved then answer.value.next else start)
  {
    if Answer(local, s).Some? {
      AcceptedAre(s, Answer(local, s).value.events);
      FinishIs(if Expired(local, s) then db.(token := None) else db, Answer(local, s).value, s);
      hide Finish, Fed;
    }
  }

  /** How many events are accepted before the flag goes up or something raises. */
  function Fed(s: Script, n: nat): nat {
    if s.fault.AtSubmit? && s.fault.event < Accepted(s, n) then s.fault.event else Accepted(s, n)
  }

  lemma FinishIs(db: Db, r: SyncResult, s: Script)
    ensures var n, up, outcome := |r.events|, s.abortAt, Finish(db, r, s);
      var raised := s.fault.AtSubmit? && s.fault.event < n && (up.None? || 2 * s.fault.event + 1 < up.value);
      var stopped := up.Some? && (up.value == 0 || up.value <= 2 * n - 1);
      var through := !raised && !stopped && s.fault != AtDeletes;
      var saved := through && r.next.Some? && s.fault != AtSave;
      var accepted := set v | v in r.events[..Fed(s, n)];
      var back := set v | v in accepted :: v.id;
      var gone := if through then (set id | id in r.deleted && id in db.held + back) - db.contested else {};
      && outcome.status == (if raised then Failed else if stopped then Warning
                            else if through && (saved || r.next.None?) then Processing else Failed)
      && outcome.db == Db(if saved then r.next else db.token, db.submitted + accepted, db.held + back - gone,
                          db.dropped - back + gone, db.contested)
  {
    var back := set v | v in r.events[..Fed(s, |r.events|)] :: v.id;
    assert back == set v | v in (set v | v in r.events[..Fed(s, |r.events|)]) :: v.id;
  }

  lemma AcceptedAre(s: Script, events: seq<Version>)
    ensures (set v | v in events[..Fed(s, |events|)]) ==
      set i | 0 <= i < |events| && (s.abortAt.None? || 2 * i + 2 < s.abortAt.value)
              && (s.fault.AtSubmit? ==> i < s.fault.event) :: events[i]
  {
    var k := Fed(s, |events|);
    forall i | 0 <= i < |events|
      ensures i < k <==>
        (s.abortAt.None? || 2 * i + 2 < s.abortAt.value) && (s.fault.AtSubmit? ==> i < s.fault.event) { }
    hide Fed;
    forall v | v in events[..k] ensures exists i :: 0 <= i < k && events[i] == v {
      var i :| 0 <= i < k && events[..k][i] == v;
      assert events[i] == v;
    }
    forall i | 0 <= i < k ensures events[i] in events[..k] { assert events[..k][i] == events[i]; }
  }

  /** Only in the one race are fewer events accepted than pass the loop. */
  lemma AcceptedUnlessSlips(local: Option<nat>, s: Script)
    requires Saves(local, s)
    ensures var n := |Answer(local, s).value.events|;
      Accepted(s, n) == if AbortSlipsThrough(local, s) then n - 1 else n
  {
  }

  /** A single run from a safe state, whatever aborts, faults and expiries it meets: the token stays
      behind everything submitted exactly unless the abort flag goes up inside the last submission. */
  lemma RunKeepsTokenSafeIff(w: World, s: Script)
    requires TokenSafe(w) && HonestScript(w, s)
    ensures TokenSafe(Do(w, Sync(s))) <==> !LosesLastEvent(w, s)
  {
    hide RunSync, Live;
    var w' := Do(w, Sync(s));
    RunFacts(w.db, w.db.token, s);
    if Saves(w.db.token, s) {
      AcceptedUnlessSlips(w.db.token, s);
      var r := Answer(w.db.token, s).value;
      var n, events := |r.events|, r.events;
      assert w.log[..|w.log|] == w.log;
      if LosesLastEvent(w, s) {
        var last := events[n - 1];
        assert last in events && last !in w'.db.submitted;
        assert Live(w.log)[last.id] == last;
      } else {
        forall id | id in Live(w.log) ensures Live(w.log)[id] in w'.db.submitted || Ended(Live(w.log)[id], w'.floor) {
          LiveIsSubmitted(w, s, id);
        }
      }
    } else {
      assert AbortSlipsThrough(w.db.token, s) ==> Saves(w.db.token, s);
    }
  }

  lemma LiveIsSubmitted(w: World, s: Script, id: Id)
    requires TokenSafe(w) && HonestScript(w, s) && Saves(w.db.token, s) && !LosesLastEvent(w, s) && id in Live(w.log)
    ensures var w' := Do(w, Sync(s));
      Live(w.log)[id] in w'.db.submitted || Ended(Live(w.log)[id], w'.floor)
  {
    hide RunSync, Live;
    RunFacts(w.db, w.db.token, s);
    AcceptedUnlessSlips(w.db.token, s);
    var local := if Expired(w.db.token, s) then None else w.db.token;
    var events, v := Answer(w.db.token, s).value.events, Live(w.log)[id];
    if Wanted(w.log, local, s.timeMin, v) {
      assert v in events;
      var n := |events|;
      assert events == events[..n - 1] + [events[n - 1]];
      assert Accepted(s, n) == n ==> events[..n] == events;
    } else if local.Some? {
      Untouched(w.log, local.value, id);
    }
  }

  /** Over every history of source changes and runs in which no abort slips into the last submission,
      the stored token never passes an event version that was not submitted. */
  lemma {:induction false} TokenNeverPasses(steps: seq<Step>)
    requires forall k :: 0 <= k < |steps| && steps[k].Sync? ==> !LosesLastEvent(Run(steps[..k]), steps[k].script)
    ensures TokenSafe(Run(steps))
  {
    if steps != [] {
      var n := |steps| - 1;
      var w := Run(steps[..n]);
      forall k | 0 <= k < n && steps[..n][k].Sync? ensures !LosesLastEvent(Run(steps[..n][..k]), steps[..n][k].script) {
        assert steps[..n][..k] == steps[..k] && steps[k].Sync?;
      }
      TokenNeverPasses(steps[..n]);
      match steps[n]
      case Source(change) =>
        if w.db.token.Some? { assert (w.log + [change])[..w.db.token.value] == w.log[..w.db.token.value]; }
      case Sync(s) =>
        if HonestScript(w, s) { RunKeepsTokenSafeIff(w, s); }
      case _ =>
    }
  }

  /** Nothing is exempt from that unless a full run that saved its token had a `timeMin`. */
  lemma {:induction false} NothingIsExempt(steps: seq<Step>)
    requires forall k :: 0 <= k < |steps| && steps[k].Sync? && steps[k].script.timeMin.Some? ==>
               !(Full(Run(steps[..k]).db.token, steps[k].script) && Saves(Run(steps[..k]).db.token, steps[k].script))
    ensures Run(steps).floor == None
  {
    if steps != [] {
      hide RunSync, Saves, Full;
      var n := |steps| - 1;
      forall k | 0 <= k < n && steps[..n][k].Sync? && steps[..n][k].script.timeMin.Some?
        ensures !(Full(Run(steps[..n][..k]).db.token, steps[..n][k].script)
                  && Saves(Run(steps[..n][..k]).db.token, steps[..n][k].script)) {
        assert steps[..n][..k] == steps[..k] && steps[..n][k] == steps[k];
      }
      NothingIsExempt(steps[..n]);
    }
  }

  /** The abort flag goes up inside the only submission: the event is lost and the token passes it. */
  lemma AbortCanSlipThrough(v: Version)
    ensures var w := World([Put(v)], Db(None, {}, {}, {}, {}), None);
      var s := Script(None, Some(SyncResult([v], [], Some(1))), None, Some(2), NoFault);
      TokenSafe(w) && HonestScript(w, s) && Do(w, Sync(s)).db.token == Some(1) && !TokenSafe(Do(w, Sync(s)))
  {
    var w := World([Put(v)], Db(None, {}, {}, {}, {}), None);
    var s := Script(None, Some(SyncResult([v], [], Some(1))), None, Some(2), NoFault);
    assert w.log[..0] == [];
    assert Live(w.log) == map[v.id := v];
    assert HonestScript(w, s);
    RunKeepsTokenSafeIff(w, s);
    RunFacts(w.db, w.db.token, s);
  }

  // ------------------------------------------------------------------ deletions

  /** The next fetch from the stored token has something to say about the event. */
  ghost predicate Reported(w: World, id: Id) {
    w.db.token.Some? && w.db.token.value <= |w.log| && Touched(w.log, w.db.token.value, id)
  }

  /** An event the calendar no longer holds and no later fetch will report. */
  ghost predicate Ghost(w: World, id: Id) { id in w.db.held && id !in Live(w.log) && !Reported(w, id) }

  ghost predicate TokenInLog(w: World) { w.db.token.Some? ==> w.db.token.value <= |w.log| }

  /** The step forgets a deletion: the source removes a held event while there is no token; the token
      expires, or is cleared for a reseed, before a held event's removal was fetched; a run fetches the
      removal, finds another status change open and saves its token all the same; or an admin keeps an
      event after its removal was fetched. */
  ghost predicate Forgets(w: World, step: Step, id: Id) {
    match step
    case Source(change) => w.db.token.None? && change == Remove(id) && id in w.db.held
    case Sync(s) =>
      && HonestScript(w, s) && id in w.db.held && id !in Live(w.log)
      && (Expired(w.db.token, s) || (Saves(w.db.token, s) && id in w.db.contested))
    case Reseed => id in w.db.held && id !in Live(w.log)
    case Keep(kept) => kept == id && id in w.db.dropped && id !in Live(w.log) && !Reported(w, id)
    case _ => false
  }

  lemma TouchedGrows(log: Log, since: nat, change: Change, id: Id)
    requires since <= |log|
    ensures Touched(log + [change], since, id) <==> Touched(log, since, id) || change.Subject() == id
  {
    var more := log + [change];
    assert more[|log|] == change;
    if k :| since <= k < |log| && log[k].Subject() == id { assert more[k].Subject() == id; }
  }

  lemma RunShows(w: World, s: Script, id: Id)
    requires HonestScript(w, s)
    ensures var db' := RunSync(w.db, w.db.token, s).db;
      && (id in db'.held ==> id in w.db.held || id in Live(w.log))
      && (id in w.db.held && id !in db'.held ==>
        Answer(w.db.token, s).Some? && id in Answer(w.db.token, s).value.deleted && id !in w.db.contested)
  {
    hide Live, Wanted;
  }

  lemma SourceStep(w: World, change: Change, id: Id)
    requires TokenInLog(w) && !Ghost(w, id)
    ensures Ghost(w.(log := w.log + [change]), id) <==> w.db.token.None? && change == Remove(id) && id in w.db.held
  {
    assert (w.log + [change])[..|w.log|] == w.log;
    if w.db.token.Some? { TouchedGrows(w.log, w.db.token.value, change, id); }
  }

  lemma GhostStaysAtSource(w: World, change: Change, id: Id)
    requires TokenInLog(w) && Ghost(w, id) && change.Subject() != id
    ensures Ghost(w.(log := w.log + [change]), id)
  {
    assert (w.log + [change])[..|w.log|] == w.log;
    if w.db.token.Some? { TouchedGrows(w.log, w.db.token.value, change, id); }
  }

  /** A single step makes a ghost of `id` exactly when it forgets its deletion. */
  lemma StepMakesGhostIff(w: World, step: Step, id: Id)
    requires TokenInLog(w) && !Ghost(w, id)
    ensures TokenInLog(Do(w, step))
    ensures Ghost(Do(w, step), id) <==> Forgets(w, step, id)
  {
    hide RunSync, Live;
    match step
    case Source(change) =>
      SourceStep(w, change, id);
    case Sync(s) =>
      if HonestScript(w, s) {
        RunFacts(w.db, w.db.token, s);
        RunShows(w, s, id);
      }
    case _ =>
  }

  /** Neither the source nor anybody's removal concerns the event. */
  predicate Leaves(step: Step, id: Id) { step != Drop(id) && (step.Source? ==> step.change.Subject() != id) }

  lemma GhostStays(w: World, step: Step, id: Id)
    requires TokenInLog(w) && Ghost(w, id)
    requires Leaves(step, id)
    ensures TokenInLog(Do(w, step)) && Ghost(Do(w, step), id)
  {
    hide RunSync, Live;
    match step
    case Source(change) =>
      GhostStaysAtSource(w, change, id);
    case Sync(s) =>
      if HonestScript(w, s) {
        RunFacts(w.db, w.db.token, s);
        RunShows(w, s, id);
      }
    case _ =>
  }

  /** No run repairs a ghost: over every further history, reseeds and decisions included, it stays until
      the source touches the event again or somebody removes it by hand. */
  lemma {:induction false} GhostsStay(steps: seq<Step>, more: seq<Step>, id: Id)
    requires TokenInLog(Run(steps)) && Ghost(Run(steps), id)
    requires forall step :: step in more ==> Leaves(step, id)
    ensures TokenInLog(Run(steps + more)) && Ghost(Run(steps + more), id)
  {
    if more == [] {
      assert steps + more == steps;
    } else {
      hide *;
      var n := |more| - 1;
      assert (steps + more)[..|steps + more| - 1] == steps + more[..n];
      assert more[n] in more && forall step :: step in more[..n] ==> step in more;
      GhostsStay(steps, more[..n], id);
      GhostStays(Run(steps + more[..n]), more[n], id);
      RunPush(steps + more);
    }
  }

  lemma RunPush(steps: seq<Step>)
    requires steps != []
    ensures Run(steps) == Do(Run(steps[..|steps| - 1]), steps[|steps| - 1])
  {
  }

  lemma FetchedRemoval(v: Version, w: World)
    requires w.log == [Put(v), Remove(v.id)] && w.db.token == Some(1)
    ensures v.id !in Live(w.log) && Reported(w, v.id)
    ensures Honest(w.log, Some(1), None, SyncResult([], [v.id], Some(2)))
    ensures Honest(w.log, None, None, SyncResult([], [], Some(2)))
  {
    assert w.log[..1] == [Put(v)] && w.log[..1][..0] == [];
    assert Live([Put(v)]) == map[v.id := v];
    assert Live(w.log) == Live(w.log[..1]) - {v.id};
    assert w.log[1].Subject() == v.id;
  }

  /** An event is removed at the source, the token expires before the next fetch, and the full listing
      that replaces it says nothing about the removal. */
  lemma ExpiryCanForget(v: Version)
    ensures var w := World([Put(v), Remove(v.id)], Db(Some(1), {v}, {v.id}, {}, {}), None);
      var s := Script(None, Some(SyncResult([], [], None)), Some(SyncResult([], [], Some(2))), None, NoFault);
      !Ghost(w, v.id) && HonestScript(w, s) && Do(w, Sync(s)).db.token == Some(2) && Ghost(Do(w, Sync(s)), v.id)
  {
    var w := World([Put(v), Remove(v.id)], Db(Some(1), {v}, {v.id}, {}, {}), None);
    var s := Script(None, Some(SyncResult([], [], None)), Some(SyncResult([], [], Some(2))), None, NoFault);
    FetchedRemoval(v, w);
    assert HonestScript(w, s);
    StepMakesGhostIff(w, Sync(s), v.id);
    RunFacts(w.db, w.db.token, s);
  }

  /** An admin reseeds the calendar before a removal was fetched; the full run that follows saves its
      token and the event stays. */
  lemma ReseedCanForget(v: Version)
    ensures var w := World([Put(v), Remove(v.id)], Db(Some(1), {v}, {v.id}, {}, {}), None);
      var s := Script(None, Some(SyncResult([], [], Some(2))), None, None, NoFault);
      var w' := Do(Do(w, Reseed), Sync(s));
      !Ghost(w, v.id) && HonestScript(Do(w, Reseed), s) && w'.db.token == Some(2) && Ghost(w', v.id)
  {
    var w := World([Put(v), Remove(v.id)], Db(Some(1), {v}, {v.id}, {}, {}), None);
    var s := Script(None, Some(SyncResult([], [], Some(2))), None, None, NoFault);
    FetchedRemoval(v, w);
    StepMakesGhostIff(w, Reseed, v.id);
    GhostStays(Do(w, Reseed), Sync(s), v.id);
    RunFacts(Do(w, Reseed).db, None, s);
  }

  /** The organizer of a listed event asked for a cancellation. The calendar then deletes the event, the
      run fetches the deletion, records nothing and moves the token past it. */
  lemma CancellationCanForget(v: Version)
    ensures var w := World([Put(v), Remove(v.id)], Db(Some(1), {v}, {v.id}, {}, {}), None);
      var s := Script(None, Some(SyncResult([], [v.id], Some(2))), None, None, NoFault);
      var w' := Do(Do(Do(w, Contest(v.id)), Sync(s)), Settle(v.id));
      !Ghost(w, v.id) && HonestScript(w, s) && w'.db.token == Some(2) && Ghost(w', v.id)
  {
    var w := World([Put(v), Remove(v.id)], Db(Some(1), {v}, {v.id}, {}, {}), None);
    var s := Script(None, Some(SyncResult([], [v.id], Some(2))), None, None, NoFault);
    FetchedRemoval(v, w);
    var asked := Do(w, Contest(v.id));
    FetchedRemoval(v, asked);
    StepMakesGhostIff(asked, Sync(s), v.id);
    RunFacts(asked.db, Some(1), s);
    GhostStays(Do(asked, Sync(s)), Settle(v.id), v.id);
  }

  /** Over every history: as long as no deletion is forgotten, each held event is one the calendar
      still holds or one whose removal the next fetch reports. */
  lemma {:induction false} DeletionsArrive(steps: seq<Step>, id: Id)
    requires forall k :: 0 <= k < |steps| ==> !Forgets(Run(steps[..k]), steps[k], id)
    ensures TokenInLog(Run(steps)) && !Ghost(Run(steps), id)
  {
    if steps != [] {
      var n := |steps| - 1;
      forall k | 0 <= k < n ensures !Forgets(Run(steps[..n][..k]), steps[..n][k], id) {
        assert steps[..n][..k] == steps[..k];
      }
      DeletionsArrive(steps[..n], id);
      StepMakesGhostIff(Run(steps[..n]), steps[n], id);
    }
  }
}
