/** The worker itself: fetch with fallback, submit loop, deletions, checkpoint. Its effect on the
    database is the run of `CalendarSync`. */
module CalendarSyncWorker {
  import opened Options
  import opened CalendarSync

  /** The calendar's row, the pipeline's intake and the cached events. */
  class Store {
    var token: Option<nat>
    var submitted: set<Version>
    var held: set<Id>
    var listed: set<Id>    // what people can see
    var removed: set<Id>
    var proposed: set<Id>  // removals that wait for an admin
    var disputed: set<Id>  // another status change is open

    constructor ()
      ensures Contents() == INITIAL.db && listed == {} && removed == {} && proposed == {} && disputed == {}
    {
      token, submitted, held, listed, removed, proposed, disputed := None, {}, {}, {}, {}, {}, {};
    }

    function Contents(): Db reads this { Db(token, submitted, held, removed + proposed, listed * disputed) }
  }

  lemma SubmitPush(db: Db, events: seq<Version>, i: nat)
    requires i < |events|
    ensures var before := Submit(db, events[..i]);
      Submit(db, events[..i + 1])
        == before.(submitted := before.submitted + {events[i]}, held := before.held + {events[i].id},
                   dropped := before.dropped - {events[i].id})
  {
    assert events[..i + 1] == events[..i] + [events[i]];
  }

  lemma NothingSubmitted(db: Db, events: seq<Version>)
    ensures Submit(db, events[..0]) == db
  {
  }

  lemma GonePush(db: Db, deleted: seq<Id>, i: nat)
    requires i < |deleted|
    ensures Gone(db, deleted[..i + 1]) == Gone(db, deleted[..i]) + ({deleted[i]} * db.held - db.contested)
  {
    assert deleted[..i + 1] == deleted[..i] + [deleted[i]];
  }

  class CalendarSyncWorker {
    const store: Store
    const script: Script
    var syncToken: Option<nat>
    var status: Status
    var fetched: nat

    constructor (store: Store, script: Script)
      ensures this.store == store && this.script == script && syncToken == store.token
    {
      this.store, this.script, syncToken, status, fetched := store, script, store.token, Processing, 0;
    }

    method FetchWithFallback() returns (result: Option<SyncResult>)
      requires script.fault != AtTags
      modifies this`syncToken, store`token
      ensures result == Answer(old(syncToken), script)
      ensures syncToken == if Expired(old(syncToken), script) then None else old(syncToken)
      ensures store.token == if Expired(old(syncToken), script) then None else old(store.token)
    {
      result := script.first;
      if result.Some? && syncToken.Some? && result.value.next.None? {
        store.token := None;
        syncToken := None;
        result := script.second;
      }
    }

    /** Drops the event silently once the abort flag is up. A submitted event is back at its source, so
        its removal is undone or withdrawn. */
    method SubmitEvent(event: Version, observation: nat)
      modifies store`submitted, store`held, store`removed, store`proposed
      ensures AbortSeen(script, observation) ==> store.Contents() == old(store.Contents())
      ensures !AbortSeen(script, observation) ==>
        store.Contents() == old(store.Contents()).(
          submitted := old(store.submitted) + {event}, held := old(store.held) + {event.id},
          dropped := old(store.Contents()).dropped - {event.id})
    {
      if AbortSeen(script, observation) { return; }
      store.submitted := store.submitted + {event};
      store.held := store.held + {event.id};
      store.removed := store.removed - {event.id};
      store.proposed := store.proposed - {event.id};
    }

    /** Removes what nobody sees yet. The removal of a listed event is proposed, unless another status
        change of it is open: then nothing is recorded. */
    method RecordRemoval(id: Id)
      modifies store`held, store`removed, store`proposed
      ensures var gone := {id} * old(store.held) - store.listed * store.disputed;
        && store.held == old(store.held) - gone
        && store.proposed == old(store.proposed) + gone * store.listed
        && store.removed == old(store.removed) + (gone - store.listed)
    {
      if id !in store.held { return; }
      assert {id} * store.held == {id};
      if id !in store.listed {
        store.held := store.held - {id};
        store.removed := store.removed + {id};
        return;
      }
      if id in store.disputed { return; }
      store.held := store.held - {id};
      store.proposed := store.proposed + {id};
    }

    method ReconcileDeletes(deleted: seq<Id>)
      modifies store`held, store`removed, store`proposed
      ensures store.Contents() == Reconcile(old(store.Contents()), deleted)
      ensures var gone := Gone(old(store.Contents()), deleted);
        && store.proposed == old(store.proposed) + gone * store.listed
        && store.removed == old(store.removed) + (gone - store.listed)
    {
      ghost var db, proposed, removed := store.Contents(), store.proposed, store.removed;
      for i := 0 to |deleted|
        invariant store.held == db.held - Gone(db, deleted[..i])
        invariant store.proposed == proposed + Gone(db, deleted[..i]) * store.listed
        invariant store.removed == removed + (Gone(db, deleted[..i]) - store.listed)
      {
        GonePush(db, deleted, i);
        RecordRemoval(deleted[i]);
      }
      assert deleted[..|deleted|] == deleted;
    }

    method Run()
      modifies this, store
      ensures Outcome(store.Contents(), status) == RunSync(old(store.Contents()), old(syncToken), script)
    {
      hide Submit;
      fetched := 0;
      if script.fault == AtTags { status := Failed; return; }
      var result := FetchWithFallback();
      if result.None? { status := Failed; return; }
      ghost var start := store.Contents();
      var r := result.value;
      if AbortSeen(script, 0) { status := Warning; return; }
      ghost var n := |r.events|;
      NothingSubmitted(start, r.events);
      var i := 0;
      while i < |r.events|
        invariant i <= Passed(script, n) && fetched == i
        invariant script.fault.AtSubmit? && script.fault.event < Passed(script, n) ==> i <= script.fault.event
        invariant store.Contents()
          == Submit(start, r.events[..if i < Accepted(script, n) then i else Accepted(script, n)])
      {
        if AbortSeen(script, 2 * i + 1) { status := Warning; return; }
        fetched := fetched + 1;
        if script.fault == AtSubmit(i) { status := Failed; return; }
        SubmitPush(start, r.events, i);
        SubmitEvent(r.events[i], 2 * i + 2);
        i := i + 1;
      }
      if script.fault == AtDeletes { status := Failed; return; }
      ReconcileDeletes(r.deleted);
      if r.next.Some? {
        if script.fault == AtSave { status := Failed; return; }
        store.token := r.next;
      }
      status := Processing;
    }
  }
}
