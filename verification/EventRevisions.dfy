/** What a sync does to an event that exists already: the two callers of the merge, and the staging of a
    reviewed event's incoming values as one pending change that an admin decides. */
module EventRevisions {
  import opened Options
  import opened CalendarMerge

  // ------------------------------------------------------------------ revisable fields

  datatype Plain = Plain(title: string, location: Option<string>, start: int, end: int, allDay: bool)

  datatype Values = Values(plain: Plain, text: Option<string>, links: Option<seq<Link>>, price: Price)

  datatype Field =
    | Title | Location | Start | End | AllDay | Description | Links
    | PriceMin | PriceMax | PriceCurrency | PriceIsFree

  predicate Same(f: Field, a: Values, b: Values) {
    match f
    case Title => a.plain.title == b.plain.title
    case Location => a.plain.location == b.plain.location
    case Start => a.plain.start == b.plain.start
    case End => a.plain.end == b.plain.end
    case AllDay => a.plain.allDay == b.plain.allDay
    case Description => a.text == b.text
    case Links => a.links == b.links
    case PriceMin => a.price.min == b.price.min
    case PriceMax => a.price.max == b.price.max
    case PriceCurrency => a.price.currency == b.price.currency
    case PriceIsFree => a.price.isFree == b.price.isFree
  }

  function Differing(a: Values, b: Values): set<Field> { set f: Field | !Same(f, a, b) }

  /** `base` with the given fields taken from `now`. */
  function Written(base: Values, fields: set<Field>, now: Values): Values {
    Values(Plain(if Title in fields then now.plain.title else base.plain.title,
                 if Location in fields then now.plain.location else base.plain.location,
                 if Start in fields then now.plain.start else base.plain.start,
                 if End in fields then now.plain.end else base.plain.end,
                 if AllDay in fields then now.plain.allDay else base.plain.allDay),
           if Description in fields then now.text else base.text,
           if Links in fields then now.links else base.links,
           Price(if PriceMin in fields then now.price.min else base.price.min,
                 if PriceMax in fields then now.price.max else base.price.max,
                 if PriceCurrency in fields then now.price.currency else base.price.currency,
                 if PriceIsFree in fields then now.price.isFree else base.price.isFree))
  }

  lemma WrittenAt(base: Values, fields: set<Field>, now: Values, f: Field, v: Values)
    ensures Same(f, Written(base, fields, now), v) <==> Same(f, if f in fields then now else base, v)
  {
  }

  lemma NoneDiffers(a: Values, b: Values)
    ensures Differing(a, b) == {} <==> a == b
  {
    if Differing(a, b) == {} {
      forall f: Field ensures Same(f, a, b) { assert f !in Differing(a, b); }
      assert a.plain == b.plain by {
        assert Same(Title, a, b) && Same(Location, a, b) && Same(Start, a, b) && Same(End, a, b) && Same(AllDay, a, b);
      }
      assert a.price == b.price by {
        assert Same(PriceMin, a, b) && Same(PriceMax, a, b) && Same(PriceCurrency, a, b) && Same(PriceIsFree, a, b);
      }
      assert Same(Description, a, b) && Same(Links, a, b);
    }
  }

  // ------------------------------------------------------------------ the row and its revisions

  /** A change proposes the values of `now` for its fields. */
  datatype Change = Change(fields: set<Field>, now: Values)

  predicate SameChange(a: Change, b: Change) {
    a.fields == b.fields && forall f :: f in a.fields ==> Same(f, a.now, b.now)
  }

  /** An event as the syncs see it. `received` is what the last sync brought, `pending` the open change from
      the source, `removal` its open removal, `key` the stored content hash. */
  datatype Row = Row(
    plain: Plain, event: Event, reviewed: bool, received: Option<Values>, pending: Option<Change>,
    discarded: seq<Change>, removal: bool, deleted: bool, located: bool, key: Option<string>)

  function Snapshot(r: Row): Values { Values(r.plain, r.event.description, r.event.links, r.event.price) }

  function Restored(r: Row, v: Values): Row {
    r.(plain := v.plain, event := r.event.(description := v.text, links := v.links, price := v.price))
  }

  function Offered(r: Row): set<Field> { if r.pending.Some? then r.pending.value.fields else {} }

  function Moved(before: Values, r: Row): set<Field> {
    Differing(Snapshot(r), if r.received.Some? then r.received.value else before)
  }

  /** Earlier proposals the source still stands by. */
  function StandsBy(r: Row): set<Field> { set f | f in Offered(r) && Same(f, r.pending.value.now, Snapshot(r)) }

  function Incoming(before: Values, r: Row): Change {
    Change((Moved(before, r) + StandsBy(r)) * Differing(Snapshot(r), before), Snapshot(r))
  }

  predicate Discarded(r: Row, change: Change) { exists d :: d in r.discarded && SameChange(d, change) }

  /** `r` is the row with the sync's values in place, `before` what it showed until then. */
  function Stage(before: Values, r: Row): Row {
    var noted := r.(received := Some(Snapshot(r)), removal := false);
    if !r.reviewed then noted else
      var live, change := Restored(noted, before), Incoming(before, r);
      if Moved(before, r) == {} then live
      else if change.fields == {} then live.(pending := None)
      else if (r.pending.Some? && SameChange(r.pending.value, change)) || Discarded(r, change) then live
      else live.(pending := Some(change))
  }

  // ------------------------------------------------------------------ the two callers

  /** Parsing, and the content hash of title, start and location: arbitrary functions. */
  datatype Env = Env(tools: Parsers, digest: (string, int, Option<string>) -> string)

  /** What a sync brings; `located` when geocoding found coordinates, which only the pipeline does here. */
  datatype News = News(plain: Plain, source: Option<string>, located: bool)

  datatype Caller = Service | Pipeline

  function KeyOf(env: Env, p: Plain): string { env.digest(p.title, p.start, p.location) }

  /** The pipeline takes the event for unchanged. */
  predicate Skips(env: Env, r: Row, news: News) {
    && r.key == Some(KeyOf(env, news.plain)) && r.event.source == news.source
    && StateOf(r.event).version == Some(EXTRACTOR_STATE_VERSION)
    && !(!r.located && news.located)
    && !(r.event.links.None? && env.tools.extract(news.source).payload.Some?)
  }

  /** The row with everything written in place, before staging. */
  function Merged(env: Env, r: Row, news: News, caller: Caller): Row {
    r.(event := Pulled(env.tools, r.event, news.source, caller.Pipeline?, false),
       plain := news.plain, key := Some(KeyOf(env, news.plain)), deleted := false,
       located := r.located || (caller.Pipeline? && news.located))
  }

  function Receive(env: Env, r: Row, news: News, caller: Caller): Row {
    if caller.Pipeline? && Skips(env, r, news) then r else Stage(Snapshot(r), Merged(env, r, news, caller))
  }

  // ------------------------------------------------------------------ histories

  /** A sync; the admin accepts or discards the pending change; another applied change, such as an admin's
      draft, which takes its fields out of the pending one; an edit in place; the event is published or
      taken back; its source deletes it, which is proposed for a listed event and closes the pending
      change of any other; an image import or the tag stage. */
  datatype Action =
    | Arrive(news: News, caller: Caller)
    | Accept
    | Discard
    | Decide(change: Change)
    | Edit(change: Change)
    | Publish(reviewed: bool)
    | Delete(listed: bool)
    | Inner(step: Step)

  function Without(pending: Option<Change>, fields: set<Field>): Option<Change> {
    if pending.None? || pending.value.fields <= fields then None
    else Some(pending.value.(fields := pending.value.fields - fields))
  }

  function Write(r: Row, change: Change): Row { Restored(r, Written(Snapshot(r), change.fields, change.now)) }

  function Act(env: Env, r: Row, action: Action): Row {
    match action
    case Arrive(news, caller) => Receive(env, r, news, caller)
    case Accept => if r.pending.None? then r else Write(r, r.pending.value).(pending := None)
    case Discard =>
      if r.pending.None? then r else r.(pending := None, discarded := r.discarded + [r.pending.value])
    case Decide(change) => Write(r, change).(pending := Without(r.pending, change.fields))
    case Edit(change) => Write(r, change)
    case Publish(reviewed) => r.(reviewed := reviewed)
    case Delete(listed) =>
      if r.deleted then r else if listed then r.(removal := true)
      else r.(deleted := true, removal := false, pending := None)
    case Inner(step) =>
      if step.Import? || step.EditImage? || step.Tag? then r.(event := Do(env.tools, r.event, step)) else r
  }

  function Execute(env: Env, r: Row, actions: seq<Action>): Row {
    if actions == [] then r else
      var n := |actions| - 1;
      Act(env, Execute(env, r, actions[..n]), actions[n])
  }

  // ------------------------------------------------------------------ published values

  /** A sync of a reviewed event changes nothing that people see; for the merge it is a reviewed pull. */
  lemma SyncKeepsPublished(env: Env, r: Row, news: News, caller: Caller)
    requires r.reviewed
    ensures Snapshot(Receive(env, r, news, caller)) == Snapshot(r)
  {
  }

  lemma ReceiveIsPull(env: Env, r: Row, news: News, caller: Caller)
    requires !(caller.Pipeline? && Skips(env, r, news))
    ensures Receive(env, r, news, caller).event
         == Do(env.tools, r.event, Pull(news.source, caller.Pipeline?, r.reviewed))
  {
  }

  // ------------------------------------------------------------------ nothing is lost before review

  /** What waits for review is exactly the difference between what is live and what the last sync brought. */
  ghost predicate Faithful(r: Row) {
    match r.received
    case None => r.pending.None?
    case Some(v) =>
      var fields := Differing(v, Snapshot(r));
      if fields == {} then r.pending.None?
      else r.pending.Some? && SameChange(r.pending.value, Change(fields, v))
  }

  /** The source brings back a difference an admin discarded before: it is not proposed again, and whatever
      else is pending stays. */
  ghost predicate Withholds(r: Row, before: Values) {
    var change := Change(Differing(Snapshot(r), before), Snapshot(r));
    && r.reviewed && Snapshot(r) != before && Snapshot(r) != (if r.received.Some? then r.received.value else before)
    && !(r.pending.Some? && SameChange(r.pending.value, change)) && Discarded(r, change)
  }

  /** Whether the action leaves review with something else than the difference. */
  ghost predicate Unfaithful(env: Env, r: Row, action: Action) {
    match action
    case Arrive(news, caller) =>
      && !(caller.Pipeline? && Skips(env, r, news))
      && var merged := Merged(env, r, news, caller);
         if r.reviewed then Withholds(merged, Snapshot(r)) else r.pending.Some?
    case Discard => r.pending.Some?
    case Delete(listed) => !r.deleted && !listed && r.pending.Some?
    case Decide(change) => r.received.Some? && exists f :: f in change.fields && !Same(f, change.now, r.received.value)
    case Edit(change) =>
      r.received.Some? && exists f :: f in change.fields && (Same(f, change.now, r.received.value) <==> f in Offered(r))
    case _ => false
  }

  /** In a faithful state the change a sync computes is the whole difference. */
  lemma IncomingIsDifference(before: Values, r: Row, pending: Row)
    requires Faithful(pending) && Snapshot(pending) == before
    requires r.pending == pending.pending && r.received == pending.received
    ensures Incoming(before, r).fields == Differing(Snapshot(r), before)
  {
    var incoming := Snapshot(r);
    forall f | f in Differing(incoming, before) ensures f in Moved(before, r) + StandsBy(r) {
      if r.received.Some? && f !in Moved(before, r) {
        assert Same(f, incoming, r.received.value);
        assert f in Differing(r.received.value, before);
      }
    }
  }

  lemma StageFaithfulIff(before: Values, r: Row, was: Row)
    requires Faithful(was) && Snapshot(was) == before && r.pending == was.pending && r.received == was.received
    ensures r.reviewed ==> (Faithful(Stage(before, r)) <==> !Withholds(r, before))
    ensures !r.reviewed ==> (Faithful(Stage(before, r)) <==> r.pending.None?)
  {
    var v, r' := Snapshot(r), Stage(before, r);
    if r.reviewed {
      IncomingIsDifference(before, r, was);
      assert Incoming(before, r) == Change(Differing(v, before), v);
      assert Snapshot(r') == before;
      NoneDiffers(v, if r.received.Some? then r.received.value else before);
      NoneDiffers(v, before);
    } else {
      NoneDiffers(v, v);
    }
  }

  lemma WriteFaithful(r: Row, change: Change, v: Values, f: Field)
    requires r.received == Some(v)
    ensures f in Differing(v, Snapshot(Write(r, change))) <==>
      if f in change.fields then !Same(f, change.now, v) else f in Differing(v, Snapshot(r))
  {
    WrittenAt(Snapshot(r), change.fields, change.now, f, v);
    SameSwaps(f, v, Snapshot(Write(r, change)));
    SameSwaps(f, v, Snapshot(r));
  }

  lemma SameSwaps(f: Field, a: Values, b: Values)
    ensures Same(f, a, b) <==> Same(f, b, a)
  {
  }

  lemma OfferedIsDifference(r: Row)
    requires Faithful(r) && r.received.Some?
    ensures Offered(r) == Differing(r.received.value, Snapshot(r))
    ensures forall f :: f in Offered(r) ==> Same(f, r.pending.value.now, r.received.value)
  {
  }

  lemma FaithfulIf(r: Row)
    requires r.received.Some? && Offered(r) == Differing(r.received.value, Snapshot(r))
    requires r.pending.Some? ==> r.pending.value.fields != {}
    requires forall f :: f in Offered(r) ==> Same(f, r.pending.value.now, r.received.value)
    ensures Faithful(r)
  {
  }

  lemma DecideFaithfulIff(r: Row, change: Change)
    requires Faithful(r) && r.received.Some?
    ensures var r' := Write(r, change).(pending := Without(r.pending, change.fields));
      Faithful(r') <==> !(exists f :: f in change.fields && !Same(f, change.now, r.received.value))
  {
    hide Snapshot, Differing, Same;
    var v, r' := r.received.value, Write(r, change).(pending := Without(r.pending, change.fields));
    OfferedIsDifference(r);
    forall f: Field ensures f in Differing(v, Snapshot(r')) <==>
      if f in change.fields then !Same(f, change.now, v) else f in Offered(r) {
      WriteFaithful(r, change, v, f);
      assert Snapshot(r') == Snapshot(Write(r, change)) by { SnapshotIgnoresPending(Write(r, change), r'.pending); }
    }
    assert Offered(r') == Offered(r) - change.fields;
    if !(exists f :: f in change.fields && !Same(f, change.now, v)) {
      assert Offered(r') == Differing(v, Snapshot(r'));
      FaithfulIf(r');
    } else {
      var f :| f in change.fields && !Same(f, change.now, v);
      assert f in Differing(v, Snapshot(r')) && f !in Offered(r');
      if Faithful(r') { OfferedIsDifference(r'); }
    }
  }

  lemma SnapshotIgnoresPending(r: Row, pending: Option<Change>)
    ensures Snapshot(r.(pending := pending)) == Snapshot(r)
  {
  }

  lemma EditFaithfulIff(r: Row, change: Change)
    requires Faithful(r) && r.received.Some?
    ensures var r' := Write(r, change);
      Faithful(r') <==>
      !(exists f :: f in change.fields && (Same(f, change.now, r.received.value) <==> f in Offered(r)))
  {
    hide Snapshot, Differing, Same;
    var v, r' := r.received.value, Write(r, change);
    OfferedIsDifference(r);
    forall f: Field ensures f in Differing(v, Snapshot(r')) <==>
      if f in change.fields then !Same(f, change.now, v) else f in Offered(r) {
      WriteFaithful(r, change, v, f);
    }
    if !(exists f :: f in change.fields && (Same(f, change.now, v) <==> f in Offered(r))) {
      assert Offered(r') == Differing(v, Snapshot(r'));
      FaithfulIf(r');
    } else {
      var f :| f in change.fields && (Same(f, change.now, v) <==> f in Offered(r));
      assert f in Differing(v, Snapshot(r')) <==> f !in Offered(r');
      if Faithful(r') { OfferedIsDifference(r'); }
    }
  }

  /** Accepting the pending change of a faithful state makes the event what its source last sent. */
  lemma AcceptSettles(env: Env, r: Row)
    requires Faithful(r) && r.received.Some?
    ensures var r' := Act(env, r, Accept);
      Snapshot(r') == r.received.value && r'.pending.None? && Faithful(r')
  {
    var v, r' := r.received.value, Act(env, r, Accept);
    if r.pending.Some? {
      var change := r.pending.value;
      forall f: Field ensures f !in Differing(v, Snapshot(r')) {
        WriteFaithful(r, change, v, f);
        SnapshotIgnoresPending(Write(r, change), None);
      }
    }
    NoneDiffers(v, Snapshot(r'));
  }

  /** Exactly which single actions leave something else waiting for review than the difference. */
  lemma ActFaithfulIff(env: Env, r: Row, action: Action)
    requires Faithful(r)
    ensures Faithful(Act(env, r, action)) <==> !Unfaithful(env, r, action)
  {
    match action
    case Arrive(news, caller) =>
      if !(caller.Pipeline? && Skips(env, r, news)) {
        StageFaithfulIff(Snapshot(r), Merged(env, r, news, caller), r);
      }
    case Accept => if r.received.Some? { AcceptSettles(env, r); }
    case Decide(change) => if r.received.Some? { DecideFaithfulIff(r, change); }
    case Edit(change) => if r.received.Some? { EditFaithfulIff(r, change); }
    case _ =>
  }

  /** Over every history without such an action, from a faithful state such as that of a new event: what
      waits for review is the difference, and accepting it shows what the last sync brought. */
  lemma {:induction false} NothingIsLost(env: Env, r: Row, actions: seq<Action>)
    requires Faithful(r)
    requires forall k :: 0 <= k < |actions| ==> !Unfaithful(env, Execute(env, r, actions[..k]), actions[k])
    ensures var r' := Execute(env, r, actions);
      Faithful(r') && (r'.received.Some? ==> Snapshot(Act(env, r', Accept)) == r'.received.value)
  {
    if actions == [] {
      if r.received.Some? { AcceptSettles(env, r); }
    } else {
      hide Act, Faithful, Unfaithful, Snapshot;
      var n := |actions| - 1;
      forall k | 0 <= k < n ensures !Unfaithful(env, Execute(env, r, actions[..n][..k]), actions[..n][k]) {
        assert actions[..n][..k] == actions[..k];
      }
      NothingIsLost(env, r, actions[..n]);
      ActFaithfulIff(env, Execute(env, r, actions[..n]), actions[n]);
      if Execute(env, r, actions).received.Some? { AcceptSettles(env, Execute(env, r, actions)); }
    }
  }
}
