/** What reaches an admin's review, what is offered again and what the pipeline takes for unchanged. */
module RevisionLaws {
  import opened Options
  import opened CalendarMerge
  import opened EventRevisions

  // ------------------------------------------------------------------ what reaches review

  /** What the next admin decision can show of a source: the plain fields always; the text exactly when it
      still belonged to the calendar or is what is live; the price likewise; the links too, and where they
      are missing and the pipeline fills them in. */
  lemma SourceReachesReviewIff(env: Env, r: Row, news: News, caller: Caller)
    requires Faithful(r) && r.reviewed && Started(r.event)
    requires !(caller.Pipeline? && Skips(env, r, news)) && !Unfaithful(env, r, Arrive(news, caller))
    ensures var found, live := env.tools.extract(news.source), Snapshot(r);
      var accepted := Snapshot(Act(env, Receive(env, r, news, caller), Accept));
      && accepted.plain == news.plain
      && (accepted.text == found.description <==> TextOwned(r.event) || live.text == found.description)
      && (found.payload.Some? ==>
            var links, price := Some(LinkItems(found.payload.value)), PriceFields(env.tools, found.payload.value);
            && (accepted.links == links <==>
                  LinksOwned(r.event) || live.links == links || (caller.Pipeline? && live.links.None?))
            && (accepted.price == price <==> PriceOwned(r.event) || live.price == price))
  {
    hide Faithful, Unfaithful, Skips;
    ActFaithfulIff(env, r, Arrive(news, caller));
    ReceivedIsMerged(env, r, news, caller);
    AcceptSettles(env, Receive(env, r, news, caller));
    hide Act, Receive, Stage;
  }

  lemma ReceivedIsMerged(env: Env, r: Row, news: News, caller: Caller)
    requires !(caller.Pipeline? && Skips(env, r, news))
    ensures Act(env, r, Arrive(news, caller)) == Receive(env, r, news, caller)
    ensures Receive(env, r, news, caller).received == Some(Snapshot(Merged(env, r, news, caller)))
  {
  }

  /** A reviewed event whose source changes its text, and is synced again before anybody decides, whatever
      it says then: no decision can show any text but the live one. Even the first change is withdrawn. */
  lemma SecondTextIsLost(env: Env, r: Row, first: News, second: News, caller: Caller)
    requires Faithful(r) && r.reviewed && Started(r.event)
    requires env.tools.extract(first.source).description != r.event.description
    requires !(caller.Pipeline? && Skips(env, r, first)) && !Unfaithful(env, r, Arrive(first, caller))
    requires var r1 := Receive(env, r, first, caller);
      !(caller.Pipeline? && Skips(env, r1, second)) && !Unfaithful(env, r1, Arrive(second, caller))
    ensures var r2 := Receive(env, Receive(env, r, first, caller), second, caller);
      && !TextOwned(r2.event) && r2.event.description == r.event.description && Description !in Offered(r2)
      && Snapshot(Act(env, r2, Accept)).text == r.event.description
  {
    hide Faithful, Unfaithful, Skips, TextOwned;
    var r1 := Receive(env, r, first, caller);
    var r2 := Receive(env, r1, second, caller);
    ReceiveIsPull(env, r, first, caller);
    ReceiveIsPull(env, r1, second, caller);
    TextStep(env.tools, r.event, Pull(first.source, caller.Pipeline?, r.reviewed));
    TextStep(env.tools, r1.event, Pull(second.source, caller.Pipeline?, r.reviewed));
    SyncKeepsPublished(env, r, first, caller);
    SyncKeepsPublished(env, r1, second, caller);
    ActFaithfulIff(env, r, Arrive(first, caller));
    ActFaithfulIff(env, r1, Arrive(second, caller));
    ReceivedIsMerged(env, r, first, caller);
    ReceivedIsMerged(env, r1, second, caller);
    LostTextIsLive(env, r1, second, caller);
    OfferedIsDifference(r2);
    AcceptSettles(env, r2);
  }

  lemma LostTextIsLive(env: Env, r: Row, news: News, caller: Caller)
    requires Started(r.event) && !TextOwned(r.event)
    ensures Snapshot(Merged(env, r, news, caller)).text == r.event.description
  {
  }

  /** An unchanged source synced a second time leaves the pending change alone exactly when every field the
      calendar still owned was the live one: a proposed text, link list or price is withdrawn again. */
  lemma SecondSyncIsIdleIff(env: Env, r: Row, news: News)
    requires r.reviewed && Started(r.event)
    ensures var r1, pull := Receive(env, r, news, Service), Pull(news.source, false, true);
      Receive(env, r1, news, Service) == r1 <==>
      && (TextOwned(r.event) ==> AgreesOnText(env.tools, r.event, pull))
      && (LinksOwned(r.event) ==> AgreesOnLinks(env.tools, r.event, pull))
      && (PriceOwned(r.event) ==> AgreesOnPrice(env.tools, r.event, pull))
  {
    hide *;
    SecondSyncStages(env, r, news);
    ReceiveIsService(env, r, news);
    MergedAgain(env.tools, r.event, news.source);
  }

  lemma ReceiveIsService(env: Env, r: Row, news: News)
    requires r.reviewed
    ensures var r1 := Receive(env, r, news, Service);
      && r1.event == Pulled(env.tools, r.event, news.source, false, true)
      && (Snapshot(Merged(env, r1, news, Service)) == Snapshot(Merged(env, r, news, Service)) <==>
          var a, b := Sync(env.tools, r1.event, news.source, false), Sync(env.tools, r.event, news.source, false);
          a.description == b.description && a.links == b.links && a.price == b.price)
  {
    hide Sync;
    ReceiveIsPull(env, r, news, Service);
  }

  lemma SecondSyncStages(env: Env, r: Row, news: News)
    requires r.reviewed && Started(r.event)
    ensures var r1 := Receive(env, r, news, Service);
      Receive(env, r1, news, Service) == r1 <==>
      Snapshot(Merged(env, r1, news, Service)) == Snapshot(Merged(env, r, news, Service))
  {
    var r1 := Receive(env, r, news, Service);
    var r2 := Receive(env, r1, news, Service);
    ReceiveIsPull(env, r, news, Service);
    ReceiveIsPull(env, r1, news, Service);
    SyncKeepsPublished(env, r, news, Service);
    SyncKeepsPublished(env, r1, news, Service);
    SecondReviewedPullIsIdle(env.tools, r.event, news.source, false);
    ReceivedIsMerged(env, r, news, Service);
    ReceivedIsMerged(env, r1, news, Service);
    assert r2.event == r1.event && r2.plain == r1.plain;
    if Snapshot(Merged(env, r1, news, Service)) == Snapshot(Merged(env, r, news, Service)) {
      NoneDiffers(Snapshot(Merged(env, r1, news, Service)), r1.received.value);
      hide Sync;
      assert r2 == r1;
    }
  }

  lemma MergedAgain(tools: Parsers, e: Event, source: Option<string>)
    requires Started(e)
    ensures var a := Sync(tools, Pulled(tools, e, source, false, true), source, false);
      var b := Sync(tools, e, source, false);
      var pull := Pull(source, false, true);
      && (a.description == b.description <==> (TextOwned(e) ==> AgreesOnText(tools, e, pull)))
      && (a.links == b.links <==> (LinksOwned(e) ==> AgreesOnLinks(tools, e, pull)))
      && (a.price == b.price <==> (PriceOwned(e) ==> AgreesOnPrice(tools, e, pull)))
  {
  }

  // ------------------------------------------------------------------ histories of the merge

  predicate TouchesPrice(fields: set<Field>) {
    PriceMin in fields || PriceMax in fields || PriceCurrency in fields || PriceIsFree in fields
  }

  /** What a change writes, as the merge sees it. */
  function RevisionOf(r: Row, change: Change): Revision {
    var v := Written(Snapshot(r), change.fields, change.now);
    Revision(if Description in change.fields then Some(v.text) else None,
             if Links in change.fields then Some(v.links) else None,
             if TouchesPrice(change.fields) then Some(v.price) else None)
  }

  function StepsOf(env: Env, r: Row, action: Action): seq<Step> {
    match action
    case Arrive(news, caller) =>
      if caller.Pipeline? && Skips(env, r, news) then [] else [Pull(news.source, caller.Pipeline?, r.reviewed)]
    case Accept => if r.pending.None? then [] else [Apply(RevisionOf(r, r.pending.value))]
    case Decide(change) => [Apply(RevisionOf(r, change))]
    case Edit(change) => [Apply(RevisionOf(r, change))]
    case Inner(step) => if step.Import? || step.EditImage? || step.Tag? then [step] else []
    case _ => []
  }

  function History(env: Env, r: Row, actions: seq<Action>): seq<Step> {
    if actions == [] then [] else
      var n := |actions| - 1;
      History(env, r, actions[..n]) + StepsOf(env, Execute(env, r, actions[..n]), actions[n])
  }

  lemma UntouchedFields(base: Values, fields: set<Field>, now: Values)
    ensures var v := Written(base, fields, now);
      && (Description !in fields ==> v.text == base.text) && (Links !in fields ==> v.links == base.links)
      && (!TouchesPrice(fields) ==> v.price == base.price)
  {
  }

  lemma ActIsSteps(env: Env, r: Row, action: Action)
    ensures |StepsOf(env, r, action)| <= 1
    ensures Act(env, r, action).event
         == if StepsOf(env, r, action) == [] then r.event else Do(env.tools, r.event, StepsOf(env, r, action)[0])
  {
    hide Written, Pulled;
    match action
    case Arrive(news, caller) =>
      if StepsOf(env, r, action) != [] { ReceiveIsPull(env, r, news, caller); }
    case Accept =>
      if r.pending.Some? { UntouchedFields(Snapshot(r), r.pending.value.fields, r.pending.value.now); }
    case Decide(change) => UntouchedFields(Snapshot(r), change.fields, change.now);
    case Edit(change) => UntouchedFields(Snapshot(r), change.fields, change.now);
    case _ =>
  }

  /** Every history of syncs and decisions is, for the merge, one of its own histories; so what holds over
      all of those holds here. */
  lemma {:induction false} ExecuteIsRun(env: Env, r: Row, actions: seq<Action>)
    ensures Execute(env, r, actions).event == Run(env.tools, r.event, History(env, r, actions))
  {
    if actions != [] {
      hide Act, Do, StepsOf;
      var n := |actions| - 1;
      var before, steps := Execute(env, r, actions[..n]), History(env, r, actions[..n]);
      var more := StepsOf(env, before, actions[n]);
      ExecuteIsRun(env, r, actions[..n]);
      ActIsSteps(env, before, actions[n]);
      if more == [] {
        assert steps + more == steps;
      } else {
        assert steps + more == steps + [more[0]] && (steps + more)[..|steps|] == steps;
      }
    }
  }

  // ------------------------------------------------------------------ local edits and discarded changes

  predicate IsPlain(f: Field) { f in {Title, Location, Start, End, AllDay} }

  /** A sync that brings for the field what the last one brought; anything else that is no decision. */
  predicate StandsStill(r: Row, f: Field, action: Action) {
    match action
    case Arrive(news, _) => r.received.Some? && Same(f, r.received.value.(plain := news.plain), r.received.value)
    case Inner(_) => true
    case _ => false
  }

  lemma StageLeavesEdit(before: Values, r: Row, f: Field)
    requires r.reviewed && r.received.Some? && f !in Offered(r) && Same(f, Snapshot(r), r.received.value)
    ensures var r' := Stage(before, r);
      && r'.reviewed && f !in Offered(r') && r'.received == Some(Snapshot(r)) && Snapshot(r') == before
  {
  }

  lemma ArriveLeavesEdit(env: Env, r: Row, action: Action, f: Field)
    requires IsPlain(f) && r.reviewed && r.received.Some? && f !in Offered(r) && StandsStill(r, f, action)
    ensures var r' := Act(env, r, action);
      && r'.reviewed && r'.received.Some? && f !in Offered(r')
      && Same(f, r'.received.value, r.received.value) && Same(f, Snapshot(r'), Snapshot(r))
  {
    SameAsSelf(f, Snapshot(r));
    SameAsSelf(f, r.received.value);
    if action.Arrive? {
      var merged := Merged(env, r, action.news, action.caller);
      SkippedOrStaged(env, r, action.news, action.caller);
      assert Same(f, Snapshot(merged), r.received.value) by { PlainOfMerged(env, r, action.news, action.caller, f); }
      StageLeavesEdit(Snapshot(r), merged, f);
      hide *;
    } else {
      InnerKeepsValues(env, r, action.step);
    }
  }

  lemma SkippedOrStaged(env: Env, r: Row, news: News, caller: Caller)
    ensures var r', merged := Act(env, r, Arrive(news, caller)), Merged(env, r, news, caller);
      && (r' == r || r' == Stage(Snapshot(r), merged))
      && merged.reviewed == r.reviewed && merged.pending == r.pending && merged.received == r.received
  {
    hide Skips, Stage, Pulled;
  }

  lemma PlainOfMerged(env: Env, r: Row, news: News, caller: Caller, f: Field)
    requires IsPlain(f) && r.received.Some?
    ensures var v := r.received.value;
      Same(f, Snapshot(Merged(env, r, news, caller)), v) <==> Same(f, v.(plain := news.plain), v)
  {
    hide Pulled;
  }

  lemma InnerKeepsValues(env: Env, r: Row, step: Step)
    ensures var r' := Act(env, r, Inner(step));
      && Snapshot(r') == Snapshot(r) && r'.pending == r.pending && r'.received == r.received
      && r'.reviewed == r.reviewed
  {
  }

  /** A local edit the source never had is not offered back as a revert: while the source stands by its
      value of a plain field, no sync proposes anything for it. */
  lemma {:induction false} LocalEditIsNotReverted(env: Env, r: Row, actions: seq<Action>, f: Field)
    requires IsPlain(f) && r.reviewed && r.received.Some? && f !in Offered(r)
    requires forall action :: action in actions ==> StandsStill(r, f, action)
    ensures var r' := Execute(env, r, actions);
      && r'.reviewed && r'.received.Some? && f !in Offered(r')
      && Same(f, r'.received.value, r.received.value) && Same(f, Snapshot(r'), Snapshot(r))
  {
    if actions == [] {
      SameAsSelf(f, Snapshot(r));
      if r.received.Some? { SameAsSelf(f, r.received.value); }
    } else {
      hide Act, Snapshot, Offered;
      var n := |actions| - 1;
      var before := Execute(env, r, actions[..n]);
      assert actions[n] in actions;
      LocalEditIsNotReverted(env, r, actions[..n], f);
      ArriveLeavesEdit(env, before, actions[n], f);
    }
  }

  lemma SameAsSelf(f: Field, v: Values)
    ensures Same(f, v, v)
  {
  }

  /** The open change is none an admin discarded. */
  predicate Undecided(r: Row) { r.pending.Some? ==> !Discarded(r, r.pending.value) }

  /** A discarded change is never proposed again, whatever the source does in between. */
  lemma {:induction false} DiscardedIsNotProposed(env: Env, r: Row, actions: seq<Action>)
    requires Undecided(r) && forall action :: action in actions ==> !action.Decide?
    ensures Undecided(Execute(env, r, actions)) && r.discarded <= Execute(env, r, actions).discarded
  {
    if actions != [] {
      hide Act, Undecided;
      var n := |actions| - 1;
      assert actions[n] in actions;
      DiscardedIsNotProposed(env, r, actions[..n]);
      ActKeepsUndecided(env, Execute(env, r, actions[..n]), actions[n]);
    }
  }

  lemma ActKeepsUndecided(env: Env, r: Row, action: Action)
    requires Undecided(r) && !action.Decide?
    ensures Undecided(Act(env, r, action)) && r.discarded <= Act(env, r, action).discarded
  {
    hide SameChange, Pulled, Sync, Snapshot, Written, Moved;
  }

  function Titled(title: string): Values { Values(Plain(title, None, 0, 1, false), None, None, NO_PRICE) }

  /** The source goes from A to X, which an admin discards, on to Y, which is proposed, and back to X: the
      proposal of Y stays, and accepting it shows a title the source gave up. */
  lemma StaleProposalStays(env: Env, a: string, x: string, y: string)
    requires a != x && a != y && x != y && env.tools.extract(None) == Extraction(None, None)
    ensures var r := Row(Titled(a).plain, BLANK, true, Some(Titled(a)), None, [], false, false, false, None);
      var actions := [Arrive(News(Titled(x).plain, None, false), Service), Discard,
                      Arrive(News(Titled(y).plain, None, false), Service),
                      Arrive(News(Titled(x).plain, None, false), Service), Accept];
      Faithful(r) && Execute(env, r, actions).plain.title == y && Execute(env, r, actions).received == Some(Titled(x))
  {
    hide Act, Differing, Same, SameChange;
    var r := Row(Titled(a).plain, BLANK, true, Some(Titled(a)), None, [], false, false, false, None);
    TitledDiffer(a, a);
    TitledDiffer(x, x);
    TitledDiffer(x, y);
    var r1 := TitleArrives(env, r, a, a, x);
    var r2 := Act(env, r1, Discard);
    assert r2 == r1.(pending := None, discarded := [r1.pending.value]) by { DiscardIs(env, r1); }
    assert r2.discarded == [Change({Title}, Titled(x))];
    var r3 := TitleArrives(env, r2, a, x, y);
    assert Change({Title}, Titled(x)) in r3.discarded;
    var r4 := TitleArrives(env, r3, a, y, x);
    AcceptIs(env, r4);
    var x' := Arrive(News(Titled(x).plain, None, false), Service);
    var y' := Arrive(News(Titled(y).plain, None, false), Service);
    FiveSteps(env, r, x', Discard, y', x', Accept);
  }

  lemma FiveSteps(env: Env, r: Row, a: Action, b: Action, c: Action, d: Action, e: Action)
    ensures Execute(env, r, [a, b, c, d, e]) == Act(env, Act(env, Act(env, Act(env, Act(env, r, a), b), c), d), e)
  {
    hide Act;
    ExecutePush(env, r, [], a);
    ExecutePush(env, r, [a], b);
    ExecutePush(env, r, [a, b], c);
    ExecutePush(env, r, [a, b, c], d);
    ExecutePush(env, r, [a, b, c, d], e);
    assert [] + [a] == [a] && [a] + [b] == [a, b] && [a, b] + [c] == [a, b, c];
    assert [a, b, c] + [d] == [a, b, c, d] && [a, b, c, d] + [e] == [a, b, c, d, e];
  }

  lemma ExecutePush(env: Env, r: Row, actions: seq<Action>, action: Action)
    ensures Execute(env, r, []) == r
    ensures Execute(env, r, actions + [action]) == Act(env, Execute(env, r, actions), action)
  {
    assert (actions + [action])[..|actions|] == actions;
  }

  lemma DiscardIs(env: Env, r: Row)
    requires r.pending.Some?
    ensures Act(env, r, Discard) == r.(pending := None, discarded := r.discarded + [r.pending.value])
  {
  }

  lemma AcceptIs(env: Env, r: Row)
    requires r.pending.Some? && r.pending.value.fields == {Title}
    ensures var r' := Act(env, r, Accept);
      r'.plain.title == r.pending.value.now.plain.title && r'.received == r.received
  {
  }

  /** An event without text, links and price whose calendar has none either. */
  predicate Bare(env: Env, r: Row, a: string, received: string) {
    && env.tools.extract(None) == Extraction(None, None)
    && r.reviewed && Snapshot(r) == Titled(a) && r.received == Some(Titled(received))
    && (AppliedOf(r.event).description.None? || AppliedOf(r.event).description == Some(None))
    && r.event.source.None?
  }

  lemma TitledDiffer(a: string, b: string)
    ensures Differing(Titled(a), Titled(b)) == if a == b then {} else {Title}
    ensures SameChange(Change({Title}, Titled(a)), Change({Title}, Titled(b))) <==> a == b
    ensures SameChange(Change({Title}, Titled(b)), Change({Title}, Titled(a))) <==> a == b
  {
    if a != b {
      forall f: Field ensures f in Differing(Titled(a), Titled(b)) <==> f == Title { }
      assert Title in {Title} && !Same(Title, Titled(a), Titled(b)) && !Same(Title, Titled(b), Titled(a));
    }
  }

  lemma TitleArrives(env: Env, r: Row, a: string, was: string, title: string) returns (r': Row)
    requires Bare(env, r, a, was) && was != title && a != title
    requires r.pending.Some? ==> r.pending.value == Change({Title}, Titled(was)) && was != a
    ensures r' == Act(env, r, Arrive(News(Titled(title).plain, None, false), Service))
    ensures Bare(env, r', a, title) && r'.discarded == r.discarded
    ensures r'.pending == if Discarded(r, Change({Title}, Titled(title))) then r.pending
                          else Some(Change({Title}, Titled(title)))
  {
    var news := News(Titled(title).plain, None, false);
    r' := Act(env, r, Arrive(news, Service));
    var merged := Merged(env, r, news, Service);
    assert Snapshot(merged) == Titled(title);
    SyncKeepsPublished(env, r, news, Service);
    ReceivedIsMerged(env, r, news, Service);
    TitleStages(env, merged, a, was, title);
    ReceiveIsPull(env, r, news, Service);
  }

  lemma TitleStages(env: Env, merged: Row, a: string, was: string, title: string)
    requires merged.reviewed && Snapshot(merged) == Titled(title) && merged.received == Some(Titled(was))
    requires was != title && a != title
    requires merged.pending.Some? ==> merged.pending.value == Change({Title}, Titled(was))
    ensures var r' := Stage(Titled(a), merged);
      && r'.discarded == merged.discarded
      && r'.pending == if Discarded(merged, Change({Title}, Titled(title))) then merged.pending
                       else Some(Change({Title}, Titled(title)))
  {
    hide Same, Differing;
    TitledDiffer(title, was);
    TitledDiffer(was, title);
    TitledDiffer(title, a);
    assert Moved(Titled(a), merged) == {Title};
    assert Incoming(Titled(a), merged) == Change({Title}, Titled(title)) by {
      assert (Moved(Titled(a), merged) + StandsBy(merged)) * {Title} == {Title};
    }
  }

  // ------------------------------------------------------------------ the staging step in any state

  /** Which change a sync of a reviewed event leaves open, whatever was open before. A field belongs to the new one
      when the sync brings another value than the live one, and either another than the last sync brought or
      the one already proposed. The open change is left alone when the sync brings nothing new, when the new
      change is the open one, or when an admin discarded it; it is withdrawn when there is nothing to propose. */
  lemma StagedChange(before: Values, r: Row)
    requires r.reviewed
    ensures var r', now := Stage(before, r), Snapshot(r);
      var last := if r.received.Some? then r.received.value else before;
      var fields := set f: Field | !Same(f, now, before)
                      && (!Same(f, now, last)
                          || (r.pending.Some? && f in r.pending.value.fields && Same(f, r.pending.value.now, now)));
      var change := Change(fields, now);
      && Snapshot(r') == before && r'.received == Some(now) && !r'.removal
      && r'.discarded == r.discarded && r'.deleted == r.deleted && r'.key == r.key
      && r'.pending == if now == last then r.pending
                       else if fields == {} then None
                       else if (r.pending.Some? && SameChange(r.pending.value, change))
                               || exists d :: d in r.discarded && SameChange(d, change) then r.pending
                       else Some(change)
  {
    var now, last := Snapshot(r), if r.received.Some? then r.received.value else before;
    NoneDiffers(now, last);
    assert Incoming(before, r).fields ==
      set f: Field | !Same(f, now, before)
        && (!Same(f, now, last)
            || (r.pending.Some? && f in r.pending.value.fields && Same(f, r.pending.value.now, now)));
  }

  /** Only the pipeline finds coordinates, and none are lost; a deletion at the source closes the open change of
      an event that is not listed. */
  lemma RowKeeps(env: Env, r: Row, news: News, caller: Caller)
    ensures Receive(env, r, news, caller).located <==>
      r.located || (caller.Pipeline? && news.located)
    ensures var gone := Act(env, r, Delete(false));
      gone.deleted && (!r.deleted ==> !gone.removal && gone.pending.None?) && gone.event == r.event
    ensures Act(env, r, Delete(true)) == if r.deleted then r else r.(removal := true)
  {
    hide Pulled, Moved, Incoming, Discarded, Snapshot;
  }

  // ------------------------------------------------------------------ what the pipeline takes for unchanged

  /** What the pipeline took in it recognises, unless links are missing that the source has. */
  lemma TakenIn(env: Env, r: Row, news: News)
    ensures var r1 := Receive(env, r, news, Pipeline);
      && r1.key == Some(KeyOf(env, news.plain)) && r1.event.source == news.source
      && StateOf(r1.event).version == Some(EXTRACTOR_STATE_VERSION) && (news.located ==> r1.located)
  {
    if !Skips(env, r, news) {
      ReceiveIsPull(env, r, news, Pipeline);
      hide Snapshot, Incoming, Moved, Discarded, Written;
    }
  }

  /** After the pipeline took in a version of the event, a later one that moves only its end or makes it an
      all-day event is ignored, unless links are missing that the source has. */
  lemma EndChangeIsIgnored(env: Env, r: Row, news: News, end: int, allDay: bool)
    ensures var r1 := Receive(env, r, news, Pipeline);
      var later := news.(plain := news.plain.(end := end, allDay := allDay));
      && (Skips(env, r1, later) <==> r1.event.links.Some? || env.tools.extract(news.source).payload.None?)
      && (Skips(env, r1, later) ==> Receive(env, r1, later, Pipeline) == r1)
  {
    TakenIn(env, r, news);
    hide Stage, Merged;
  }

  /** A deleted event that comes back as it was stays deleted, and its proposed removal stays open, exactly
      when the pipeline takes it for unchanged; the other caller always undoes the deletion. */
  lemma ReturnIsIgnoredIff(env: Env, r: Row, news: News, listed: bool)
    ensures var gone := Act(env, Receive(env, r, news, Pipeline), Delete(listed));
      var back, undone := Receive(env, gone, news, Pipeline), Receive(env, gone, news, Service);
      && (back.deleted || back.removal <==> gone.event.links.Some? || env.tools.extract(news.source).payload.None?)
      && !undone.deleted && !undone.removal
  {
    TakenIn(env, r, news);
    var r1 := Receive(env, r, news, Pipeline);
    var gone := Act(env, r1, Delete(listed));
    assert gone.deleted || gone.removal;
    assert gone.event == r1.event && gone.key == r1.key && gone.located == r1.located;
    StageUndoes(Snapshot(gone), Merged(env, gone, news, Pipeline));
    StageUndoes(Snapshot(gone), Merged(env, gone, news, Service));
    hide Stage, Act;
  }

  lemma StageUndoes(before: Values, r: Row)
    ensures var r' := Stage(before, r); r'.deleted == r.deleted && !r'.removal
  {
  }
}
