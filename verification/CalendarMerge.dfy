/** The three-way merge of a synced event: each field belongs to the calendar until a curator edits
    it away from the value last applied. `extract` and `parsePrice` are arbitrary functions. */
module CalendarMerge {
  import opened Options

  // ------------------------------------------------------------------ data

  datatype Link = Link(url: string, caption: Option<string>)

  datatype Price = Price(min: Option<int>, max: Option<int>, currency: Option<string>, isFree: Option<bool>)

  datatype Payload = Payload(links: seq<string>, image: string, tags: seq<string>, priceRange: string)

  datatype Extraction = Extraction(description: Option<string>, payload: Option<Payload>)

  datatype Parsers = Parsers(extract: Option<string> -> Extraction, parsePrice: string -> Option<Price>)

  /** The `applied` dictionary; `None` is a missing key. An applied description may itself be null. */
  datatype Applied = Applied(
    description: Option<Option<string>>, links: Option<seq<Link>>, price: Option<Price>, image: Option<AppliedImage>)

  datatype AppliedImage = AppliedImage(url: string, key: Option<string>)

  /** `extractor_state`; the tag stage keeps its fingerprint in the same dictionary. */
  datatype SyncState = SyncState(
    version: Option<int>, valid: bool, payload: Option<Payload>, applied: Applied, fingerprint: Option<string>)

  datatype Event = Event(
    source: Option<string>, description: Option<string>, links: Option<seq<Link>>, price: Price,
    imageKey: Option<string>, state: Option<SyncState>)

  const EXTRACTOR_STATE_VERSION := 2
  const NO_PRICE := Price(None, None, None, None)
  const NOTHING_APPLIED := Applied(None, None, None, None)
  const EMPTY_STATE := SyncState(None, false, None, NOTHING_APPLIED, None)
  const BLANK := Event(None, None, None, NO_PRICE, None, None)

  // ------------------------------------------------------------------ one synchronisation

  function StateOf(e: Event): SyncState { if e.state.Some? then e.state.value else EMPTY_STATE }

  function AppliedOf(e: Event): Applied { StateOf(e).applied }

  function LinkItems(p: Payload): seq<Link> { seq(|p.links|, i requires 0 <= i < |p.links| => Link(p.links[i], None)) }

  function PriceFields(tools: Parsers, p: Payload): Price {
    var parsed := tools.parsePrice(p.priceRange);
    if parsed.Some? then parsed.value else NO_PRICE
  }

  predicate DescriptionOwned(tools: Parsers, e: Event) {
    var applied := AppliedOf(e).description;
    || e.description == (if applied.Some? then applied.value else tools.extract(e.source).description)
    || (e.state.None? && e.description == e.source)
  }

  predicate LinksOwned(e: Event) { e.links == AppliedOf(e).links }

  predicate PriceOwned(e: Event) {
    var applied := AppliedOf(e).price;
    e.price == if applied.Some? then applied.value else NO_PRICE
  }

  /** Writes each owned field and records what was applied; a source without a valid payload leaves
      links and price alone. */
  function Sync(tools: Parsers, e: Event, source: Option<string>, isNew: bool): Event {
    var found := tools.extract(source);
    var past := AppliedOf(e);
    var writesText := isNew || DescriptionOwned(tools, e);
    var writesLinks := found.payload.Some? && (isNew || LinksOwned(e));
    var writesPrice := found.payload.Some? && (isNew || PriceOwned(e));
    var applied := past.(
      description := if writesText then Some(found.description) else past.description,
      links := if writesLinks then Some(LinkItems(found.payload.value)) else past.links,
      price := if writesPrice then Some(PriceFields(tools, found.payload.value)) else past.price);
    e.(source := source,
       description := if writesText then found.description else e.description,
       links := if writesLinks then Some(LinkItems(found.payload.value)) else e.links,
       price := if writesPrice then PriceFields(tools, found.payload.value) else e.price,
       state := Some(StateOf(e).(version := Some(EXTRACTOR_STATE_VERSION), valid := found.payload.Some?,
                                 payload := found.payload, applied := applied)))
  }

  /** What one synchronisation promises, column by column. A text belongs to the calendar when it is the one on
      record, or the one the old source gave if none is; in a row without any record also when it is that
      source itself. Links are written one per url of the payload, in its order; the price is what the parser
      answers, and empty when it does not. */
  lemma SyncIsAsPromised(tools: Parsers, e: Event, source: Option<string>, isNew: bool)
    ensures var e' := Sync(tools, e, source, isNew);
      var found := tools.extract(source);
      var past := if e.state.Some? then e.state.value.applied else Applied(None, None, None, None);
      var text :=
        || isNew
        || e.description
           == (if past.description.Some? then past.description.value else tools.extract(e.source).description)
        || (e.state.None? && e.description == e.source);
      var links := found.payload.Some? && (isNew || e.links == past.links);
      var empty := Price(None, None, None, None);
      var price := && found.payload.Some?
                   && (isNew || (if past.price.Some? then past.price == Some(e.price) else e.price == empty));
      && e'.source == source && e'.imageKey == e.imageKey && e'.state.Some?
      && var st := e'.state.value;
         && st.version == Some(2) && st.payload == found.payload && st.valid == found.payload.Some?
         && st.fingerprint == (if e.state.Some? then e.state.value.fingerprint else None)
         && st.applied.image == past.image
         && (if text then e'.description == found.description && st.applied.description == Some(found.description)
             else e'.description == e.description && st.applied.description == past.description)
         && (if links then
               && e'.links.Some? && st.applied.links == e'.links && |e'.links.value| == |found.payload.value.links|
               && forall i :: 0 <= i < |e'.links.value| ==>
                    e'.links.value[i] == Link(found.payload.value.links[i], None)
             else e'.links == e.links && st.applied.links == past.links)
         && (if price then
               && st.applied.price == Some(e'.price)
               && (match tools.parsePrice(found.payload.value.priceRange)
                   case Some(parsed) => e'.price == parsed
                   case None => e'.price == empty)
             else e'.price == e.price && st.applied.price == past.price)
  {
  }

  // ------------------------------------------------------------------ the image

  function DesiredImage(e: Event): string { if StateOf(e).payload.Some? then StateOf(e).payload.value.image else "" }

  predicate ImageOwned(e: Event) {
    var applied := AppliedOf(e).image;
    e.imageKey == if applied.Some? then applied.value.key else None
  }

  predicate ImageNeeded(e: Event) {
    var applied := AppliedOf(e).image;
    StateOf(e).valid && ImageOwned(e) && DesiredImage(e) != if applied.Some? then applied.value.url else ""
  }

  /** `stored` is the key the download was stored under; `None` when it raised and nothing was kept. */
  function ApplyImage(e: Event, stored: Option<string>): Event {
    if !ImageNeeded(e) || (DesiredImage(e) != "" && stored.None?) then e else
      var key := if DesiredImage(e) != "" then stored else None;
      var applied := AppliedOf(e).(image := Some(AppliedImage(DesiredImage(e), key)));
      e.(imageKey := key, state := Some(StateOf(e).(applied := applied)))
  }

  /** The calendar's image is imported, or dropped when the calendar names none, exactly when the latest source
      was valid, the picture is the one last imported, or none when none was, and the calendar now names
      another; a failed download changes nothing. */
  lemma ImportsAsPromised(e: Event, stored: Option<string>)
    ensures var e' := ApplyImage(e, stored);
      var desired := if e.state.Some? && e.state.value.payload.Some? then e.state.value.payload.value.image else "";
      var past := if e.state.Some? then e.state.value.applied.image else None;
      var due := && e.state.Some? && e.state.value.valid
                 && e.imageKey == (if past.Some? then past.value.key else None)
                 && desired != (if past.Some? then past.value.url else "");
      && (ImageNeeded(e) <==> due)
      && (if due && (desired == "" || stored.Some?) then
            && e'.imageKey == (if desired == "" then None else stored)
            && e'.state == Some(e.state.value.(applied :=
                 e.state.value.applied.(image := Some(AppliedImage(desired, e'.imageKey)))))
            && e' == e.(imageKey := e'.imageKey, state := e'.state)
          else e' == e)
  {
  }

  // ------------------------------------------------------------------ runs

  /** A pull of a known event by one of the two callers. The pipeline also fills in missing links. For a
      reviewed event the live values of the revisable fields are put back: the incoming ones wait for an
      admin, while the record has moved on. */
  function Pulled(tools: Parsers, e: Event, source: Option<string>, fills: bool, reviewed: bool): Event {
    var synced := Sync(tools, e, source, false);
    var payload := tools.extract(source).payload;
    var filled := if fills && synced.links.None? && payload.Some?
                  then synced.(links := Some(LinkItems(payload.value))) else synced;
    if reviewed then filled.(description := e.description, links := e.links, price := e.price) else filled
  }

  /** What can happen to an event after its first synchronisation: calendar syncs, image imports, a
      curator's edit of one field, a decided change that writes some fields, the tag stage. */
  datatype Step =
    | Pull(source: Option<string>, fills: bool, reviewed: bool)
    | Import(stored: Option<string>)
    | EditDescription(text: Option<string>)
    | EditLinks(links: Option<seq<Link>>)
    | EditPrice(price: Price)
    | EditImage(key: Option<string>)
    | Apply(change: Revision)
    | Tag(fingerprint: string)

  /** The fields an applied change writes. */
  datatype Revision = Revision(text: Option<Option<string>>, links: Option<Option<seq<Link>>>, price: Option<Price>)

  predicate WritesText(step: Step) { step.EditDescription? || (step.Apply? && step.change.text.Some?) }

  predicate WritesLinks(step: Step) { step.EditLinks? || (step.Apply? && step.change.links.Some?) }

  predicate WritesPrice(step: Step) { step.EditPrice? || (step.Apply? && step.change.price.Some?) }

  function Applying(e: Event, change: Revision): Event {
    e.(description := if change.text.Some? then change.text.value else e.description,
       links := if change.links.Some? then change.links.value else e.links,
       price := if change.price.Some? then change.price.value else e.price)
  }

  function Do(tools: Parsers, e: Event, step: Step): Event {
    match step
    case Pull(source, fills, reviewed) => Pulled(tools, e, source, fills, reviewed)
    case Import(stored) => ApplyImage(e, stored)
    case EditDescription(text) => e.(description := text)
    case EditLinks(links) => e.(links := links)
    case EditPrice(price) => e.(price := price)
    case EditImage(key) => e.(imageKey := key)
    case Apply(change) => Applying(e, change)
    case Tag(fingerprint) => e.(state := Some(StateOf(e).(fingerprint := Some(fingerprint))))
  }

  function Run(tools: Parsers, e: Event, steps: seq<Step>): Event {
    if steps == [] then e else
      var n := |steps| - 1;
      Do(tools, Run(tools, e, steps[..n]), steps[n])
  }

  /** The last pulled source with a description, and the last one with a valid payload. */
  function LatestPull(steps: seq<Step>): Option<Option<string>> {
    if steps == [] then None else
      var n := |steps| - 1;
      if steps[n].Pull? then Some(steps[n].source) else LatestPull(steps[..n])
  }

  function LatestPayload(tools: Parsers, steps: seq<Step>): Option<Payload> {
    if steps == [] then None else
      var n := |steps| - 1;
      if steps[n].Pull? && tools.extract(steps[n].source).payload.Some? then tools.extract(steps[n].source).payload
      else LatestPayload(tools, steps[..n])
  }

  /** States of events first synced as new: what was applied to the description is on record. */
  predicate Started(e: Event) { e.state.Some? && AppliedOf(e).description.Some? }

  predicate TextOwned(e: Event) { Started(e) && Some(e.description) == AppliedOf(e).description }

  /** A sync of the reviewed event finds the live text, links or price at its source. */
  predicate AgreesOnText(tools: Parsers, e: Event, step: Step) {
    step.Pull? && step.reviewed ==> e.description == tools.extract(step.source).description
  }

  predicate AgreesOnLinks(tools: Parsers, e: Event, step: Step) {
    step.Pull? && step.reviewed && tools.extract(step.source).payload.Some? ==>
      e.links == Some(LinkItems(tools.extract(step.source).payload.value))
  }

  predicate AgreesOnPrice(tools: Parsers, e: Event, step: Step) {
    step.Pull? && step.reviewed && tools.extract(step.source).payload.Some? ==>
      e.price == PriceFields(tools, tools.extract(step.source).payload.value)
  }

  ghost predicate TextAgreed(tools: Parsers, e: Event, steps: seq<Step>) {
    forall k :: 0 <= k < |steps| ==> AgreesOnText(tools, Run(tools, e, steps[..k]), steps[k])
  }

  ghost predicate LinksAgreed(tools: Parsers, e: Event, steps: seq<Step>) {
    forall k :: 0 <= k < |steps| ==> AgreesOnLinks(tools, Run(tools, e, steps[..k]), steps[k])
  }

  ghost predicate PriceAgreed(tools: Parsers, e: Event, steps: seq<Step>) {
    forall k :: 0 <= k < |steps| ==> AgreesOnPrice(tools, Run(tools, e, steps[..k]), steps[k])
  }

  lemma AgreedPush(tools: Parsers, e: Event, steps: seq<Step>)
    requires steps != []
    ensures var init, last := steps[..|steps| - 1], steps[|steps| - 1];
      var before := Run(tools, e, init);
      && (TextAgreed(tools, e, steps) <==> TextAgreed(tools, e, init) && AgreesOnText(tools, before, last))
      && (LinksAgreed(tools, e, steps) <==> LinksAgreed(tools, e, init) && AgreesOnLinks(tools, before, last))
      && (PriceAgreed(tools, e, steps) <==> PriceAgreed(tools, e, init) && AgreesOnPrice(tools, before, last))
  {
    hide AgreesOnText, AgreesOnLinks, AgreesOnPrice, Run;
    var n := |steps| - 1;
    assert forall k :: 0 <= k < n ==> steps[..n][k] == steps[k] && steps[..n][..k] == steps[..k];
  }

  /** Through every later history without an edit of it, a description belongs to the calendar exactly if
      it did and no sync of the reviewed event brought another text. As long as it does, it is the text of
      the latest source; once it does not, it never changes again. */
  lemma {:induction false} DescriptionFollowsOrStays(tools: Parsers, e: Event, steps: seq<Step>)
    requires Started(e) && forall step :: step in steps ==> !WritesText(step)
    ensures var e' := Run(tools, e, steps);
      && Started(e') && (TextOwned(e') <==> TextOwned(e) && TextAgreed(tools, e, steps))
      && (TextOwned(e') ==> e'.description == (if LatestPull(steps).Some?
                            then tools.extract(LatestPull(steps).value).description else e.description))
      && (!TextOwned(e) ==> e'.description == e.description)
  {
    if steps != [] {
      hide TextAgreed, LinksAgreed, PriceAgreed, AgreesOnText, AgreesOnLinks, AgreesOnPrice, TextOwned, Do;
      var n := |steps| - 1;
      assert steps[n] in steps;
      DescriptionFollowsOrStays(tools, e, steps[..n]);
      AgreedPush(tools, e, steps);
      TextStep(tools, Run(tools, e, steps[..n]), steps[n]);
    }
  }

  lemma TextStep(tools: Parsers, e: Event, step: Step)
    requires Started(e) && !WritesText(step)
    ensures var e' := Do(tools, e, step);
      && Started(e')
      && (TextOwned(e') <==> TextOwned(e) && AgreesOnText(tools, e, step))
      && (step.Pull? && TextOwned(e') ==> e'.description == tools.extract(step.source).description)
      && (!step.Pull? || !TextOwned(e) ==> e'.description == e.description)
  {
  }

  /** The pipeline puts the calendar's links into an event whose links a curator cleared. */
  predicate Refills(tools: Parsers, e: Event, step: Step) {
    && step.Pull? && step.fills && !step.reviewed && tools.extract(step.source).payload.Some?
    && e.links.None? && !LinksOwned(e)
  }

  ghost predicate NeverRefilled(tools: Parsers, e: Event, steps: seq<Step>) {
    forall k :: 0 <= k < |steps| ==> !Refills(tools, Run(tools, e, steps[..k]), steps[k])
  }

  lemma NotRefilledPush(tools: Parsers, e: Event, steps: seq<Step>)
    requires steps != []
    ensures var init, last := steps[..|steps| - 1], steps[|steps| - 1];
      NeverRefilled(tools, e, steps) <==> NeverRefilled(tools, e, init) && !Refills(tools, Run(tools, e, init), last)
  {
    hide Refills, Run;
    var n := |steps| - 1;
    assert forall k :: 0 <= k < n ==> steps[..n][k] == steps[k] && steps[..n][..k] == steps[..k];
  }

  /** Links a curator edited survive a sync exactly unless they were cleared and the pipeline refills them. */
  lemma EditedLinksSurviveIff(tools: Parsers, e: Event, step: Step)
    requires step.Pull? && !LinksOwned(e)
    ensures Do(tools, e, step).links == e.links <==> !Refills(tools, e, step)
  {
  }

  /** One link per url, in order and without a caption. */
  ghost predicate AreLinksOf(links: Option<seq<Link>>, p: Payload) {
    && links.Some? && |links.value| == |p.links|
    && forall i :: 0 <= i < |p.links| ==> links.value[i] == Link(p.links[i], None)
  }

  /** What the parser answers, and four empty fields when it does not. */
  ghost predicate IsPriceOf(tools: Parsers, price: Price, p: Payload) {
    match tools.parsePrice(p.priceRange)
    case Some(parsed) => price == parsed
    case None => price == Price(None, None, None, None)
  }

  /** The same for the links, which follow the latest source with a valid payload. */
  lemma {:induction false} LinksFollowOrStay(tools: Parsers, e: Event, steps: seq<Step>)
    requires forall step :: step in steps ==> !WritesLinks(step)
    requires NeverRefilled(tools, e, steps)
    ensures var e', latest := Run(tools, e, steps), LatestPayload(tools, steps);
      && (LinksOwned(e') <==> LinksOwned(e) && LinksAgreed(tools, e, steps))
      && (LinksOwned(e') ==> if latest.Some? then AreLinksOf(e'.links, latest.value) else e'.links == e.links)
      && (!LinksOwned(e) ==> e'.links == e.links)
  {
    if steps != [] {
      hide TextAgreed, LinksAgreed, PriceAgreed, AgreesOnText, AgreesOnLinks, AgreesOnPrice, LinksOwned, Do;
      hide NeverRefilled;
      var n := |steps| - 1;
      assert steps[n] in steps;
      NotRefilledPush(tools, e, steps);
      LinksFollowOrStay(tools, e, steps[..n]);
      AgreedPush(tools, e, steps);
      LinksStep(tools, Run(tools, e, steps[..n]), steps[n]);
    }
  }

  lemma LinksStep(tools: Parsers, e: Event, step: Step)
    requires !WritesLinks(step) && !Refills(tools, e, step)
    ensures var e' := Do(tools, e, step);
      var p := if step.Pull? then tools.extract(step.source).payload else None;
      && (LinksOwned(e') <==> LinksOwned(e) && AgreesOnLinks(tools, e, step))
      && (p.Some? && LinksOwned(e') ==> e'.links == Some(LinkItems(p.value)))
      && (p.None? || !LinksOwned(e) ==> e'.links == e.links)
  {
  }

  lemma {:induction false} PriceFollowsOrStays(tools: Parsers, e: Event, steps: seq<Step>)
    requires forall step :: step in steps ==> !WritesPrice(step)
    ensures var e', latest := Run(tools, e, steps), LatestPayload(tools, steps);
      && (PriceOwned(e') <==> PriceOwned(e) && PriceAgreed(tools, e, steps))
      && (PriceOwned(e') ==> if latest.Some? then IsPriceOf(tools, e'.price, latest.value) else e'.price == e.price)
      && (!PriceOwned(e) ==> e'.price == e.price)
  {
    if steps != [] {
      hide TextAgreed, LinksAgreed, PriceAgreed, AgreesOnText, AgreesOnLinks, AgreesOnPrice, PriceOwned, Do;
      var n := |steps| - 1;
      assert steps[n] in steps;
      PriceFollowsOrStays(tools, e, steps[..n]);
      AgreedPush(tools, e, steps);
      PriceStep(tools, Run(tools, e, steps[..n]), steps[n]);
    }
  }

  lemma PriceStep(tools: Parsers, e: Event, step: Step)
    requires !WritesPrice(step)
    ensures var e' := Do(tools, e, step);
      var p := if step.Pull? then tools.extract(step.source).payload else None;
      && (PriceOwned(e') <==> PriceOwned(e) && AgreesOnPrice(tools, e, step))
      && (p.Some? && PriceOwned(e') ==> e'.price == PriceFields(tools, p.value))
      && (p.None? || !PriceOwned(e) ==> e'.price == e.price)
  {
  }

  /** An image that was replaced or removed by hand is never touched again; one that was not still
      belongs to the calendar after every later step. */
  lemma {:induction false} ImageFollowsOrStays(tools: Parsers, e: Event, steps: seq<Step>)
    requires forall step :: step in steps ==> !step.EditImage?
    ensures var e' := Run(tools, e, steps);
      && ImageOwned(e') == ImageOwned(e)
      && (!ImageOwned(e) ==> e'.imageKey == e.imageKey && AppliedOf(e').image == AppliedOf(e).image)
  {
    if steps != [] {
      var n := |steps| - 1;
      assert steps[n] in steps;
      ImageFollowsOrStays(tools, e, steps[..n]);
      hide ImageOwned, Do;
      ImageStep(tools, Run(tools, e, steps[..n]), steps[n]);
    }
  }

  lemma ImageStep(tools: Parsers, e: Event, step: Step)
    requires !step.EditImage?
    ensures var e' := Do(tools, e, step);
      && ImageOwned(e') == ImageOwned(e)
      && (!ImageOwned(e) ==> e'.imageKey == e.imageKey && AppliedOf(e').image == AppliedOf(e).image)
  {
  }

  lemma {:induction false} RunThen(tools: Parsers, e: Event, steps: seq<Step>, more: seq<Step>)
    ensures Run(tools, e, steps + more) == Run(tools, Run(tools, e, steps), more)
  {
    if more == [] {
      assert steps + more == steps;
    } else {
      hide *;
      var n := |more| - 1;
      assert (steps + more)[..|steps + more| - 1] == steps + more[..n];
      RunThen(tools, e, steps, more[..n]);
      RunPush(tools, e, steps + more);
      RunPush(tools, Run(tools, e, steps), more);
    }
  }

  /** For an event first synced as new: a description a curator edited away from the applied one is
      still there after every later history without another edit of it. */
  lemma EditedDescriptionIsKept(tools: Parsers, e0: Event, first: Option<string>, before: seq<Step>,
                                text: Option<string>, after: seq<Step>)
    requires forall step :: step in after ==> !WritesText(step)
    requires AppliedOf(Run(tools, Sync(tools, e0, first, true), before)).description != Some(text)
    ensures Run(tools, Sync(tools, e0, first, true), before + [EditDescription(text)] + after).description == text
  {
    var start := Sync(tools, e0, first, true);
    StaysStarted(tools, start, before);
    RunThen(tools, start, before + [EditDescription(text)], after);
    assert (before + [EditDescription(text)])[..|before|] == before;
    DescriptionFollowsOrStays(tools, Run(tools, start, before + [EditDescription(text)]), after);
  }

  function ImageUrl(e: Event): string { if AppliedOf(e).image.Some? then AppliedOf(e).image.value.url else "" }

  /** The payload on record is the one of the latest source. */
  lemma {:induction false} PayloadOnRecord(tools: Parsers, e: Event, steps: seq<Step>)
    requires LatestPull(steps).Some?
    ensures var state, payload := StateOf(Run(tools, e, steps)), tools.extract(LatestPull(steps).value).payload;
      state.payload == payload && state.valid == payload.Some?
  {
    var n := |steps| - 1;
    if !steps[n].Pull? { PayloadOnRecord(tools, e, steps[..n]); }
  }

  /** Whatever happened before, a successful import brings an owned image to the one the latest
      source names, provided that source is valid; and then nothing is left to import. */
  lemma ImportCatchesUp(tools: Parsers, e: Event, steps: seq<Step>, key: string)
    requires LatestPull(steps).Some? && tools.extract(LatestPull(steps).value).payload.Some?
    requires ImageOwned(e) && forall step :: step in steps ==> !step.EditImage?
    ensures var e' := ApplyImage(Run(tools, e, steps), Some(key));
      && ImageUrl(e') == tools.extract(LatestPull(steps).value).payload.value.image
      && ImageOwned(e') && !ImageNeeded(e')
  {
    PayloadOnRecord(tools, e, steps);
    ImageFollowsOrStays(tools, e, steps);
  }

  /** In any state at all, after an import that did not fail nothing is left to import. */
  lemma ImportSettles(e: Event, stored: Option<string>)
    requires stored.Some?
    ensures var e' := ApplyImage(e, stored);
      !ImageNeeded(e') && ApplyImage(e', stored) == e' && (!ImageNeeded(e) ==> e' == e)
  {
  }

  /** A new event with empty fields that nobody edits shows the latest source, field by field, as long as
      every sync of it while reviewed found the live value of the field at its source. */
  lemma UneditedFollows(tools: Parsers, first: Option<string>, steps: seq<Step>)
    requires forall step :: step in steps ==> step.Pull? || step.Import? || step.Tag?
    ensures var start := Sync(tools, BLANK, first, true);
      var e, all := Run(tools, start, steps), [Pull(first, false, false)] + steps;
      var text, payload := LatestPull(all), LatestPayload(tools, all);
      && text.Some?
      && (TextAgreed(tools, start, steps) ==> e.description == tools.extract(text.value).description)
      && (LinksAgreed(tools, start, steps) ==>
            if payload.Some? then AreLinksOf(e.links, payload.value) else e.links == None)
      && (PriceAgreed(tools, start, steps) ==>
            if payload.Some? then IsPriceOf(tools, e.price, payload.value)
            else e.price == Price(None, None, None, None))
  {
    var start := Sync(tools, BLANK, first, true);
    DescriptionFollowsOrStays(tools, start, steps);
    if LinksAgreed(tools, start, steps) {
      OwnedIsNotRefilled(tools, start, steps);
      LinksFollowOrStay(tools, start, steps);
    }
    PriceFollowsOrStays(tools, start, steps);
    LatestOf(tools, Pull(first, false, false), steps);
  }

  lemma {:induction false} OwnedIsNotRefilled(tools: Parsers, e: Event, steps: seq<Step>)
    requires LinksOwned(e) && LinksAgreed(tools, e, steps) && forall step :: step in steps ==> !WritesLinks(step)
    ensures LinksOwned(Run(tools, e, steps)) && NeverRefilled(tools, e, steps)
  {
    if steps == [] {
      OwnedAtFirst(tools, e, steps);
    } else {
      hide *;
      var n := |steps| - 1;
      assert steps[n] in steps && steps == steps[..n] + [steps[n]];
      AgreedPush(tools, e, steps);
      OwnedIsNotRefilled(tools, e, steps[..n]);
      OwnedNotRefilled(tools, Run(tools, e, steps[..n]), steps[n]);
      LinksStep(tools, Run(tools, e, steps[..n]), steps[n]);
      RunPush(tools, e, steps);
      NotRefilledPush(tools, e, steps);
    }
  }

  lemma OwnedAtFirst(tools: Parsers, e: Event, steps: seq<Step>)
    requires LinksOwned(e) && steps == []
    ensures LinksOwned(Run(tools, e, steps)) && NeverRefilled(tools, e, steps)
  {
  }

  lemma RunPush(tools: Parsers, e: Event, steps: seq<Step>)
    requires steps != []
    ensures Run(tools, e, steps) == Do(tools, Run(tools, e, steps[..|steps| - 1]), steps[|steps| - 1])
  {
  }

  lemma OwnedNotRefilled(tools: Parsers, e: Event, step: Step)
    requires LinksOwned(e)
    ensures !Refills(tools, e, step)
  {
  }

  /** Where a field stopped belonging to the calendar it stays as it was then. */
  lemma LostFieldsStay(tools: Parsers, e: Event, steps: seq<Step>, k: nat)
    requires Started(e) && k <= |steps|
    requires forall step :: step in steps[k..] ==> !WritesText(step) && !WritesPrice(step)
    ensures var then', now := Run(tools, e, steps[..k]), Run(tools, e, steps);
      && (!TextOwned(then') ==> now.description == then'.description)
      && (!PriceOwned(then') ==> now.price == then'.price)
  {
    StaysStarted(tools, e, steps[..k]);
    assert steps == steps[..k] + steps[k..];
    RunThen(tools, e, steps[..k], steps[k..]);
    DescriptionFollowsOrStays(tools, Run(tools, e, steps[..k]), steps[k..]);
    PriceFollowsOrStays(tools, Run(tools, e, steps[..k]), steps[k..]);
  }

  /** A reviewed event whose calendar changes its text twice before anybody decides: the live text stays,
      the record holds the first change, and neither sync could offer the second one. */
  lemma SecondChangeIsLost(tools: Parsers, a: string, b: string, c: string)
    requires tools.extract(Some(a)) == Extraction(Some(a), None) && tools.extract(Some(b)) == Extraction(Some(b), None)
    requires tools.extract(Some(c)) == Extraction(Some(c), None) && a != b && a != c
    ensures var e := Sync(tools, BLANK, Some(a), true);
      var once := Pulled(tools, e, Some(b), false, true);
      var twice := Pulled(tools, once, Some(c), false, true);
      && Sync(tools, e, Some(b), false).description == Some(b)
      && Sync(tools, once, Some(c), false).description == Some(a)
      && twice.description == Some(a) && AppliedOf(twice).description == Some(Some(b)) && twice.source == Some(c)
  {
  }

  lemma {:induction false} LatestOf(tools: Parsers, first: Step, steps: seq<Step>)
    ensures LatestPull([first] + steps) == if LatestPull(steps).Some? then LatestPull(steps) else LatestPull([first])
    ensures LatestPayload(tools, [first] + steps) ==
            if LatestPayload(tools, steps).Some? then LatestPayload(tools, steps) else LatestPayload(tools, [first])
  {
    if steps == [] {
      assert [first] + steps == [first];
    } else {
      var n := |steps| - 1;
      assert ([first] + steps)[..n + 1] == [first] + steps[..n];
      LatestOf(tools, first, steps[..n]);
    }
  }

  // ------------------------------------------------------------------ applying the same source again

  /** In every state whatsoever, applying the same source a second time changes no visible field. */
  lemma SecondPullShowsNothingNew(tools: Parsers, e: Event, source: Option<string>)
    ensures var e1 := Sync(tools, e, source, false);
      var e2 := Sync(tools, e1, source, false);
      e2.(state := None) == e1.(state := None)
  {
  }

  /** The second application reports a change exactly for rows whose record lacks the applied
      description and whose text was edited to what the new source happens to say. */
  lemma SecondPullIsIdleIff(tools: Parsers, e: Event, source: Option<string>)
    ensures var e1 := Sync(tools, e, source, false);
      Sync(tools, e1, source, false) == e1 <==>
      !(AppliedOf(e).description.None? && !DescriptionOwned(tools, e)
        && e.description == tools.extract(source).description)
  {
  }

  /** A row from before the record was kept: its text was edited, and the source then changed to it. */
  lemma LegacyRowChangesTwice(tools: Parsers, text: string, earlier: string)
    requires tools.extract(Some(text)) == Extraction(Some(text), None)
    requires tools.extract(Some(earlier)) == Extraction(Some(earlier), None) && earlier != text
    ensures var row := BLANK.(source := Some(earlier), description := Some(text));
      var once := Sync(tools, row, Some(text), false);
      Sync(tools, once, Some(text), false) != once
  {
  }

  /** A reviewed event that is synced twice from the same source is left as it was. */
  lemma SecondReviewedPullIsIdle(tools: Parsers, e: Event, source: Option<string>, fills: bool)
    requires Started(e)
    ensures var e1 := Pulled(tools, e, source, fills, true);
      Pulled(tools, e1, source, fills, true) == e1
  {
  }

  /** So for an event first synced as new it never does, whatever was edited in between. */
  lemma SecondPullIsIdle(tools: Parsers, e0: Event, first: Option<string>, steps: seq<Step>, source: Option<string>)
    ensures var e := Run(tools, Sync(tools, e0, first, true), steps);
      var e1 := Sync(tools, e, source, false);
      Sync(tools, e1, source, false) == e1
  {
    StaysStarted(tools, Sync(tools, e0, first, true), steps);
    SecondPullIsIdleIff(tools, Run(tools, Sync(tools, e0, first, true), steps), source);
  }

  lemma {:induction false} StaysStarted(tools: Parsers, e: Event, steps: seq<Step>)
    requires Started(e)
    ensures Started(Run(tools, e, steps))
  {
    if steps != [] { StaysStarted(tools, e, steps[..|steps| - 1]); }
  }

  /** A curator put the field back to the value last applied after a source it had missed. */
  predicate TextRegained(tools: Parsers, before: Event, after: Event) {
    !TextOwned(before) && TextOwned(after) && after.description != tools.extract(after.source).description
  }

  predicate LinksRegained(tools: Parsers, before: Event, after: Event) {
    var p := tools.extract(after.source).payload;
    p.Some? && !LinksOwned(before) && LinksOwned(after) && after.links != Some(LinkItems(p.value))
  }

  predicate PriceRegained(tools: Parsers, before: Event, after: Event) {
    var p := tools.extract(after.source).payload;
    && p.Some? && !PriceOwned(before) && PriceOwned(after)
    && AppliedOf(after).price != Some(PriceFields(tools, p.value))
  }

  /** With edits between the two applications the second one is idle exactly when no edit handed a
      field back to a calendar that had moved on meanwhile. */
  lemma PullAfterEditsIsIdleIff(tools: Parsers, e: Event, source: Option<string>, description: Option<string>,
                                links: Option<seq<Link>>, price: Price, key: Option<string>)
    requires Started(e)
    ensures var e1 := Sync(tools, e, source, false);
      var edited := e1.(description := description, links := links, price := price, imageKey := key);
      Sync(tools, edited, source, false) == edited <==>
      !TextRegained(tools, e1, edited) && !LinksRegained(tools, e1, edited) && !PriceRegained(tools, e1, edited)
  {
  }

  // ------------------------------------------------------------------ the row

  class CachedEvent {
    var source: Option<string>
    var description: Option<string>
    var links: Option<seq<Link>>
    var price: Price
    var imageKey: Option<string>
    var state: Option<SyncState>

    constructor ()
      ensures Contents() == BLANK
    {
      source, description, links, price, imageKey, state := None, None, None, NO_PRICE, None, None;
    }

    function Contents(): Event reads this { Event(source, description, links, price, imageKey, state) }

    method ApplyCalendarDescription(tools: Parsers, text: Option<string>, isNew: bool) returns (changed: bool)
      modifies this
      ensures Contents() == Sync(tools, old(Contents()), text, isNew)
      ensures changed <==> Contents() != old(Contents())
    {
      hide LinkItems, PriceFields;
      var before := Contents();
      var extraction := tools.extract(text);
      var oldState := if state.Some? then state.value else EMPTY_STATE;
      var applied := oldState.applied;
      var owned := true;
      if !isNew {
        var previous := tools.extract(source);
        var last := if applied.description.Some? then applied.description.value else previous.description;
        owned := description == last || (state.None? && description == source);
      }
      source := text;
      if owned {
        description := extraction.description;
        applied := applied.(description := Some(extraction.description));
      }
      if extraction.payload.Some? {
        var payload := extraction.payload.value;
        if isNew || (if oldState.applied.links.Some? then links == oldState.applied.links else links == None) {
          links := Some(LinkItems(payload));
          applied := applied.(links := links);
        }
        if isNew
           || (if oldState.applied.price.Some? then price == oldState.applied.price.value else price == NO_PRICE) {
          price := PriceFields(tools, payload);
          applied := applied.(price := Some(price));
        }
      }
      state := Some(oldState.(version := Some(EXTRACTOR_STATE_VERSION), valid := extraction.payload.Some?,
                              payload := extraction.payload, applied := applied));
      changed := before != Contents();
    }

    method ExtractorImageNeeded() returns (needed: bool)
      ensures needed <==> ImageNeeded(Contents())
    {
      if state.None? || !state.value.valid { return false; }
      var desired := if state.value.payload.Some? then state.value.payload.value.image else "";
      var previous := state.value.applied.image;
      if previous.None? { return imageKey == None && desired != ""; }
      if imageKey != previous.value.key { return false; }
      return desired != previous.value.url;
    }

    /** `stored` is what the download yields; a failed one raises before anything is written. */
    method ApplyExtractorImage(stored: Option<string>) returns (applied: Option<bool>)
      modifies this`imageKey, this`state
      ensures Contents() == ApplyImage(old(Contents()), stored)
      ensures applied == if !ImageNeeded(old(Contents())) then Some(false)
                         else if DesiredImage(old(Contents())) != "" && stored.None? then None else Some(true)
    {
      var needed := ExtractorImageNeeded();
      if !needed { return Some(false); }
      var desired := if state.value.payload.Some? then state.value.payload.value.image else "";
      if desired != "" {
        if stored.None? { return None; }
        imageKey := stored;
      } else {
        imageKey := None;
      }
      state := Some(state.value.(applied := state.value.applied.(image := Some(AppliedImage(desired, imageKey)))));
      return Some(true);
    }
  }
}
