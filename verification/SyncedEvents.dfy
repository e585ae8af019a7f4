/** The row as the code changes it: its two callers and the staging step, in place. */
module SyncedEvents {
  import opened Options
  import opened CalendarMerge
  import opened EventRevisions

  class SyncedEvent {
    const content: CachedEvent
    const env: Env
    var plain: Plain
    var reviewed: bool
    var received: Option<Values>
    var pending: Option<Change>
    var discarded: seq<Change>
    var removal: bool
    var deleted: bool
    var located: bool
    var key: Option<string>

    /** An event the pipeline has not seen before. */
    constructor (env: Env, news: News)
      ensures this.env == env && fresh(content)
      ensures Contents() == Row(news.plain, Sync(env.tools, BLANK, news.source, true), false,
                                Some(Snapshot(Contents())), None, [], false, false, news.located,
                                Some(KeyOf(env, news.plain)))
      ensures Faithful(Contents())
    {
      this.env := env;
      content := new CachedEvent();
      plain, reviewed, pending, discarded := news.plain, false, None, [];
      removal, deleted, located, key := false, false, news.located, Some(KeyOf(env, news.plain));
      new;
      var _ := content.ApplyCalendarDescription(env.tools, news.source, true);
      received := Some(Values(plain, content.description, content.links, content.price));
      NoneDiffers(Snapshot(Contents()), Snapshot(Contents()));
    }

    function Contents(): Row reads this, content {
      Row(plain, content.Contents(), reviewed, received, pending, discarded, removal, deleted, located, key)
    }

    method Restore(values: Values)
      modifies this`plain, content`description, content`links, content`price
      ensures Contents() == Restored(old(Contents()), values)
    {
      plain := values.plain;
      content.description, content.links, content.price := values.text, values.links, values.price;
    }

    /** `before` is the snapshot taken before the sync touched the row. */
    method StageSourceChanges(before: Values)
      modifies this, content
      ensures Contents() == Stage(before, old(Contents()))
    {
      hide Differing, Same, SameChange;
      ghost var r := Contents();
      var incoming := Values(plain, content.description, content.links, content.price);
      var baseline := if received.Some? then received.value else before;
      received := Some(incoming);
      removal := false;
      if !reviewed { return; }
      var moved := Differing(incoming, baseline);
      Restore(before);
      if moved == {} { return; }
      var proposed := moved;
      if pending.Some? {
        proposed := proposed + set f | f in pending.value.fields && Same(f, pending.value.now, incoming);
      }
      var change := Change(proposed * Differing(incoming, before), incoming);
      assert change == Incoming(before, r);
      if change.fields == {} {
        pending := None;
        return;
      }
      if pending.Some? && SameChange(pending.value, change) { return; }
      if exists d :: d in discarded && SameChange(d, change) { return; }
      pending := Some(change);
    }

    /** What both callers write in place; the pipeline also fills in what is missing. */
    method WriteInPlace(news: News, caller: Caller)
      modifies this`plain, this`key, this`deleted, this`located, content
      ensures Contents() == Merged(env, old(Contents()), news, caller)
    {
      hide Sync, KeyOf, LinkItems;
      var payload := env.tools.extract(news.source).payload;
      var _ := content.ApplyCalendarDescription(env.tools, news.source, false);
      plain := news.plain;
      key := Some(KeyOf(env, news.plain));
      deleted := false;
      if caller.Pipeline? {
        located := located || news.located;
        if content.links.None? && payload.Some? { content.links := Some(LinkItems(payload.value)); }
      }
    }

    /** `sync_calendar`, for an event it knows. */
    method SyncKnown(news: News)
      modifies this, content
      ensures Contents() == Receive(env, old(Contents()), news, Service)
    {
      hide Stage, Merged;
      var liveBefore := Values(plain, content.description, content.links, content.price);
      WriteInPlace(news, Service);
      StageSourceChanges(liveBefore);
    }

    /** `_persist_with_dedup`, for an event it knows. */
    method PersistKnown(news: News) returns (skipped: bool)
      modifies this, content
      ensures Contents() == Receive(env, old(Contents()), news, Pipeline)
      ensures skipped <==> Skips(env, old(Contents()), news)
    {
      hide Stage, Merged, KeyOf;
      var contentUnchanged := key == Some(KeyOf(env, news.plain));
      var sourceUnchanged := content.source == news.source;
      var extractorCurrent := content.state.Some? && content.state.value.version == Some(EXTRACTOR_STATE_VERSION);
      var newGeocode := !located && news.located;
      var newLinks := content.links.None? && env.tools.extract(news.source).payload.Some?;
      if contentUnchanged && sourceUnchanged && extractorCurrent && !(newGeocode || newLinks) { return true; }
      var liveBefore := Values(plain, content.description, content.links, content.price);
      WriteInPlace(news, Pipeline);
      StageSourceChanges(liveBefore);
      return false;
    }
  }
}
