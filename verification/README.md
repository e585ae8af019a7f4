# Verification of the notification, sync and curation services

A Dafny model of the parts of this repository that keep state over many runs, with proofs of what those runs guarantee. `dafny verify dfyconfig.toml` checks everything.

**Notification delivery** (`backend/services/activity_email.py`, `event_message_instant.py`, `email.py`). A notification row carries three stamps (digest email, instant email, push), a user two clocks. `Delivery.dfy` gives one run as a function: claim, route, cap in whole logical groups, group per recipient and feature, send, stamp, defer, retry. `ActivityEmail.dfy` and `MessageDelivery.dfy` are the two writers as the code runs them, loops over row objects, proved to compute that function. The `Delivery*`, `Digest*`, `RunStatistics` and `Protocol` files prove what follows for rows, runs, days and interleavings; of these `DeliveryFacts`, `DigestFacts` and `RunStatistics` say it in terms of the columns of rows, the users' switches and the settings alone. `DigestBalance.dfy` is the digest's card balancer, again both as a function and as the in-place loop.

**Calendar sync** (`event_extractor.py`, `event_revisions.py`, `event_pipeline_processor.py`, `calendar_sync_worker.py`). `CalendarMerge.dfy` is the three-way merge of calendar fields with curators' edits, over histories of syncs of unreviewed and reviewed events, edits, decided changes and image imports. `EventRevisions.dfy` is what surrounds it: the staging of a reviewed event's incoming values as one pending change, and its decisions; `RevisionLaws.dfy` has what reaches review and what is offered again, `SyncedEvents.dfy` the row and its two callers as the code changes it. `CalendarSync.dfy` is the checkpoint protocol with aborts, faults and expired tokens; `CalendarSyncWorker.dfy` the worker that performs a run of it.

**Duplicate groups** (`duplicate_detection.py` with the removal hook of `event_visibility.py`). `Duplicates.dfy` has the tables, the actions on them (recorded and flagged pairs, decisions, removals with or without a block, restorations) and what holds over every history of them: groups filled pair by pair, with an arbitrary row chosen by `.first()`, describe connected components. `DuplicateScans.dfy` has the scans and admin operations as the code performs them, each proved to be a sequence of such actions.

**Smaller pieces.** `EmailTokens.dfy` (base64url and signed tokens), `Taxonomy.dfy` (overlay of tag overrides), `Engagement.dfy`, `Curation.dfy` and `CurationFacts.dfy` (idempotent, order-independent writes on behalf of users). `OrderedGroups.dfy` and `Sequences.dfy` hold the dictionary, sorting and summing idioms all of them use.

## Where code and documentation disagree

The code is modelled; each point has the exact condition and a concrete input or all of them.

- `backend/db/models.py:2198-2204` says the two email stamps are never both set. A run sets the second one exactly when the other vehicle was used before and the row is now included for this one, and so does the event-message writer (`DeliveryRuns.BothStampsIff`, `SwitchedRoutingStampsBoth`, `Protocol.MessageBothStampsIff`, `SwitchedMessagesStampBoth`); with constant instant routing it never happens (`Protocol.NeverBothEmailStamps`, `EmailedAtMostOnce`).
- `backend/services/email.py:1315-1322` says the balancer tracks "and N more" and lets no kind crowd out the rest. A trimmed card counts as one entry however many it holds, and a kind can lose all its cards (`DigestBalance.BalanceAnnouncesAllIff`, `TrimmedPairCountsOnce`, `BalanceKeepsEveryKindIff`, `OneKindCanBeCrowdedOut`).
- The sync worker treats a submitted event as handed over, but `submit` drops it silently once the abort flag is up, and after the last event the worker does not look at the flag again: the token then passes an event nobody has (`CalendarSync.RunKeepsTokenSafeIff`, `AbortCanSlipThrough`).
- A full fetch reports no deletions, so deletions not fetched before the token expires, or before an admin clears it for a reseed, are never applied; nor are those fetched while another status change of the event is open, such as a cancellation its organizer asked for, since nothing is recorded then and the token moves on (`CalendarSync.StepMakesGhostIff`, `ExpiryCanForget`, `ReseedCanForget`, `CancellationCanForget`, `GhostsStay`).
- `backend/services/event_revisions.py:239-250` puts the live values of a reviewed event back and lets the incoming ones wait for an admin. For text, links and price the record of what was applied moves on all the same, so the calendar loses the field: a further change before the decision is neither applied nor proposed, and another sync even withdraws the open proposal, where `backend/tests/api/test_event_revisions.py:600-607` expects it to survive (`CalendarMerge.DescriptionFollowsOrStays`, `SecondChangeIsLost`, `RevisionLaws.SourceReachesReviewIff`, `SecondTextIsLost`, `SecondSyncIsIdleIff`). Titles, places and times are not affected.
- When the source returns to a change an admin discarded while another one is pending, that one stays open although the source gave it up (`RevisionLaws.StaleProposalStays`; the exact condition is in `EventRevisions.ActFaithfulIff`).
- `backend/services/event_pipeline_processor.py:815-831` takes an event for unchanged by title, start, place and text. A change of its end alone is ignored, and a deletion is not undone when the event comes back as it was, which `backend/services/event_visibility.py:63-64` promises (`RevisionLaws.EndChangeIsIgnored`, `ReturnIsIgnoredIff`).
- `backend/services/event_pipeline_processor.py:854-861` fills in missing links without clobbering edits; links a curator cleared count as missing (`CalendarMerge.EditedLinksSurviveIff`).
- `backend/services/duplicate_detection.py:15-18` says a pair once recorded is never grouped again. An event that is removed leaves its pending groups, and when it comes back the next scan flags the pair anew (`Duplicates.RestoredPairIsFlaggedAgain`). Dismissed and resolved groups are permanent (`DecidedForever`); a recorded pair is forgotten exactly by a removal while all its groups are pending (`StaysRecordedIff`, `WithdrawUnrecordsIff`), and what was removed with a block stays unscanned until unblocked (`DuplicateScans.BlockedUntilUnblocked`).
- Applying the same calendar description twice is idle for events first synced as new; rows from before the record was kept can report one more change (`CalendarMerge.SecondPullIsIdleIff`, `LegacyRowChangesTwice`).
- `backend/services/engagement.py:17-19` promises idempotence. A user who saved an event from two devices owns two rows, and which one is compared is up to the database (`Engagement.TwoDevicesChangeTwice`). A second run is idle for every choice exactly when the rows not picked agreed before the first (`Engagement.RerunIsIdleIff`, `Curation.RulesTwice`, `BulkTwice`), which Going writes and removals always meet.
- `backend/services/engagement.py:23-25` says a Going write that ends up in a visible tier is fanned out. One that moves between the two visible tiers is not: the test at lines 203-208 compares the row with the value just assigned to it (`Engagement.NoticesTellVisibility`, `WideningIsSilent`).

## What is assumed

- A row claimed with `FOR UPDATE SKIP LOCKED` is invisible to other claims until commit or abort; a claim and the reading of users is one step.
- A user's time zone is a fixed offset; instants are integers in microseconds.
- Per run: settings do not change. For the bounds per day: digest ticks are serialised and non-forced. For `NeverBothEmailStamps`: the instant routing stays the same. For the cap: at least 1, as `backend/api/schemas.py:1930` demands of every request.
- What a run sees from outside (time, locks, filters, send outcomes, answers of the calendar service, the database's choice among rows) is a parameter, and arbitrary in every theorem that does not name a condition on it. Where an operation is repeated, the database may choose differently the second time.

## Model

| member | source | states |
|---|---|---|
| ActivityEmail.Session.RunOnce | backend/services/activity_email.py:739-1690 | the whole run on row objects: the new stamps and clocks are exactly those of the specification `Run`, what is delivered is exactly its receipts, and the reported statistics, skip reasons, capped recipients and fast pushes included, are exactly those the specification counts |
| ActivityEmail.Session.LoadPending | backend/services/activity_email.py:818-857 | the claimed and visible rows are, in query order, exactly those the pending clauses, the age limit, the recipient filter and the visibility and privacy filters let through |
| ActivityEmail.Session.RouteRow | backend/services/activity_email.py:968-1044 | a row goes to instant email, digest and push exactly by the routing rules, with the push slot looked up once per recipient |
| ActivityEmail.Session.RouteRows | backend/services/activity_email.py:963-1044 | the three per-recipient dictionaries hold exactly the routed rows, in first-occurrence order |
| ActivityEmail.BuildLogicalGroups | backend/services/activity_email.py:724-736 | the dictionary loop builds the declarative grouping: one group per milestone key, one per other row, in first-occurrence order |
| ActivityEmail.ApplyCap | backend/services/activity_email.py:1052-1069 | the included rows are those of the last N logical groups of each recipient, or all |
| ActivityEmail.Session.GroupEmail | backend/services/activity_email.py:1071-1081 | email groups per recipient and feature respect the channel flag; every recipient of an included row with a feature counts as seen, flag or not |
| ActivityEmail.Session.GroupPush | backend/services/activity_email.py:1086-1094 | push groups per recipient and feature respect the channel flag |
| ActivityEmail.BuildDigestGroups | backend/services/activity_email.py:1247-1268 | a new follower who is also a new friend is dropped; milestone features group by actor, the others logically |
| ActivityEmail.BuildSections | backend/services/activity_email.py:1306-1331 | one section per section name with the entries of its features, promo features sharing one, and the ids of all visible rows |
| ActivityEmail.SendCombinedDigests | backend/services/activity_email.py:1272-1387 | who gets the one combined email, which rows it delivers and which it defers because no card shows them |
| ActivityEmail.SendEmailGroups | backend/services/activity_email.py:1389-1464 | one email per group with something left to say; a failed one delivers nothing, and an interest email renders only its first matches |
| ActivityEmail.SendPushGroups | backend/services/activity_email.py:1505-1614 | pushes per group: counted, delivered, or kept for a retry after a transient error |
| ActivityEmail.Session.StampAll | backend/services/activity_email.py:1625-1653 | the stamping loops leave the committed state: digest overflow and push retries unstamped, both clocks moved |
| MessageDelivery.DeliverForRecipient | backend/services/event_message_instant.py:58-170 | the row loop commits exactly the stamps of the event-message transaction and counts its emails, pushes and retries |
| OrderedGroups.GroupByDescribes | backend/services/activity_email.py:724-736 | grouping is a partition: keys in first-occurrence order without repetition, each with exactly its rows in order |
| DeliveryRows.IncludedMember | backend/services/activity_email.py:1054-1069 | only routed rows are included, and without a cap all of them |
| DeliveryRows.CapKeepsWholeGroups | backend/services/activity_email.py:1052-1069 | with N at least 1 the logical groups of what is kept are the last N groups of the recipient, whole and in order |
| DeliveryRows.CapNeverSplits | backend/services/activity_email.py:1052-1069 | rows of one milestone group are kept or dropped together |
| DeliveryRows.CapIsPerRecipient | backend/services/activity_email.py:1052-1069 | of each recipient's routed rows a channel holds what the cap leaves of them, however many rows others have |
| DeliveryRows.CapZeroKeepsAll | backend/services/activity_email.py:1064 | a cap of 0 would keep every row, because of the slice |
| DeliveryRuns.NotIncludedKeepsStamp | backend/services/activity_email.py:1628-1641 | a row a channel does not include keeps its stamp on that channel |
| DigestRows.SectionsFromRows | backend/services/activity_email.py:1306-1331 | every id in a digest entry is one of the recipient's own visible rows, and no entry is empty |
| DigestFacts.KindsOf | backend/services/activity_email.py:128-149 | which kinds make up each feature |
| DigestFacts.OneGroupIff | backend/services/activity_email.py:724-736 | two rows count as one exactly when they are milestones of one kind and person under the same key |
| DigestFacts.TogetherIff | backend/services/activity_email.py:1247-1268 | two rows share an entry exactly when they belong to one person's milestones |
| DigestFacts.EntrySays | backend/services/activity_email.py:1150-1236 | an entry names the rows of one group in order, with the kind of the last, the time of the newest, and the person or alert it is grouped by |
| DigestFacts.AlertHasEntry | backend/services/activity_email.py:1138-1148 | a match has an entry for every alert its context names or lists |
| DigestFacts.SectionSays | backend/services/activity_email.py:1306-1331 | an entry stands in the section of its feature, promo codes of both features in one |
| DigestFacts.SectionNamesDiffer | backend/services/activity_email.py:1306-1331 | no section comes twice |
| DigestFacts.EmailsSent | backend/services/activity_email.py:1389-1464 | as many emails are counted as there are recipients and features with a row to tell of |
| DigestFacts.PushesSent | backend/services/activity_email.py:1505-1614 | pushes count the devices reached, over the same recipients and features |
| DigestFacts.RenderedIff | backend/services/activity_email.py:1398-1407 | of interest matches an email renders only the first of those it delivers |
| DigestRows.DeferredByOwnDigest | backend/services/activity_email.py:1345-1363 | a row is deferred exactly when its recipient's digest was sent with the row in some entry and on no card |
| DigestRows.DigestFate | backend/services/activity_email.py:1306-1363 | no row is both delivered and deferred, and a digest never defers everything |
| DigestCoverage.EntriesNameShown | backend/services/activity_email.py:1247-1331 | the entries of a digest name exactly the visible rows of its features, except new followers who are also new friends |
| DigestCoverage.DigestAccounts | backend/services/activity_email.py:1344-1363 | a digest that is sent delivers or defers exactly the rows its entries name |
| DigestCoverage.NoRowDisappears | backend/services/activity_email.py:1272-1363 | an included row is delivered or deferred exactly when its recipient takes the feature and digests, it is neither out of date nor superseded, and the send succeeds |
| DigestCoverage.SilentlyConsumedIff | backend/services/activity_email.py:1616-1632 | in a combined run a row is stamped without being shown exactly for one of those reasons |
| DigestCoverage.MailAccounts | backend/services/activity_email.py:1389-1464 | emails per feature: a row is delivered exactly when its recipient takes the feature, it is not out of date and the send succeeds, and rendered exactly when it is not cut off as well |
| DigestCoverage.InstantConsumedIff | backend/services/activity_email.py:1633-1635 | instant email stamps every row it includes, and delivers exactly those |
| DigestCoverage.SeparateConsumedIff | backend/services/activity_email.py:1628-1632 | the separate digest stamps every row it includes, defers none, and delivers exactly those |
| DigestCoverage.PushAccounts | backend/services/activity_email.py:1505-1614 | a push delivers a row, or keeps it for a retry, exactly by the channel flag, the date and the outcome of its group |
| DigestCoverage.PushConsumedIff | backend/services/activity_email.py:1636-1641 | push stamps every row it includes, delivered or not, except after a transient error |
| DigestRows.PushFate | backend/services/activity_email.py:1506-1523 | no row is both pushed and kept for a retry |
| DeliveryRuns.PlanRows | backend/services/activity_email.py:960-1069 | a row is included for a channel only if it is pending and routed there; without a cap also conversely |
| DeliveryRuns.PlanFate | backend/services/activity_email.py:1628-1641 | everything delivered on a channel is stamped on it, and a run with email rows stamps at least one |
| DeliveryFacts.ReceiptsAreWanted | backend/services/activity_email.py:1080-1094 | every receipt of a run, capped or not, is of a row of the table whose recipient has the row's feature switched on for that channel |
| DeliveryFacts.EmailOptOut | backend/services/activity_email.py:1071-1081 | switching all emails of a user off removes exactly that user's email receipts and no other receipt of the run |
| DeliveryFacts.PushOptOut | backend/services/activity_email.py:1086-1094 | switching all pushes of a user off removes exactly that user's push receipts |
| DeliveryFacts.InstantReceiptIff | backend/services/activity_email.py:968-1022 | an instant email delivers a row only if its columns, its recipient and the settings all say so, and without a cap exactly then |
| DeliveryFacts.PushReceiptIff | backend/services/activity_email.py:1000-1044 | the same for pushes, with the slot of interest pushes in local time |
| DeliveryFacts.CombinedDigestIff | backend/services/activity_email.py:1272-1363 | the same for the combined digest, where a row is delivered or put off: also the master switch, the slot in local time, and followers told of as friends |
| DeliveryFacts.SeparateDigestIff | backend/services/activity_email.py:1389-1464 | the same for one digest email per feature |
| DeliveryFacts.PlannedIff | backend/services/activity_email.py:960-1069 | without a cap the rows of each channel are exactly those their columns, recipients and the settings send there |
| DeliveryFacts.StampsIff | backend/services/activity_email.py:1625-1641 | without a cap: which of its three stamps a run sets on a row, and that it leaves the others alone |
| DeliveryFacts.ClocksIff | backend/services/activity_email.py:1643-1652 | which users' clocks it moves, and that it writes nothing else in a user |
| DeliveryFacts.ClaimedIff | backend/services/activity_email.py:818-850 | the ids a run locks, by the columns of their rows |
| DeliveryFacts.JobReceiptsIff | backend/services/activity_email.py:1693-1700 | exactly which rows a deliver job mails and pushes; it sends no digest and nothing twice |
| DeliveryFacts.MessageReceiptsIff | backend/services/event_message_instant.py:58-170 | what the event-message job mails, pushes and stamps, row by row |
| DeliveryFacts.GroupsOfUser | backend/services/activity_email.py:1071-1094 | one user's groups are built from that user's rows alone |
| RunStatistics.ReportIs | backend/services/activity_email.py:1676-1690 | what a run without a cap reports: the rows stamped, the fast pushes, nobody as capped, and the two early answers |
| RunStatistics.TallyIs | backend/services/activity_email.py:996-1044 | the skip reasons count the rows that wait for another day, a later hour, tomorrow, or the interest slot |
| RunStatistics.RecipientsAre | backend/services/activity_email.py:1686-1688 | the reported recipients are those of a row taken up for a digest or a push |
| RunStatistics.CappedIff | backend/services/activity_email.py:1052-1069 | a recipient counts as capped exactly when some channel held more of their groups than the cap |
| DeliveryRuns.StampedOrDeferred | backend/services/activity_email.py:1628-1632 | a row included for email keeps its old stamp exactly when its own digest went out with it in an entry and on no card, and is stamped otherwise |
| DeliveryRuns.VehiclesDisjoint | backend/services/activity_email.py:973-1022 | no run sends one row by both email vehicles, whatever the routing |
| DeliveryRuns.BothStampsIff | backend/db/models.py:2198-2204 | exactly when a run, capped or not, leaves both email stamps on a row: it had them, or one vehicle was used before and this run includes it for the other without putting it off |
| DeliveryRuns.BothStampsUncappedIff | backend/db/models.py:2198-2204 | the same without a cap, on what is pending and routed before the run |
| DeliveryRuns.DeferredIffOverflows | backend/services/activity_email.py:1345-1363 | an included row is deferred exactly when the digest of its own recipient went out with it in an entry and on no card |
| Protocol.MessageBothStampsIff | backend/db/models.py:2198-2204 | the second writer leaves both stamps exactly when the row had both, or was in a digest before and is mailed now |
| Protocol.SwitchedMessagesStampBoth | backend/db/models.py:2198-2204 | a concrete event message that it leaves with both |
| DeliveryRuns.SwitchedRoutingStampsBoth | backend/db/models.py:2198-2204 | a concrete row that ends up with both stamps after its feature is switched to instant |
| DeliveryRuns.DigestsIgnoreOtherChannels | backend/services/activity_email.py:832-847 | states that differ only in push and instant bookkeeping give the same digests, deferrals, email stamps and slots |
| DeliveryRuns.JobsNeverChangeDigests | backend/services/activity_email.py:1693-1700 | any number of deliver jobs before a tick leaves every digest outcome unchanged |
| DeliveryRuns.SecondRunIsIdle | backend/services/activity_email.py:832-847 | a second ordinary run at the same instant sends nothing and changes nothing, digest overflow included |
| DeliveryRuns.ForcedDigestShrinks | backend/services/activity_email.py:1306-1363 | a forced digest strictly shrinks a nonempty backlog, however its sends end |
| DeliveryRuns.ForcedDigestsDrain | backend/services/activity_email.py:1628-1632 | forced digests empty the backlog within as many runs as rows were waiting |
| DeliveryDays.OneDigestPerDay | backend/services/activity_email.py:1643-1652 | over any history of non-forced serialised ticks two digests to a recipient fall on different local days |
| DeliveryDays.DigestInSlot | backend/services/activity_email.py:1031-1044 | each goes out on a scheduled weekday, not before the scheduled time, and at most once per tick |
| DeliveryDays.OneInterestPushPerDay | backend/services/activity_email.py:1634-1646 | scheduled interest pushes reach a recipient in at most one tick per local day |
| DeliveryDays.InterestPushOnTime | backend/services/activity_email.py:348-362 | and only within three hours of the slot time on a scheduled weekday |
| Schedule.ParseSchedule | backend/services/activity_email.py:270-294 | any text at all gives a usable schedule: weekdays not empty, time of day in range |
| Schedule.ParsesPrinted | backend/services/activity_email.py:270-294 | a text in the documented form is read back as the weekdays and the time written, with blanks around the sign |
| Schedule.WeekdaysAre | backend/services/activity_email.py:248-262 | blank day tokens count for nothing, an unknown one makes the list unreadable, else it is the set of the days named |
| Schedule.UnreadableIsDefault | backend/services/activity_email.py:264-294 | a text without a sign, without days or without a colon in its time means Tuesday and Friday at nine |
| Schedule.InSlotIff | backend/services/activity_email.py:306-333 | the three gates amount to: scheduled weekday, at or after the opening instant, slot not spent that local day |
| Schedule.InterestPushInWindow | backend/services/activity_email.py:348-362 | a due interest push lies in the three-hour window after the opening instant |
| Schedule.TwoSlotsBeforeAgeOut | backend/services/activity_email.py:248-294 | a usable slot opens within 7 days of a row's creation and a second one within 14, while the row is still selected |
| Protocol.DeliveredAtMostOnce | backend/services/activity_email.py:788-850 | under every interleaving of ticks, deliver jobs and message jobs without resends, each row is delivered at most once per channel plus once per aborted transaction that had sent it |
| Protocol.NeverBothEmailStamps | backend/services/event_message_instant.py:66-133 | with constant instant routing, over every interleaving with resends and aborts, no row carries both email stamps |
| Protocol.EmailedAtMostOnce | backend/db/models.py:2198-2204 | with constant instant routing and no resends, over every interleaving, digest and instant emails of a row together number at most one plus those of aborted transactions |
| Protocol.RunTxnClaims | backend/services/activity_email.py:788-850 | a run stamps only rows it claimed, stamps all it delivers, and claims no locked row |
| Protocol.RunTxnFresh | backend/services/activity_email.py:832-850 | without resend a run delivers only what was not stamped on that channel |
| Protocol.MessageTxnClaims | backend/services/event_message_instant.py:73-86 | the same two facts for the event-message writer |
| DigestBalance.BalanceSections | backend/services/email.py:1312-1370 | the balancer as written, with the round-robin trim in place, computes the specified buckets |
| DigestBalance.BuildCards | backend/services/email.py:1330-1347 | cards of at most three entries per group key, newest first, the rest counted |
| DigestBalance.BuildBuckets | backend/services/email.py:1348-1355 | per kind the first cards up to the cap, the rest counted entry by entry |
| DigestBalance.TrimRoundRobin | backend/services/email.py:1357-1370 | the in-place trim of the bucket list equals the step-by-step trim on values |
| DigestBalance.BalanceCardCount | backend/services/email.py:1357-1370 | exactly all cards, or max(1, max_items) of them |
| DigestBalance.CardsAreNewestFirst | backend/services/email.py:1320-1321 | cards come newest first, and so do the entries on a card |
| DigestBalance.CardShows | backend/services/email.py:1330-1347 | an entry without a group has a card of its own; a group shows its newest three and counts the others |
| DigestBalance.OneCardPerGroup | backend/services/email.py:1335-1343 | no group has two cards |
| DigestBalance.BucketShows | backend/services/email.py:1348-1355 | of each kind the first cards up to the cap, at least one, and the entries behind the others |
| DigestBalance.SectionsInOrder | backend/services/email.py:1184-1197 | the order of the sections |
| DigestBalance.TrimKeepsPrefix | backend/services/email.py:1315-1322 | within a kind only the oldest cards are dropped |
| DigestBalance.BalanceLeaves | backend/services/email.py:1357-1370 | the trim keeps of each kind a prefix whose length depends on the numbers of cards alone, and announces one for each card it takes |
| DigestBalance.LeftByTurns | backend/services/email.py:1357-1370 | where no kind runs out, a kind loses one card per round-robin turn |
| DigestBalance.BalanceAnnouncesAllIff | backend/services/email.py:1315-1322 | "and N more" is exact if and only if every card beyond those numbers stands for one entry, which the buckets tell before the trim; otherwise short by precisely the surplus |
| DigestBalance.TrimmedPairCountsOnce | backend/services/email.py:1363-1366 | a concrete digest of three entries that shows one and announces one more |
| DigestBalance.BalanceKeepsEveryKindIff | backend/services/email.py:1320-1322 | every kind keeps a card if and only if no kind has as many round-robin turns as cards |
| DigestBalance.OneKindCanBeCrowdedOut | backend/services/email.py:1320-1322 | a concrete digest whose only interest match loses its card while five ticket prompts keep theirs |
| DigestBalance.RenderedAreEntries | backend/services/email.py:1312-1370 | cards show entries of the digest and nothing else |
| DigestBalance.BalanceRendersSomething | backend/services/email.py:1312-1370 | a digest with an entry always shows at least one notification |
| Sequences.SortByIsStable | backend/services/email.py:1325-1336 | the sort keeps the order of entries of equal rank |
| CalendarMerge.CachedEvent.ApplyCalendarDescription | backend/services/event_extractor.py:53-127 | the field assignments compute the specified merge, and the result tells exactly whether anything changed |
| CalendarMerge.CachedEvent.ExtractorImageNeeded | backend/services/event_extractor.py:130-142 | an import is wanted exactly for a valid payload, an image not replaced by hand and another url than the applied one |
| CalendarMerge.CachedEvent.ApplyExtractorImage | backend/services/event_extractor.py:145-170 | the import or removal of the image and its record; a failed download writes nothing |
| CalendarMerge.SyncIsAsPromised | backend/services/event_extractor.py:53-127 | one synchronisation column by column: ownership of text, links and price by record and old source, one link per url in order, the four price fields as the parser answers or empty, and what is put on record |
| CalendarMerge.ImportsAsPromised | backend/services/event_extractor.py:130-170 | when an image is imported, dropped or left, and what is put on record |
| CalendarMerge.DescriptionFollowsOrStays | backend/services/event_extractor.py:66-88 | over every later history without a written text: the description belongs to the calendar exactly if it did and no sync of the reviewed event brought another text; while it does it is the latest extraction, and one that does not never changes |
| CalendarMerge.LinksFollowOrStay | backend/services/event_extractor.py:90-99 | the same for links and the latest valid payload, over histories in which the pipeline refills no cleared links |
| CalendarMerge.EditedLinksSurviveIff | backend/services/event_pipeline_processor.py:854-861 | links a curator edited survive a sync exactly unless they were cleared and the pipeline fills them in again |
| CalendarMerge.PriceFollowsOrStays | backend/services/event_extractor.py:101-112 | the same as for the description, for the four price fields and the latest valid payload |
| CalendarMerge.LostFieldsStay | backend/services/event_revisions.py:239-260 | from any point of a history at which text or price no longer belong to the calendar they never change without being written |
| CalendarMerge.ImageFollowsOrStays | backend/services/event_extractor.py:130-170 | an image replaced by hand is never touched; one that was not still belongs to the calendar |
| CalendarMerge.EditedDescriptionIsKept | backend/services/event_extractor.py:66-88 | from a first sync, through any history, an edit away from the applied text survives any further history |
| CalendarMerge.UneditedFollows | backend/services/event_extractor.py:53-127 | a new, never edited event shows the latest source and the latest valid payload in each field for which every sync of it while reviewed agreed with what was live |
| CalendarMerge.SecondChangeIsLost | backend/services/event_revisions.py:239-260 | a concrete reviewed event whose text goes from A to B to C at the source: A stays live, B is on record, C reaches nobody |
| CalendarMerge.ImportCatchesUp | backend/services/event_extractor.py:145-170 | a successful import brings an owned image to the url of the latest source, whatever happened before |
| CalendarMerge.ImportSettles | backend/services/event_extractor.py:130-170 | in any state nothing is left to import after an import that did not fail |
| CalendarMerge.SecondPullShowsNothingNew | backend/services/event_extractor.py:53-127 | in any state the same source a second time changes no visible field |
| CalendarMerge.SecondPullIsIdleIff | backend/services/event_extractor.py:71-77 | and reports a change exactly for rows whose record lacks the applied description and whose edited text is what the new source says |
| CalendarMerge.LegacyRowChangesTwice | backend/services/event_extractor.py:71-77 | a concrete such row |
| CalendarMerge.SecondPullIsIdle | backend/services/event_extractor.py:53-127 | after any history of an event first synced as new the same source a second time returns False |
| CalendarMerge.SecondReviewedPullIsIdle | backend/services/event_pipeline_processor.py:832-865 | a reviewed event is left as it was by a second sync from the same source |
| CalendarMerge.PullAfterEditsIsIdleIff | backend/services/event_extractor.py:66-108 | with edits in between it is idle exactly when no edit gave a field back to a calendar that had moved on |
| SyncedEvents.SyncedEvent.StageSourceChanges | backend/services/event_revisions.py:239-312 | the staging step leaves exactly the specified row: live values back, the incoming ones noted, and the pending change kept, replaced or withdrawn |
| SyncedEvents.SyncedEvent.SyncKnown | backend/services/sync_service.py:443-485 | a sync of a known event by the service is merge, overwrite and staging |
| SyncedEvents.SyncedEvent.PersistKnown | backend/services/event_pipeline_processor.py:812-871 | so it is in the pipeline, which also fills in missing links and skips what it takes for unchanged, exactly by the stated test |
| SyncedEvents.SyncedEvent.constructor | backend/services/event_pipeline_processor.py:895-903 | a new event starts with its own values as the received ones and nothing pending |
| EventRevisions.SyncKeepsPublished | backend/services/event_revisions.py:239-260 | a sync of a reviewed event changes no revisable field that people see |
| EventRevisions.ActFaithfulIff | backend/services/event_revisions.py:239-312 | what waits for review is exactly the difference between the live values and the source's last ones; the single actions, syncs, decisions, edits and removals, after which it no longer is |
| EventRevisions.NothingIsLost | backend/services/event_revisions.py:239-312 | over every history without such an action it stays so, and accepting shows what the last sync brought |
| EventRevisions.AcceptSettles | backend/api/routes/admin.py:4553-4584 | accepting in such a state leaves nothing to review and the live values equal to those received |
| RevisionLaws.SourceReachesReviewIff | backend/services/event_revisions.py:239-312 | after a sync of a reviewed event the next decision can show the plain fields of the source always, and its text, links or price exactly when the calendar owned them, they are live already, or missing links are filled in |
| RevisionLaws.StagedChange | backend/services/event_revisions.py:251-312 | in any state: which fields the open change has after a sync, and when it is kept, replaced or withdrawn |
| RevisionLaws.SecondTextIsLost | backend/services/event_revisions.py:239-312 | whatever the second sync of a reviewed event with a changed text brings, no decision can show any text but the live one |
| RevisionLaws.SecondSyncIsIdleIff | backend/tests/api/test_event_revisions.py:600-607 | an unchanged source synced again leaves row and pending change alone exactly when every text, link list or price the calendar owned was already live |
| RevisionLaws.ExecuteIsRun | backend/services/event_pipeline_processor.py:832-865 | every history of syncs and decisions is a history of the merge, so what is proved over those holds for these rows |
| RevisionLaws.LocalEditIsNotReverted | backend/services/event_revisions.py:244-247 | while the source stands by its value of a plain field, no sync proposes anything for it and a local edit of it stays |
| RevisionLaws.DiscardedIsNotProposed | backend/api/routes/admin.py:4815-4823 | over every history without other decisions the open change is none an admin discarded |
| RevisionLaws.StaleProposalStays | backend/services/event_revisions.py:289-301 | a concrete history after which accepting the open change shows a title the source has given up |
| RevisionLaws.EndChangeIsIgnored | backend/services/event_pipeline_processor.py:815-831 | a later version that moves only the end or the all-day mark is skipped exactly when no links are missing that the source has, and then changes nothing |
| RevisionLaws.ReturnIsIgnoredIff | backend/services/event_visibility.py:63-64 | a deleted event that comes back as it was stays deleted or proposed for removal exactly under the same condition; the service always undoes the deletion |
| RevisionLaws.RowKeeps | backend/services/event_pipeline_processor.py:851-856 | coordinates found once are kept, and what a deletion at the source does to the row and its open change |
| DuplicateScans.DuplicateStore.AddToGroupOrCreate | backend/services/duplicate_detection.py:145-182 | records the pair in an arbitrary touching pending group or a new one, nothing when recorded, and keeps the component invariant |
| DuplicateScans.DuplicateStore.FindCandidateMatches | backend/services/duplicate_detection.py:110-142 | exactly the other coming, public, unblocked events the matcher accepts, in query order |
| DuplicateScans.DuplicateStore.DetectForEvent | backend/services/duplicate_detection.py:185-238 | every match of an event that may be looked at is recorded, the rows added are those of the event and its matches, and the counters bound the new groups |
| DuplicateScans.DuplicateStore.RunFullScan | backend/services/duplicate_detection.py:249-299 | every match is recorded, the candidate count is the number of unordered pairs of groupable events the matcher accepts, rows are added for such events only, new groups <= groups_created <= candidates_found, and when all pairs were recorded nothing changes |
| DuplicateScans.DuplicateStore.KeepEvent | backend/services/duplicate_detection.py:329-389 | resolves the group, removes and blocks exactly the other members that exist, or reports one of the two errors and changes nothing |
| DuplicateScans.DuplicateStore.WithdrawEvent | backend/services/event_visibility.py:166-191 | a removed event leaves every pending group, and a group left with fewer than two is dismissed |
| DuplicateScans.DuplicateStore.RemoveFromListing | backend/services/event_visibility.py:54-74 | any removal, by the sync, the owner, a review or an admin who also blocks: the hook runs if the event was not removed already, and the invariant is kept |
| DuplicateScans.DuplicateStore.RestoreToListing | backend/api/routes/admin.py:3925-3950 | an event comes back, unblocked or not; no row returns with it |
| DuplicateScans.DuplicateStore.CreateManualGroup | backend/services/duplicate_detection.py:302-326 | always a new pending group with the given events |
| DuplicateScans.DuplicateStore.DismissGroup | backend/services/duplicate_detection.py:392-406 | dismisses the group or reports that there is none; rows stay |
| Duplicates.AddPairRecords | backend/services/duplicate_detection.py:145-182 | after the call the two events share a group, and no row or group is lost |
| Duplicates.PairGoesTo | backend/services/duplicate_detection.py:145-182 | which group a pair goes to, for every row `.first()` may return, and that a recorded pair goes nowhere |
| Duplicates.WithdrawIs | backend/services/event_visibility.py:166-191 | row by row: which rows the hook deletes and which groups it dismisses |
| Duplicates.DecisionsAre | backend/services/duplicate_detection.py:329-406 | row by row: what dismissing, resolving and keeping do, and that a decision about what is not there does nothing |
| Duplicates.RecordKeepsInvariant | backend/services/duplicate_detection.py:145-182 | whichever row `.first()` returns, groups stay connected through matches and matches among events not removed since stay inside groups |
| Duplicates.FlagKeepsInvariant | backend/services/duplicate_detection.py:302-326 | so does a group made by hand |
| Duplicates.ComponentsAgree | backend/services/duplicate_detection.py:13-18 | sharing a group and being matched have the same equivalence closure |
| Duplicates.GroupsAreComponents | backend/services/duplicate_detection.py:13-18 | from empty tables, over every history without removals, the groups are exactly the connected components of the recorded and flagged pairs |
| DuplicateScans.ScansFindComponents | backend/services/duplicate_detection.py:249-299 | from empty tables, over every sequence of full scans with dismissals in between that has recorded all matches, being related through groups is being related through the matches of the catalog |
| DuplicateScans.ScanAddsOnlyAlike | backend/services/duplicate_detection.py:110-142 | from any tables every row a full scan adds is of a coming, public, unblocked event with one the matcher accepts beside it in its group |
| DuplicateScans.ScansAddOnlyAlike | backend/services/duplicate_detection.py:249-299 | the same over any sequence of full scans while the catalog changes |
| DuplicateScans.PairsAre | backend/services/duplicate_detection.py:249-299 | the pairs a full scan looks at are the unordered pairs of coming, public, unblocked events the matcher accepts |
| DuplicateScans.MatchEdgesAre | backend/services/duplicate_detection.py:110-142 | the ordered pairs a full scan accepts: those of the matcher between two different coming, public, unblocked events |
| Duplicates.GroupsFollowMatches | backend/services/event_visibility.py:166-191 | over every history of records, flags, decisions, removals and restorations: matches made since both events were last removed are inside groups, and groups contain only matched events |
| Duplicates.RemovalKeepsInvariant | backend/services/event_visibility.py:166-191 | removing events loses only rows of removed events |
| Duplicates.DecidedForever | backend/services/duplicate_detection.py:13-18 | a pair in a dismissed or resolved group is never flagged again, whatever is removed, restored or unblocked later |
| Duplicates.WithdrawUnrecordsIff | backend/services/event_visibility.py:166-191 | the hook makes the tables forget a recorded pair exactly when it removes one of the two and all groups they share are pending |
| Duplicates.StaysRecordedIff | backend/services/duplicate_detection.py:13-18 | which single action makes the tables forget a recorded pair: exactly a first removal of one of the two while all their groups are pending |
| Duplicates.SettledUntilUnrecorded | backend/services/duplicate_detection.py:13-18 | over every history without such an action a recorded pair is never flagged again |
| Duplicates.RestoredPairIsFlaggedAgain | backend/services/duplicate_detection.py:13-18 | a concrete history, removal by the sync and return, after which the same pair gets a second group |
| DuplicateScans.BlockedUntilUnblocked | backend/services/duplicate_detection.py:358-374 | over every history without an unblock no scan looks at a blocked event, as source or candidate |
| CalendarSyncWorker.CalendarSyncWorker.Run | backend/services/calendar_sync_worker.py:73-156 | the worker's run, with aborts, faults and fallback, has exactly the specified effect on the token, the submissions and the events without a removal on record |
| CalendarSync.RunIsAsPromised | backend/services/calendar_sync_worker.py:73-156 | one run said of its script: its status, which events are accepted, which removals are recorded and when the token moves |
| CalendarSync.NothingIsExempt | backend/services/calendar_sync_worker.py:175-222 | events before a `timeMin` are exempt from that only if a full run with one saved its token |
| CalendarSyncWorker.CalendarSyncWorker.FetchWithFallback | backend/services/calendar_sync_worker.py:175-222 | an expired token is cleared, in the row and in the worker, and a full fetch is made |
| CalendarSyncWorker.CalendarSyncWorker.SubmitEvent | backend/services/event_pipeline_processor.py:425-432 | an event is dropped silently once the abort flag is up |
| CalendarSyncWorker.CalendarSyncWorker.ReconcileDeletes | backend/services/calendar_sync_worker.py:224-243 | every reported event still held is removed when nobody can see it, and its removal proposed when people can and no other status change is open; the others are untouched |
| CalendarSyncWorker.CalendarSyncWorker.RecordRemoval | backend/services/event_revisions.py:392-424 | one removal: immediate for an event nobody can see, proposed for a listed one, and not recorded at all while another status change of it is open |
| CalendarSync.RunKeepsTokenSafeIff | backend/services/calendar_sync_worker.py:95-138 | a single run, however it aborts, fails or loses its token, keeps the token behind everything submitted that the stored token's own full fetch asked for, exactly unless the abort flag goes up inside the last submission |
| CalendarSync.AbortCanSlipThrough | backend/services/event_pipeline_processor.py:425-432 | a concrete run that stores a token past a dropped event |
| CalendarSync.TokenNeverPasses | backend/services/calendar_sync_worker.py:95-156 | over every history without that race the token never passes an event version that was not submitted |
| CalendarSync.AcceptedUnlessSlips | backend/services/calendar_sync_worker.py:98-111 | a run that stores a token submitted everything, or in the race all but the last event |
| CalendarSync.StepMakesGhostIff | backend/services/calendar_sync_worker.py:194-222 | a step leaves a deleted event without a removal and with nothing left to report it exactly when the source deletes it while there is no token, the token expires or is cleared for a reseed before the deletion was fetched, a run that saves its token fetches it while another status change is open, or an admin keeps the event afterwards |
| CalendarSync.ExpiryCanForget | backend/services/calendar/google_calendar.py:187-195 | a concrete history in which the token expires |
| CalendarSync.ReseedCanForget | backend/api/routes/admin.py:640-652 | one in which an admin reseeds the calendar |
| CalendarSync.CancellationCanForget | backend/services/event_revisions.py:409-411 | one in which an organizer asked for a cancellation before |
| CalendarSync.GhostsStay | backend/services/calendar_sync_worker.py:224-243 | over every further history, reseeds and decisions included, nothing repairs it until the source touches the event again or somebody removes it by hand |
| CalendarSync.DeletionsArrive | backend/services/calendar_sync_worker.py:127-138 | over every history without such a step every event without a removal is still held by the calendar or its deletion will be reported |
| CalendarSync.Untouched | backend/services/calendar/google_calendar.py:220-223 | an event no change since a token concerns is as it was at the token |
| EmailTokens.UrlRoundTrip | backend/services/email_tokens.py:65-71 | for every byte string: strip the padding, pad again, decode, and the bytes are back; the text has no dot and no equals sign |
| EmailTokens.DecodeEncode | backend/services/email_tokens.py:65-71 | the lenient decoder undoes the padded encoder of RFC 4648 section 5 |
| EmailTokens.EncodeShape | backend/services/email_tokens.py:65-71 | what stripping removes is exactly what the length modulo four puts back |
| EmailTokens.AlphabetInOrder | backend/services/email_tokens.py:65-71 | the 64 characters are A to Z, a to z, 0 to 9, minus and underscore, in that order |
| EmailTokens.GroupIsBigEndian | backend/services/email_tokens.py:65-71 | four characters hold the 24 bits of their three bytes, and a shorter last group is filled with zeros |
| EmailTokens.PayloadReads | backend/services/email_tokens.py:85-88 | reading the printed payload gives the user id and the category back |
| EmailTokens.ReadIsPrinted | backend/services/email_tokens.py:98-107 | nothing else is read as a payload: what reads as an object was printed as one, with those members |
| EmailTokens.TextIs | backend/services/email_tokens.py:98-99 | bytes are a text exactly if they are its ASCII codes |
| EmailTokens.UnsubscribeRoundTrip | backend/services/email_tokens.py:81-110 | for every category and id: verifying undoes making, except that the empty id is refused |
| EmailTokens.AcceptedUnsubscribeIff | backend/services/email_tokens.py:91-110 | for every string: a token is accepted for a user and a category exactly if it is a body naming them, a dot, and the signature of that body |
| EmailTokens.OneSignature | backend/services/email_tokens.py:100 | no body is accepted with two signatures |
| EmailTokens.UnsubscribeRaisesIff | backend/services/email_tokens.py:91-110 | verifying raises exactly for a readable body with a signature that is not ASCII |
| EmailTokens.ParseDecimal | backend/services/email_tokens.py:117-126 | parsing undoes printing a number |
| EmailTokens.NotificationRoundTrip | backend/services/email_tokens.py:113-129 | verifying undoes making exactly for ids that are not negative |
| EmailTokens.AcceptedNotificationIff | backend/services/email_tokens.py:117-129 | for every string: a token is accepted as an id for an action exactly if it is digits that read as the id, a dot, and the first 22 characters of the signature of that id and action |
| EmailTokens.NotificationPayloadsDiffer | backend/services/email_tokens.py:113-114 | different ids or actions never sign the same text |
| EmailTokens.PayloadKindsDiffer | backend/services/email_tokens.py:113-114 | nor is a notification text ever an unsubscribe payload |
| Taxonomy.MergeTagOverrides | backend/db/seed.py:166-183 | the group loop computes the specified merge |
| Taxonomy.MergeTagEntry | backend/db/seed.py:151-162 | the tag loop of one group does |
| Taxonomy.LayerIsOverlay | backend/db/seed.py:151-183 | with distinct slugs the merged list is the pointwise overlay in base order, unknown slugs behind in override order |
| Taxonomy.LayerPointwise | backend/db/seed.py:151-183 | what the merged list holds for any slug: the base entry, the override laid over it, or nothing once removed |
| Taxonomy.MergedTaxonomy | backend/db/seed.py:166-183 | both levels at once: groups, and tags within each overridden group |
| Taxonomy.MergedTag | backend/db/seed.py:151-162 | one tag of an overridden group, field by field |
| Taxonomy.MergedTags | backend/db/seed.py:151-162 | by the slug column: named tags are laid over or removed, the others stay, unknown ones are added |
| Taxonomy.MergedGroup | backend/db/seed.py:166-183 | by the slug column: an overridden group takes the given fields and its tags are merged, a removed one is gone |
| Taxonomy.RestStays | backend/db/seed.py:166-183 | the rest of the document stays as it is |
| Taxonomy.LayerTwice | backend/db/seed.py:151-183 | laying the same overrides over the result again changes nothing |
| Taxonomy.MergeTwice | backend/db/seed.py:166-183 | merging the same document again changes nothing, at either level |
| Curation.EngagementTable.SetEventEngagement | backend/services/engagement.py:84-276 | one call adds, retargets or sweeps the rows of one user, event and kind, asks for exactly the specified notices, and reports exactly what it did |
| Curation.ApplyCurationRules | backend/services/curation_hook.py:41-108 | the nested loop leaves the rows and notices of the specified run of writes and counts rules, skips and changes |
| CurationFacts.HookLeavesAlone | backend/services/curation_hook.py:41-108 | a row stays as it was unless an enabled rule of its event's calendar names its user and kind and the event was touched by the sync |
| CurationFacts.HookCarriesOut | backend/services/curation_hook.py:84-107 | where such a rule speaks, the cell ends as its one write leaves it |
| CurationFacts.SwitchedOffIsDeleted | backend/services/curation_hook.py:70-76 | a rule that is switched off counts for rows, notices and counters like one that is not there |
| CurationFacts.HookCounts | backend/services/curation_hook.py:84-93 | which rules count as evaluated and which as skipped |
| CurationFacts.WriteAsPromised | backend/services/engagement.py:148-276 | one write row by row: what a removal takes, the row an addition makes, the audience it changes |
| Curation.BulkSetEngagement | backend/services/admin_curation.py:65-154 | the nested loops leave the rows and notices of the specified run and one item per pair with its status |
| Curation.Items | backend/services/admin_curation.py:107-153 | one item per pair, in order, skipped exactly for an unknown handle, a failed gate or an unknown event |
| CurationFacts.FoundIff | backend/services/admin_curation.py:77-90 | which accounts the handles find |
| CurationFacts.StatusOf | backend/services/admin_curation.py:107-153 | the reason a pair is skipped for, by its account, its gate and its event |
| CurationFacts.BulkWritesIff | backend/services/admin_curation.py:107-153 | the writes of a bulk order, by pair, account and audience |
| Curation.PairAt | backend/services/admin_curation.py:107-153 | the pairs are the cross product, handle by handle |
| Curation.CountsAgree | backend/services/admin_curation.py:46-48 | the changed count is the number of writes that changed a row |
| Curation.RulesAreConsistent | backend/db/models.py:370-377 | with one rule per calendar, target and kind no two rules write to the same cell |
| Curation.RuleOrderIsIrrelevant | backend/services/curation_hook.py:84-107 | the rows left do not depend on the order of the rules |
| Curation.RulesTwice | backend/services/curation_hook.py:84-107 | with the same answers of the database a second application changes nothing; whatever row it returns first the second time, nothing changes exactly when the rows not picked the first time had the wanted audience from the start |
| Curation.GoingRulesTwice | backend/db/models.py:1952-1959 | Going rules change nothing the second time, whatever the database returns |
| Curation.BulkTwice | backend/services/admin_curation.py:107-154 | the same for a bulk order, on its reported items |
| Curation.BulkTwiceUnconditionally | backend/services/admin_curation.py:107-154 | a removal or Going order reports no change the second time, whatever the database returns |
| Curation.GateHolds | backend/services/admin_curation.py:55-62 | no row of a user who fails the ownership gate is touched |
| Curation.DictionaryGet | backend/services/curation_hook.py:66-68 | looking a calendar up in the dictionary gives exactly its events in order |
| Engagement.DoIsLocal | backend/services/engagement.py:148-276 | a write does inside its cell what it would do to the cell alone, and touches nobody's anonymous rows |
| Engagement.DoElsewhere | backend/services/engagement.py:148-276 | and leaves every other cell as it was |
| Engagement.RunPointwise | backend/services/engagement.py:148-276 | what any run of writes leaves in any cell |
| Engagement.OrderIsIrrelevant | backend/services/engagement.py:148-276 | runs of the same consistent writes in any order leave the same table |
| Engagement.RerunIsIdle | backend/services/engagement.py:17-19 | repeating a run changes nothing when the database answers as before |
| Engagement.RerunIsIdleIff | backend/services/engagement.py:17-19 | it changes nothing whatever the database answers exactly when, before the first run, the rows not picked already had the wanted audience |
| Engagement.GoingRerunIsIdle | backend/db/models.py:1952-1959 | Going writes change nothing the second time, whatever it answers |
| Engagement.NoticesTellVisibility | backend/services/engagement.py:188-276 | with one row per user and event, followers hear of a Going entry exactly when it becomes visible and of its withdrawal exactly when it stops being so |
| Engagement.WideningIsSilent | backend/services/engagement.py:196-215 | a concrete change from friends to everybody that nobody hears of |
| Engagement.RerunIsSilent | backend/services/engagement.py:17-26 | a repeated run tells nobody anything under the condition under which it changes nothing |
| Engagement.AnyRerunIsIdleIff | backend/services/engagement.py:161-176 | whichever row comes first the next time, the second write is idle exactly when no other row of that user and event kept another audience |
| Engagement.TwoDevicesChangeTwice | backend/services/engagement.py:161-176 | a concrete pair of saved rows that changes twice |
| Engagement.OneRowIsUniform | backend/db/models.py:1952-1959 | a user with at most one row per event, as the Going index enforces, is never affected |

## Left out

- Rendering of emails and pushes, tracked urls, people suggestions and the delivery log.
- SQL, sessions and migrations: tables are sequences, sets and maps of rows. SQLite ignores row locks; the model follows PostgreSQL.
- Time zones with daylight saving.
- Schedule.ParseSchedule: Python's `strip`, `lower` and `int` on strings are arbitrary functions; `Schedule.ParsesPrinted` names what it needs of them.
- The visibility, privacy and staleness filters (`eligible_event_ids`, `filter_privacy_safe_notifications`, `_stale_prompt_ids`, `_stale_promo_ids`): each is an arbitrary set given to the run.
- ActivityEmail.Session.RunOnce: the clock of interest pushes is set in a loop of its own, not in the push-stamping loop.
- Protocol.DeliveredAtMostOnce: rows whose stamps a re-alert resets (`backend/services/notifications.py:196-198`) count as new rows; resent rows are excluded, since resending is what that option is for.
- Users a run locks out of a concurrent digest tick: a claimed row is skipped by the tick and waits for the next slot.
- DigestBalance.BalanceSections: a creation time is always present, so the fallback for a missing one is not modelled.
- CalendarMerge.CachedEvent.ApplyCalendarDescription: extraction and price parsing are arbitrary functions; HTML and JSON parsing are not modelled.
- EventRevisions.ActFaithfulIff: changes are compared by value, where the code compares SHA-256 hashes; the place, coordinates and tags an applied change brings along, changes to a whole series, and what attendees are told are not modelled. At most one change from the source is open at a time.
- RevisionLaws.EndChangeIsIgnored: the content hash is an arbitrary function of title, start and place; what geocoding found is a flag.
- CalendarSyncWorker.CalendarSyncWorker.Run: the pipeline's queue, dropped on abort, is not modelled; a submitted event counts as held and its removal as undone, also where the pipeline takes it for unchanged (`RevisionLaws.ReturnIsIgnoredIff` says when). Which events are listed is fixed during a run.
- Changes that arrive at the source while a run is under way count as arriving after it, which is how tokens order them.
- DuplicateScans.DuplicateStore.RunFullScan: titles, distances in time and the similarity ratio are one arbitrary relation; a scan that raises half-way is a shorter scan.
- DuplicateScans.DuplicateStore.KeepEvent: removed events leave pending groups one after another, where the hook may take several at once; only the rows of removed events can differ.
- Merging events, apart from the status it gives them, and event series, whose groups the removal hook treats alike.
- EmailTokens.UnsubscribeRoundTrip: ids are restricted to printable ASCII that JSON leaves unescaped, and payloads to flat objects of such strings; the keyed hash is an arbitrary function.
- EmailTokens.NotificationRoundTrip: which characters count as digits is a parameter that agrees with the ten ASCII digits.
- Taxonomy.MergeTagOverrides: lists and dictionaries are values, so that the base document is left alone is not something the model could get wrong; `tags: null` in a base group is not modelled.
- Curation.ApplyCurationRules: to whom a fanned-out notice goes, how many rows that makes (`fan_out_count`), and the integrity error for a curator key owned by somebody else are not modelled.
- The remaining seeder, settings getters, rate limits, cookies, admin queries and the frontend.
