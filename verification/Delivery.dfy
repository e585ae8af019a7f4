/** One delivery run as a function: which rows are claimed, how each is routed, capped and
    grouped, what is sent, and what is stamped. `RunOnce` computes exactly this. */
module Delivery {
  import opened Options
  import opened OrderedGroups
  import opened Sequences
  import opened Notifications
  import opened Schedule
  import opened DigestBalance

  // ------------------------------------------------------------------ state and inputs

  datatype Stamps = Stamps(emailed: Option<int>, instant: Option<int>, pushed: Option<int>)

  datatype User = User(
    deleted: bool, offset: int, emailOn: set<Feature>, pushOn: set<Feature>, digestEmails: bool,
    lastDigest: Option<int>, lastInterestPush: Option<int>)

  /** The notification table in query order (recipient, creation time), the stamps of every
      row, and the users. */
  datatype Store = Store(notes: seq<Note>, stamps: map<Id, Stamps>, users: map<UserId, User>) {
    ghost predicate Valid() {
      && (forall n :: n in notes ==> n.id in stamps)
      && (forall i, j :: 0 <= i < j < |notes| ==> notes[i].id != notes[j].id)
    }
  }

  /** Admin settings, fixed during a run. `interestPush` is None for "instant". */
  datatype Settings = Settings(
    enabled: bool, instant: set<Feature>, digest: set<Feature>, push: set<Feature>,
    schedule: Schedule, interestPush: Option<Schedule>,
    combined: bool, perKindCap: int, maxItems: int, maxInterest: nat)

  datatype Call = Call(
    force: bool, userIds: Option<set<UserId>>, kinds: set<Kind>, cap: Option<int>,
    resend: bool, immediateOnly: bool)

  datatype PushOutcome = Transient | Sent(count: nat)

  datatype Target = Target(user: UserId, feature: Feature)

  /** Everything a run observes from outside: the time, the rows other transactions hold, the
      visibility and privacy filters, rows past or stale, saved alerts, and how each send ends. */
  datatype World = World(
    now: int, locked: set<Id>, visible: set<EventId>, unsafe: set<Id>, past: set<Id>,
    alerts: map<UserId, seq<string>>, contextParts: map<Id, set<string>>,
    digestFails: set<UserId>, digestMailFails: set<Target>, instantMailFails: set<Target>,
    pushes: map<Target, PushOutcome>)

  // ------------------------------------------------------------------ selection

  function FeaturesInstant(g: Settings): set<Feature> { set f | f in g.instant && !IsDigestOnly(f) && f != Unlisted }

  predicate KindQueried(c: Call, g: Settings, kind: Kind) {
    && (if c.kinds == {} then !kind.OtherKind? else kind in c.kinds)
    && (IsJobDelivered(FeatureOf(kind)) ==> FeatureOf(kind) in g.digest)
  }

  predicate PendingClause(c: Call, g: Settings, st: Stamps) {
    || c.resend
    || st.pushed.None?
    || (!c.immediateOnly && st.emailed.None?)
    || (FeaturesInstant(g) != {} && st.instant.None?)
  }

  /** The rows the query claims with FOR UPDATE SKIP LOCKED. */
  predicate Claimed(c: Call, g: Settings, w: World, s: Store, n: Note) {
    && g.enabled
    && KindQueried(c, g, n.kind)
    && n.createdAt >= w.now - MAX_AGE
    && n.id in s.stamps && PendingClause(c, g, s.stamps[n.id])
    && (c.userIds.Some? ==> n.recipient in c.userIds.value)
    && n.id !in w.locked
  }

  predicate IsPending(c: Call, g: Settings, w: World, s: Store, n: Note) {
    && Claimed(c, g, w, s, n)
    && (n.event.Some? ==> n.event.value in w.visible)
    && n.id !in w.unsafe
  }

  function PendingIn(c: Call, g: Settings, w: World, s: Store): Note -> bool { n => IsPending(c, g, w, s, n) }

  function Pending(c: Call, g: Settings, w: World, s: Store): seq<Note> {
    Filter(PendingIn(c, g, w, s), s.notes)
  }

  // ------------------------------------------------------------------ routing

  predicate Active(s: Store, u: UserId) { u in s.users && !s.users[u].deleted }

  predicate InstantRouted(instant: set<Feature>, f: Feature) { f != Unlisted && !IsDigestOnly(f) && f in instant }

  /** A feature whose instant email keeps it out of the digest, whoever sends that email. */
  predicate InstantOwned(instant: set<Feature>, f: Feature) {
    f != Unlisted && (!IsDigestOnly(f) || IsPrompt(f) || IsJobDelivered(f)) && f in instant
  }

  predicate RoutesInstant(c: Call, g: Settings, s: Store, n: Note) {
    && Active(s, n.recipient) && n.id in s.stamps
    && InstantRouted(g.instant, FeatureOf(n.kind))
    && (c.resend || s.stamps[n.id].instant.None?)
  }

  predicate DigestDue(c: Call, g: Settings, w: World, u: User) {
    c.force || SlotStatus(u.offset, u.lastDigest, w.now, g.schedule) == InSlot
  }

  predicate DigestCandidate(c: Call, g: Settings, s: Store, n: Note) {
    && Active(s, n.recipient) && n.id in s.stamps
    && !c.immediateOnly
    && (c.resend || s.stamps[n.id].emailed.None?)
    && FeatureOf(n.kind) != Unlisted && FeatureOf(n.kind) in g.digest
    && !InstantOwned(g.instant, FeatureOf(n.kind))
  }

  predicate RoutesDigest(c: Call, g: Settings, w: World, s: Store, n: Note) {
    DigestCandidate(c, g, s, n) && DigestDue(c, g, w, s.users[n.recipient])
  }

  predicate PushCandidate(c: Call, g: Settings, s: Store, n: Note) {
    && Active(s, n.recipient) && n.id in s.stamps
    && (c.resend || s.stamps[n.id].pushed.None?)
    && !IsDigestOnly(FeatureOf(n.kind))
    && (FeatureOf(n.kind) == Unlisted || FeatureOf(n.kind) in g.push)
  }

  /** Interest pushes on a schedule, unless forced or resent. */
  predicate PushScheduled(c: Call, g: Settings, n: Note) {
    IsInterestPush(FeatureOf(n.kind)) && g.interestPush.Some? && !c.force && !c.resend
  }

  predicate RoutesPush(c: Call, g: Settings, w: World, s: Store, n: Note) {
    && PushCandidate(c, g, s, n)
    && (PushScheduled(c, g, n) ==>
        var u := s.users[n.recipient];
        InterestPushDue(u.offset, u.lastInterestPush, w.now, g.interestPush.value))
  }

  function InstantIn(c: Call, g: Settings, s: Store): Note -> bool { n => RoutesInstant(c, g, s, n) }

  function DigestIn(c: Call, g: Settings, w: World, s: Store): Note -> bool { n => RoutesDigest(c, g, w, s, n) }

  function PushIn(c: Call, g: Settings, w: World, s: Store): Note -> bool { n => RoutesPush(c, g, w, s, n) }

  // ------------------------------------------------------------------ logical groups and the cap

  datatype LogicalKey = Milestones(kind: Kind, actor: UserId, groupKey: string) | Single(id: Id)

  function LogicalKeyOf(n: Note): LogicalKey {
    if IsMilestone(n.kind) && n.groupKey.Some? && n.groupKey.value != "" then
      Milestones(n.kind, n.actor, n.groupKey.value)
    else Single(n.id)
  }

  function LogicalGroups(rows: seq<Note>): seq<seq<Note>> { Items(GroupBy(LogicalKeyOf, rows)) }

  // Python's xs[-n:]
  function Tail<T>(xs: seq<T>, n: int): seq<T> {
    if n > 0 then (if n >= |xs| then xs else xs[|xs| - n..])
    else if -n >= |xs| then []
    else xs[-n..]
  }

  function CapOne(cap: Option<int>, rows: seq<Note>): seq<Note> {
    var groups := LogicalGroups(rows);
    if cap.Some? && |groups| > cap.value then Flatten(Tail(groups, cap.value)) else rows
  }

  function RecipientOf(n: Note): UserId { n.recipient }

  function CapEach(cap: Option<int>, byRecipient: seq<Bucket<UserId, Note>>): seq<seq<Note>> {
    seq(|byRecipient|, i requires 0 <= i < |byRecipient| => CapOne(cap, byRecipient[i].items))
  }

  function Included(cap: Option<int>, routed: seq<Note>): seq<Note> {
    Flatten(CapEach(cap, GroupBy(RecipientOf, routed)))
  }

  // ------------------------------------------------------------------ groups to send

  function TargetOf(n: Note): Target { Target(n.recipient, FeatureOf(n.kind)) }

  predicate EmailAllowed(s: Store, n: Note) {
    FeatureOf(n.kind) != Unlisted && n.recipient in s.users && FeatureOf(n.kind) in s.users[n.recipient].emailOn
  }

  predicate PushAllowed(s: Store, n: Note) {
    FeatureOf(n.kind) != Unlisted && n.recipient in s.users && FeatureOf(n.kind) in s.users[n.recipient].pushOn
  }

  function EmailAllowedIn(s: Store): Note -> bool { n => EmailAllowed(s, n) }

  function PushAllowedIn(s: Store): Note -> bool { n => PushAllowed(s, n) }

  function EmailGroups(s: Store, included: seq<Note>): seq<Bucket<Target, Note>> {
    GroupBy(TargetOf, Filter(EmailAllowedIn(s), included))
  }

  function PushGroups(s: Store, included: seq<Note>): seq<Bucket<Target, Note>> {
    GroupBy(TargetOf, Filter(PushAllowedIn(s), included))
  }

  /** The recipients whose slot a run spends. */
  function Seen(included: seq<Note>): set<UserId> {
    set n | n in included && FeatureOf(n.kind) != Unlisted :: n.recipient
  }

  function IdsOf(rows: seq<Note>): set<Id> { set n | n in rows :: n.id }

  function FreshIn(w: World): Note -> bool { (n: Note) => n.id !in w.past }

  function Visible(w: World, rows: seq<Note>): seq<Note> { Filter(FreshIn(w), rows) }

  // ------------------------------------------------------------------ separate emails, pushes

  /** `delivered` rows are recorded as emailed, `rendered` ones are in the email's text. */
  datatype MailOutcome = MailOutcome(sent: nat, delivered: set<Id>, rendered: set<Id>)

  // Groups with nothing left to say after the past-event guard are skipped.
  function Sayable(w: World): Bucket<Target, Note> -> bool { (b: Bucket<Target, Note>) => Visible(w, b.items) != [] }

  function FreshIds(w: World, b: Bucket<Target, Note>): set<Id> { IdsOf(Visible(w, b.items)) }

  /** An email shows only the first interest matches; the others are a "discover more" count. */
  function Cut(max: nat, f: Feature, rows: seq<Note>): seq<Note> {
    if f == InterestMatches && |rows| > max then rows[..max] else rows
  }

  /** One email per (recipient, feature) group that still has something to say. */
  function SendMail(g: Settings, w: World, fails: set<Target>, groups: seq<Bucket<Target, Note>>): MailOutcome {
    MailOutcome(|Filter(Sayable(w), groups)|, Union(MailedIds(w, fails), groups),
                Union(RenderedIn(g, w, fails), groups))
  }

  function MailedIds(w: World, fails: set<Target>): Bucket<Target, Note> -> set<Id> {
    (b: Bucket<Target, Note>) => if b.key in fails then {} else FreshIds(w, b)
  }

  function RenderedIn(g: Settings, w: World, fails: set<Target>): Bucket<Target, Note> -> set<Id> {
    (b: Bucket<Target, Note>) =>
      if b.key in fails then {} else IdsOf(Cut(g.maxInterest, b.key.feature, Visible(w, b.items)))
  }

  datatype PushResult = PushResult(pushed: int, delivered: set<Id>, retry: set<Id>)

  function OutcomeOf(w: World, t: Target): PushOutcome { if t in w.pushes then w.pushes[t] else Sent(0) }

  predicate Pushed(w: World, t: Target) { OutcomeOf(w, t).Sent? && OutcomeOf(w, t).count > 0 }

  function PushCount(w: World): Bucket<Target, Note> -> int {
    (b: Bucket<Target, Note>) =>
      if Visible(w, b.items) != [] && OutcomeOf(w, b.key).Sent? then OutcomeOf(w, b.key).count else 0
  }

  function SendPushes(w: World, groups: seq<Bucket<Target, Note>>): PushResult {
    PushResult(Sum(PushCount(w), groups), Union(PushedIds(w), groups), Union(RetriedIds(w), groups))
  }

  function PushedIds(w: World): Bucket<Target, Note> -> set<Id> {
    (b: Bucket<Target, Note>) => if Pushed(w, b.key) then FreshIds(w, b) else {}
  }

  function RetriedIds(w: World): Bucket<Target, Note> -> set<Id> {
    (b: Bucket<Target, Note>) => if OutcomeOf(w, b.key).Transient? then FreshIds(w, b) else {}
  }

  // ------------------------------------------------------------------ the combined digest

  function NotSuperseded(rows: seq<Note>): Note -> bool {
    (n: Note) => !(n.kind.NewFollower? && exists m :: m in rows && m.kind.NewFriend? && m.actor == n.actor)
  }

  function ActorOf(n: Note): UserId { n.actor }

  function DigestGroups(f: Feature, rows: seq<Note>): seq<seq<Note>> {
    var shown := if f == SocialActivity then Filter(NotSuperseded(rows), rows) else rows;
    if f == FriendMilestones || f == MilestoneUnlocked then Items(GroupBy(ActorOf, shown))
    else LogicalGroups(shown)
  }

  const SAVED_SEARCH := "Saved search"

  function MatchingLabels(labels: seq<string>, parts: set<string>): seq<string> { Filter(l => l in parts, labels) }

  /** The saved alerts an interest row is listed under; never none. */
  function AlertNames(w: World, n: Note): (r: seq<string>)
    ensures r != []
  {
    var context := if n.context.Some? && n.context.value != "" then n.context.value else SAVED_SEARCH;
    var known := if n.recipient in w.alerts then w.alerts[n.recipient] else [];
    var parts := if n.id in w.contextParts then w.contextParts[n.id] else {};
    if context in known then [context]
    else if MatchingLabels(known, parts) != [] then MatchingLabels(known, parts)
    else [context]
  }

  function NoteIds(rows: seq<Note>): (r: seq<Id>)
    ensures |r| == |rows|
  {
    seq(|rows|, i requires 0 <= i < |rows| => rows[i].id)
  }

  function Latest(rows: seq<Note>): int
    requires rows != []
  {
    var n := |rows| - 1;
    if n == 0 then rows[0].createdAt
    else if Latest(rows[..n]) < rows[n].createdAt then rows[n].createdAt
    else Latest(rows[..n])
  }

  function EntryKey(f: Feature, n: Note, alert: string): Option<GroupKey> {
    if IsActorGrouped(f) then Some(ByActor(n.actor))
    else if f == InterestMatches then Some(ByAlert(if alert == "" then SAVED_SEARCH else alert))
    else None
  }

  function EntryFor(f: Feature, group: seq<Note>, alert: string): (e: Entry)
    requires group != []
    ensures e.ids != []
    ensures forall id :: id in e.ids <==> id in IdsOf(group)
  {
    var n := group[|group| - 1];
    var ids := NoteIds(group);
    assert forall id :: id in ids ==> exists i :: 0 <= i < |group| && ids[i] == id == group[i].id;
    assert forall m :: m in group ==> exists i :: 0 <= i < |group| && group[i] == m && ids[i] == m.id;
    Entry(n.kind, ids, EntryKey(f, n, alert), Latest(group))
  }

  /** The entries of one logical group: one, or one per alert it is listed under. */
  function GroupEntries(w: World, f: Feature, group: seq<Note>): (r: seq<Entry>)
    ensures group != [] ==> r != []
    ensures forall e :: e in r ==> e.ids != [] && forall id :: id in e.ids <==> id in IdsOf(group)
  {
    if group == [] then [] else  // groups are never empty
      var names := if f == InterestMatches then AlertNames(w, group[|group| - 1]) else [""];
      seq(|names|, i requires 0 <= i < |names| => EntryFor(f, group, names[i]))
  }

  function EntryLists(w: World, f: Feature, groups: seq<seq<Note>>): seq<seq<Entry>> {
    seq(|groups|, i requires 0 <= i < |groups| => GroupEntries(w, f, groups[i]))
  }

  function FeatureEntries(w: World, b: Bucket<Target, Note>): seq<Entry> {
    var f := b.key.feature;
    Flatten(EntryLists(w, f, DigestGroups(f, Visible(w, b.items))))
  }

  // promo_codes and promo_code_matches share one section.
  function SectionNameOf(b: Bucket<Target, Note>): SectionName {
    var f := b.key.feature;
    if f == PromoCodes || f == PromoCodeMatches then Deals else Of(f)
  }

  function FeatureLists(w: World, bs: seq<Bucket<Target, Note>>): seq<seq<Entry>> {
    seq(|bs|, i requires 0 <= i < |bs| => FeatureEntries(w, bs[i]))
  }

  function SectionFor(w: World, g: Bucket<SectionName, Bucket<Target, Note>>): Section {
    Section(g.key, Flatten(FeatureLists(w, g.items)))
  }

  /** The sections of one recipient's digest, one per section name, from the features that still
      have something to say. */
  function SectionsOf(w: World, features: seq<Bucket<Target, Note>>): (r: seq<Section>) {
    var groups := GroupBy(SectionNameOf, Filter(Sayable(w), features));
    seq(|groups|, i requires 0 <= i < |groups| => SectionFor(w, groups[i]))
  }

  function VisibleIds(w: World, features: seq<Bucket<Target, Note>>): set<Id> {
    Union(FreshIdsIn(w), features)
  }

  function FreshIdsIn(w: World): Bucket<Target, Note> -> set<Id> { (b: Bucket<Target, Note>) => FreshIds(w, b) }

  /** `sent` lists the recipients an email was attempted for. */
  datatype DigestOutcome = DigestOutcome(sent: seq<UserId>, delivered: set<Id>, deferred: set<Id>)

  type Digest = Bucket<UserId, Bucket<Target, Note>>

  function UserOf(b: Bucket<Target, Note>): UserId { b.key.user }

  // The master opt-out `digest_email_enabled`.
  predicate WantsDigest(s: Store, u: UserId) { u in s.users ==> s.users[u].digestEmails }

  predicate DigestAttempted(w: World, s: Store, d: Digest) {
    WantsDigest(s, d.key) && SectionsOf(w, d.items) != []
  }

  predicate DigestSent(w: World, s: Store, d: Digest) { DigestAttempted(w, s, d) && d.key !in w.digestFails }

  function Attempted(w: World, s: Store): Digest -> bool { (d: Digest) => DigestAttempted(w, s, d) }

  function Rendered(g: Settings, w: World, d: Digest): set<Id> {
    RenderedIds(Balance(SectionsOf(w, d.items), g.perKindCap, g.maxItems))
  }

  function DigestDelivers(g: Settings, w: World, d: Digest): set<Id> { VisibleIds(w, d.items) * Rendered(g, w, d) }

  // Entries no card shows are deferred to the next digest.
  function DigestDefers(g: Settings, w: World, d: Digest): set<Id> {
    EntryIds(SectionsOf(w, d.items)) - Rendered(g, w, d)
  }

  /** One combined email per recipient. */
  function CombinedDigests(g: Settings, w: World, s: Store, ds: seq<Digest>): DigestOutcome {
    DigestOutcome(Keys(Filter(Attempted(w, s), ds)), Union(DeliversIn(g, w, s), ds), Union(DefersIn(g, w, s), ds))
  }

  function DeliversIn(g: Settings, w: World, s: Store): Digest -> set<Id> {
    (d: Digest) => if DigestSent(w, s, d) then DigestDelivers(g, w, d) else {}
  }

  function DefersIn(g: Settings, w: World, s: Store): Digest -> set<Id> {
    (d: Digest) => if DigestSent(w, s, d) then DigestDefers(g, w, d) else {}
  }

  // In the separate form a recipient gets one digest email per feature.
  function SeparateDigests(g: Settings, w: World, groups: seq<Bucket<Target, Note>>): DigestOutcome {
    DigestOutcome(Users(Filter(Sayable(w), groups)), SendMail(g, w, w.digestMailFails, groups).delivered, {})
  }

  function Users(groups: seq<Bucket<Target, Note>>): seq<UserId> {
    seq(|groups|, i requires 0 <= i < |groups| => groups[i].key.user)
  }

  function Digests(g: Settings, w: World, s: Store, included: seq<Note>): DigestOutcome {
    var groups := EmailGroups(s, included);
    if g.combined then CombinedDigests(g, w, s, GroupBy(UserOf, groups)) else SeparateDigests(g, w, groups)
  }

  // ------------------------------------------------------------------ the run

  /** What one transaction sends and is going to stamp. */
  datatype Plan = Plan(
    claimed: set<Id>, email: seq<Note>, instant: seq<Note>, push: seq<Note>,
    digests: DigestOutcome, mail: MailOutcome, pushes: PushResult)

  function PlanRun(c: Call, g: Settings, w: World, s: Store): Plan {
    var pending := Pending(c, g, w, s);
    var email := Included(c.cap, Filter(DigestIn(c, g, w, s), pending));
    var instant := Included(c.cap, Filter(InstantIn(c, g, s), pending));
    var push := Included(c.cap, Filter(PushIn(c, g, w, s), pending));
    Plan(set n | n in s.notes && Claimed(c, g, w, s, n) :: n.id,
         email, instant, push,
         Digests(g, w, s, email),
         SendMail(g, w, w.instantMailFails, EmailGroups(s, instant)),
         SendPushes(w, PushGroups(s, push)))
  }

  function EmailStamped(p: Plan): set<Id> { IdsOf(p.email) - p.digests.deferred }

  function InstantStamped(p: Plan): set<Id> { IdsOf(p.instant) }

  function PushStamped(p: Plan): set<Id> { IdsOf(p.push) - p.pushes.retry }

  predicate CountsAsInterestPush(kind: Kind) { kind.InterestEvent? || kind.PromoCodeMatch? }

  function InterestPushed(p: Plan): set<UserId> {
    set n | n in p.push && n.id !in p.pushes.retry && CountsAsInterestPush(n.kind) :: n.recipient
  }

  datatype Channel = DigestMail | InstantMail | PushMessage

  /** A successful delivery of one notification. */
  datatype Receipt = Receipt(id: Id, channel: Channel)

  /** A delivery transaction: the rows it locks, what it delivers before it commits, and the rows
      and users it stamps when it does. */
  datatype Txn = Txn(
    now: int, claimed: set<Id>, sends: set<Receipt>,
    email: set<Id>, instant: set<Id>, push: set<Id>, slots: set<UserId>, interest: set<UserId>)

  function Deliveries(digest: set<Id>, instant: set<Id>, push: set<Id>): (r: set<Receipt>)
    ensures forall d :: d in r <==>
      match d.channel
      case DigestMail => d.id in digest
      case InstantMail => d.id in instant
      case PushMessage => d.id in push
  {
    (set id | id in digest :: Receipt(id, DigestMail))
    + (set id | id in instant :: Receipt(id, InstantMail))
    + (set id | id in push :: Receipt(id, PushMessage))
  }

  function TxnOf(now: int, p: Plan): Txn {
    Txn(now, p.claimed, Deliveries(p.digests.delivered, p.mail.delivered, p.pushes.delivered),
        EmailStamped(p), InstantStamped(p), PushStamped(p), Seen(p.email), InterestPushed(p))
  }

  function Stamp(now: int, hit: bool, before: Option<int>): Option<int> { if hit then Some(now) else before }

  function StampRow(t: Txn, id: Id, st: Stamps): Stamps {
    Stamps(Stamp(t.now, id in t.email, st.emailed),
           Stamp(t.now, id in t.instant, st.instant),
           Stamp(t.now, id in t.push, st.pushed))
  }

  function StampUser(t: Txn, id: UserId, u: User): User {
    u.(lastDigest := Stamp(t.now, id in t.slots, u.lastDigest),
       lastInterestPush := Stamp(t.now, id in t.interest, u.lastInterestPush))
  }

  function Commit(t: Txn, s: Store): Store {
    s.(stamps := map id | id in s.stamps :: StampRow(t, id, s.stamps[id]),
       users := map u | u in s.users :: StampUser(t, u, s.users[u]))
  }

  function RunTxn(c: Call, g: Settings, w: World, s: Store): Txn { TxnOf(w.now, PlanRun(c, g, w, s)) }

  function Run(c: Call, g: Settings, w: World, s: Store): Store { Commit(RunTxn(c, g, w, s), s) }
}
