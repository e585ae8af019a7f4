/** The second writer of the delivery stamps: instant email and push of event-message rows for
    one recipient, row by row. */
module EventMessages {
  import opened Notifications
  import opened Schedule
  import opened Delivery

  /** What a deliver job observes: the time, the rows other transactions hold, the user-facing
      events, whether the recipient has an address, web push, and how each send ends. */
  datatype MessageWorld = MessageWorld(
    now: int, locked: set<Id>, facing: set<EventId>, hasEmail: bool, webPush: bool,
    mailFails: set<Id>, pushes: map<Id, PushOutcome>)

  predicate IsMessage(kind: Kind) { kind.EventMessage? || kind.EventMessageReply? }

  predicate MessageClaimed(g: Settings, w: MessageWorld, s: Store, u: UserId, n: Note) {
    && EventMessages in g.instant && Active(s, u)
    && n.recipient == u && IsMessage(n.kind)
    && n.createdAt >= w.now - MAX_AGE
    && n.id in s.stamps && (s.stamps[n.id].instant.None? || s.stamps[n.id].pushed.None?)
    && n.id !in w.locked
  }

  predicate IsFacing(w: MessageWorld, n: Note) { n.event.Some? && n.event.value in w.facing }

  /** The row's email goes out: address and flag present, not sent before, and the send succeeds. */
  predicate MailsMessage(g: Settings, w: MessageWorld, s: Store, u: UserId, n: Note) {
    && MessageClaimed(g, w, s, u, n) && IsFacing(w, n)
    && w.hasEmail && EventMessages in s.users[u].emailOn
    && s.stamps[n.id].instant.None?
    && n.id !in w.mailFails
  }

  predicate TriesPush(g: Settings, w: MessageWorld, s: Store, u: UserId, n: Note) {
    && MessageClaimed(g, w, s, u, n) && IsFacing(w, n)
    && w.webPush && EventMessages in g.push && EventMessages in s.users[u].pushOn
    && s.stamps[n.id].pushed.None?
  }

  function PushOf(w: MessageWorld, n: Note): PushOutcome { if n.id in w.pushes then w.pushes[n.id] else Sent(0) }

  predicate PushesMessage(g: Settings, w: MessageWorld, s: Store, u: UserId, n: Note) {
    TriesPush(g, w, s, u, n) && PushOf(w, n).Sent? && PushOf(w, n).count > 0
  }

  predicate RetriesPush(g: Settings, w: MessageWorld, s: Store, u: UserId, n: Note) {
    TriesPush(g, w, s, u, n) && PushOf(w, n).Transient?
  }

  function MailedMessages(g: Settings, w: MessageWorld, s: Store, u: UserId): set<Id> {
    set n | n in s.notes && MailsMessage(g, w, s, u, n) :: n.id
  }

  function PushedMessages(g: Settings, w: MessageWorld, s: Store, u: UserId): set<Id> {
    set n | n in s.notes && PushesMessage(g, w, s, u, n) :: n.id
  }

  function MessageTxn(g: Settings, w: MessageWorld, s: Store, u: UserId): Txn {
    var mailed, pushed := MailedMessages(g, w, s, u), PushedMessages(g, w, s, u);
    Txn(w.now, set n | n in s.notes && MessageClaimed(g, w, s, u, n) :: n.id,
        Deliveries({}, mailed, pushed), {}, mailed, pushed, {}, {})
  }
}
