/** Event-message delivery for one recipient as the code performs it, proved to commit
    `EventMessages.MessageTxn`. */
module MessageDelivery {
  import opened Options
  import opened OrderedGroups
  import opened Notifications
  import opened Schedule
  import opened Delivery
  import opened EventMessages
  import opened ActivityEmail

  datatype MessageStats = MessageStats(emails: nat, pushes: nat, pushRetry: nat)

  function ClaimedIn(g: Settings, w: MessageWorld, s: Store, u: UserId): Note -> bool {
    n => MessageClaimed(g, w, s, u, n)
  }

  function MailsIn(g: Settings, w: MessageWorld, s: Store, u: UserId): Note -> bool { n => MailsMessage(g, w, s, u, n) }

  function PushesIn(g: Settings, w: MessageWorld, s: Store, u: UserId): Note -> bool {
    n => PushesMessage(g, w, s, u, n)
  }

  function RetriesIn(g: Settings, w: MessageWorld, s: Store, u: UserId): Note -> bool {
    n => RetriesPush(g, w, s, u, n)
  }

  function StatsFor(g: Settings, w: MessageWorld, s: Store, u: UserId, notifs: seq<Note>): MessageStats {
    MessageStats(|Filter(MailsIn(g, w, s, u), notifs)|, |Filter(PushesIn(g, w, s, u), notifs)|,
                 |Filter(RetriesIn(g, w, s, u), notifs)|)
  }

  lemma StatsPush(g: Settings, w: MessageWorld, s: Store, u: UserId, notifs: seq<Note>, n: Note)
    ensures var before, after := StatsFor(g, w, s, u, notifs), StatsFor(g, w, s, u, notifs + [n]);
      && after.emails == before.emails + (if MailsMessage(g, w, s, u, n) then 1 else 0)
      && after.pushes == before.pushes + (if PushesMessage(g, w, s, u, n) then 1 else 0)
      && after.pushRetry == before.pushRetry + (if RetriesPush(g, w, s, u, n) then 1 else 0)
  {
    FilterPush(MailsIn(g, w, s, u), notifs, n);
    FilterPush(PushesIn(g, w, s, u), notifs, n);
    FilterPush(RetriesIn(g, w, s, u), notifs, n);
  }

  lemma NoStats(g: Settings, w: MessageWorld, s: Store, u: UserId, notifs: seq<Note>)
    ensures StatsFor(g, w, s, u, notifs[..0]) == MessageStats(0, 0, 0)
  {
  }

  lemma NoIds(notifs: seq<Note>)
    ensures IdsOf(notifs[..0]) == {}
  {
  }

  lemma IdsPush(notifs: seq<Note>, n: Note)
    ensures IdsOf(notifs + [n]) == IdsOf(notifs) + {n.id}
  {
  }

  method ClaimMessages(db: Session, g: Settings, w: MessageWorld, u: UserId) returns (notifs: seq<Note>)
    requires db.Valid()
    ensures notifs == Filter(ClaimedIn(g, w, db.Contents(), u), db.notes)
  {
    hide Filter;
    ghost var s := db.Contents();
    FilterNil(ClaimedIn(g, w, s, u), db.notes);
    notifs := [];
    for i := 0 to |db.notes|
      invariant notifs == Filter(ClaimedIn(g, w, s, u), db.notes[..i])
    {
      var n := db.notes[i];
      assert db.notes[..i + 1] == db.notes[..i] + [n];
      FilterPush(ClaimedIn(g, w, s, u), db.notes[..i], n);
      var row := db.rows[n.id];
      if EventMessages in g.instant && u in db.users && !db.users[u].profile.deleted
         && n.recipient == u && IsMessage(n.kind) && n.createdAt >= w.now - MAX_AGE
         && (row.instantEmailedAt.None? || row.pushedAt.None?) && n.id !in w.locked
      {
        notifs := notifs + [n];
      }
    }
    assert db.notes[..|db.notes|] == db.notes;
  }

  /** Whether a row is mailed and pushed is decided by the row alone. */
  lemma TxnRow(g: Settings, w: MessageWorld, s: Store, u: UserId, n: Note)
    requires s.Valid() && n in s.notes
    ensures var t := MessageTxn(g, w, s, u);
      && (n.id in t.instant <==> MailsMessage(g, w, s, u, n))
      && (n.id in t.push <==> PushesMessage(g, w, s, u, n))
      && t.email == {} && t.slots == {} && t.interest == {} && t.now == w.now
  {
    var t := MessageTxn(g, w, s, u);
    if n.id in t.instant {
      var m: Note :| m in s.notes && MailsMessage(g, w, s, u, m) && m.id == n.id;
      SameNote(s, m, n);
    }
    if n.id in t.push {
      var m: Note :| m in s.notes && PushesMessage(g, w, s, u, m) && m.id == n.id;
      SameNote(s, m, n);
    }
  }

  lemma SameNote(s: Store, m: Note, n: Note)
    requires s.Valid() && m in s.notes && n in s.notes && m.id == n.id
    ensures m == n
  {
    var i :| 0 <= i < |s.notes| && s.notes[i] == m;
    var j :| 0 <= j < |s.notes| && s.notes[j] == n;
    assert !(i < j) && !(j < i);
  }

  lemma UnclaimedRow(g: Settings, w: MessageWorld, s: Store, u: UserId, id: Id)
    requires s.Valid() && id in s.stamps && id !in IdsOf(Filter(ClaimedIn(g, w, s, u), s.notes))
    ensures StampRow(MessageTxn(g, w, s, u), id, s.stamps[id]) == s.stamps[id]
  {
    forall m | m in s.notes && MessageClaimed(g, w, s, u, m) ensures m.id != id {
      assert m in Filter(ClaimedIn(g, w, s, u), s.notes);
    }
  }

  method DeliverRow(db: Session, g: Settings, w: MessageWorld, n: Note, u: UserId, ghost s: Store)
    returns (mailed: bool, pushed: bool, retried: bool)
    requires db.Valid() && n in db.notes && s.stamps.Keys == db.rows.Keys && s.users.Keys == db.users.Keys
    requires u in db.users && s.users[u] == db.users[u].Value()
    requires s.Valid() && n in s.notes && db.rows[n.id].Stamped() == s.stamps[n.id] && MessageClaimed(g, w, s, u, n)
    modifies db.rows[n.id]
    ensures mailed == MailsMessage(g, w, s, u, n)
    ensures pushed == PushesMessage(g, w, s, u, n)
    ensures retried == RetriesPush(g, w, s, u, n)
    ensures db.rows[n.id].Stamped() == StampRow(MessageTxn(g, w, s, u), n.id, s.stamps[n.id])
  {
    TxnRow(g, w, s, u, n);
    hide MessageTxn;
    mailed, pushed, retried := false, false, false;
    var row, user := db.rows[n.id], db.users[u];
    if n.event.None? || n.event.value !in w.facing { return; }
    if w.hasEmail && EventMessages in user.profile.emailOn && row.instantEmailedAt.None? && n.id !in w.mailFails {
      row.instantEmailedAt := Some(w.now);
      mailed := true;
    }
    if w.webPush && EventMessages in g.push && EventMessages in user.profile.pushOn && row.pushedAt.None? {
      match PushOf(w, n) {
        case Transient => retried := true; return;
        case Sent(count) =>
          if count > 0 {
            row.pushedAt := Some(w.now);
            pushed := true;
          }
      }
    }
  }

  method DeliverRows(db: Session, g: Settings, w: MessageWorld, u: UserId, notifs: seq<Note>, ghost s: Store)
    returns (stats: MessageStats)
    requires db.Valid() && u in db.users && s.Valid() && s.notes == db.notes
    requires s.stamps.Keys == db.rows.Keys && s.users.Keys == db.users.Keys && s.users[u] == db.users[u].Value()
    requires forall n :: n in notifs ==> n in db.notes && MessageClaimed(g, w, s, u, n)
    requires forall i :: 0 <= i < |notifs| ==> notifs[i].id !in IdsOf(notifs[..i])
    requires forall id :: id in db.rows ==> db.rows[id].Stamped() == s.stamps[id]
    modifies db.rows.Values
    ensures stats == StatsFor(g, w, s, u, notifs)
    ensures forall id :: id in db.rows ==>
      db.rows[id].Stamped() ==
        if id in IdsOf(notifs) then StampRow(MessageTxn(g, w, s, u), id, s.stamps[id]) else s.stamps[id]
  {
    hide StatsFor, MailsMessage, PushesMessage, RetriesPush, MessageTxn, MessageClaimed, StampRow, IdsOf;
    stats := MessageStats(0, 0, 0);
    NoStats(g, w, s, u, notifs);
    assert IdsOf(notifs[..0]) == {} by { NoIds(notifs); }
    for i := 0 to |notifs|
      invariant stats == StatsFor(g, w, s, u, notifs[..i])
      invariant forall id :: id in db.rows ==>
        db.rows[id].Stamped() ==
          if id in IdsOf(notifs[..i]) then StampRow(MessageTxn(g, w, s, u), id, s.stamps[id]) else s.stamps[id]
    {
      var n := notifs[i];
      assert notifs[..i + 1] == notifs[..i] + [n];
      StatsPush(g, w, s, u, notifs[..i], n);
      IdsPush(notifs[..i], n);
      assert n.id !in IdsOf(notifs[..i]);
      var mailed, pushed, retried := DeliverRow(db, g, w, n, u, s);
      stats := MessageStats(stats.emails + if mailed then 1 else 0, stats.pushes + if pushed then 1 else 0,
                            stats.pushRetry + if retried then 1 else 0);
    }
    assert notifs[..|notifs|] == notifs;
  }

  /** `deliver_for_recipient`. */
  method DeliverForRecipient(db: Session, g: Settings, w: MessageWorld, u: UserId) returns (stats: MessageStats)
    requires db.Valid()
    modifies db.rows.Values
    ensures db.Contents() == Commit(MessageTxn(g, w, old(db.Contents()), u), old(db.Contents()))
    ensures var s := old(db.Contents());
      stats == StatsFor(g, w, s, u, Filter(ClaimedIn(g, w, s, u), db.notes))
  {
    hide Filter, MessageTxn, MessageClaimed, StampRow, StampUser, StatsFor, IdsOf, Commit;
    ghost var s := db.Contents();
    var notifs := ClaimMessages(db, g, w, u);
    ClaimedDistinct(db, g, w, u, s, notifs);
    if u in db.users {
      stats := DeliverRows(db, g, w, u, notifs, s);
    } else {
      NobodyClaims(g, w, s, u, notifs);
      stats := MessageStats(0, 0, 0);
    }
    ghost var t := MessageTxn(g, w, s, u);
    forall id | id in db.rows ensures db.rows[id].Stamped() == StampRow(t, id, s.stamps[id]) {
      if id !in IdsOf(notifs) { UnclaimedRow(g, w, s, u, id); }
    }
    UsersUntouched(g, w, s, u);
    db.Committed(t, s);
  }

  lemma NobodyClaims(g: Settings, w: MessageWorld, s: Store, u: UserId, notifs: seq<Note>)
    requires u !in s.users && forall n :: n in notifs ==> MessageClaimed(g, w, s, u, n)
    ensures IdsOf(notifs) == {} && StatsFor(g, w, s, u, notifs) == MessageStats(0, 0, 0)
  {
    assert |notifs| > 0 ==> MessageClaimed(g, w, s, u, notifs[0]);
  }

  lemma UsersUntouched(g: Settings, w: MessageWorld, s: Store, u: UserId)
    ensures forall v :: v in s.users ==> StampUser(MessageTxn(g, w, s, u), v, s.users[v]) == s.users[v]
  {
  }

  lemma {:induction false} FilterDistinct(p: Note -> bool, rows: seq<Note>)
    requires forall i, j :: 0 <= i < j < |rows| ==> rows[i].id != rows[j].id
    ensures var kept := Filter(p, rows); forall i, j :: 0 <= i < j < |kept| ==> kept[i].id != kept[j].id
  {
    if rows != [] {
      hide Filter;
      var init, last := rows[..|rows| - 1], rows[|rows| - 1];
      assert rows == init + [last];
      FilterDistinct(p, init);
      FilterPush(p, init, last);
      var kept := Filter(p, init);
      forall i | 0 <= i < |kept| ensures kept[i].id != last.id {
        assert kept[i] in kept;
        assert kept[i] in init;
      }
    }
  }

  lemma ClaimedDistinct(db: Session, g: Settings, w: MessageWorld, u: UserId, s: Store, notifs: seq<Note>)
    requires db.Valid() && s.notes == db.notes && notifs == Filter(ClaimedIn(g, w, s, u), db.notes)
    ensures forall n :: n in notifs ==> n in db.notes && MessageClaimed(g, w, s, u, n)
    ensures forall i :: 0 <= i < |notifs| ==> notifs[i].id !in IdsOf(notifs[..i])
  {
    FilterDistinct(ClaimedIn(g, w, s, u), db.notes);
    forall i | 0 <= i < |notifs| ensures notifs[i].id !in IdsOf(notifs[..i]) {
      assert forall j :: 0 <= j < i ==> notifs[..i][j] == notifs[j];
    }
  }
}
