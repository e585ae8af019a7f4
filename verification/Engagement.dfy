/** Saved and Going rows written on behalf of a user, one (user, event, kind) cell at a time. */
module Engagement {
  import opened Options
  import OrderedGroups

  type UserId = string
  type EventId = string

  datatype Kind = Save | Going

  /** Rows are unique per device key and event; a signed-in user may own several under different keys. */
  datatype RowKey = RowKey(kind: Kind, device: string, event: EventId)

  datatype Row = Row(user: Option<UserId>, audience: string, publicly: bool, curatedBy: Option<UserId>)

  type Table = map<RowKey, Row>

  /** Which of several rows the database returns first. */
  type First = set<RowKey> -> RowKey

  ghost predicate Chooses(first: First) { forall s: set<RowKey> :: s != {} ==> first(s) in s }

  /** One call of the primitive: `to` is the audience to add with, `None` removes. */
  datatype Write = Write(user: UserId, event: EventId, kind: Kind, to: Option<string>, admin: Option<UserId>)

  predicate SameCell(v: Write, w: Write) { v.user == w.user && v.event == w.event && v.kind == w.kind }

  function CuratorKey(user: UserId): string { "admin:" + user }

  function Home(w: Write): RowKey { RowKey(w.kind, CuratorKey(w.user), w.event) }

  predicate InCell(k: RowKey, row: Row, w: Write) { k.kind == w.kind && k.event == w.event && row.user == Some(w.user) }

  /** The rows of one cell, whoever wrote them. */
  function Slice(t: Table, w: Write): Table { map k | k in t && InCell(k, t[k], w) :: t[k] }

  function Anonymous(t: Table): Table { map k | k in t && t[k].user.None? :: t[k] }

  /** A curator key is only ever used for the user it names. */
  ghost predicate Valid(t: Table) {
    forall k, u {:trigger k in t, CuratorKey(u)} :: k in t && k.device == CuratorKey(u) ==> t[k].user == Some(u)
  }

  function Retarget(k: RowKey, row: Row, audience: string): Row {
    row.(audience := audience, publicly := if k.kind.Going? then audience == "public" else row.publicly)
  }

  function Do(t: Table, first: First, w: Write): Table
    requires Chooses(first)
  {
    var own := Slice(t, w);
    if w.to.None? then t - own.Keys
    else if own == map[] then
      t[Home(w) := Row(Some(w.user), w.to.value, w.kind.Going? && w.to.value == "public", w.admin)]
    else
      assert own.Keys != {};
      var k := first(own.Keys);
      if t[k].audience == w.to.value then t else t[k := Retarget(k, t[k], w.to.value)]
  }

  function Run(t: Table, first: First, writes: seq<Write>): Table
    requires Chooses(first)
  {
    if writes == [] then t else
      var n := |writes| - 1;
      Do(Run(t, first, writes[..n]), first, writes[n])
  }

  lemma CuratorKeyInjective(u: UserId, v: UserId)
    requires CuratorKey(u) == CuratorKey(v)
    ensures u == v
  {
    assert CuratorKey(u)[6..] == u && CuratorKey(v)[6..] == v;
  }

  lemma HomeIsOwn(t: Table, w: Write)
    requires Valid(t)
    ensures Home(w) in t ==> Home(w) in Slice(t, w)
  {
    if Home(w) in t { assert Home(w).device == CuratorKey(w.user); }
  }

  /** A write stays inside its cell and does there what it would do to the cell alone. */
  lemma DoIsLocal(t: Table, first: First, w: Write)
    requires Chooses(first) && Valid(t)
    ensures Valid(Do(t, first, w)) && Anonymous(Do(t, first, w)) == Anonymous(t)
    ensures Slice(Do(t, first, w), w) == Do(Slice(t, w), first, w)
  {
    var own := Slice(t, w);
    assert Slice(own, w) == own;
    HomeIsOwn(t, w);
    var t' := Do(t, first, w);
    forall k, u | k in t' && k.device == CuratorKey(u) ensures t'[k].user == Some(u) {
      if k == Home(w) { CuratorKeyInjective(u, w.user); }
      if k in t { assert t[k].user == Some(u); }
    }
  }

  lemma DoElsewhere(t: Table, first: First, v: Write, w: Write)
    requires Chooses(first) && Valid(t) && !SameCell(v, w)
    ensures Slice(Do(t, first, v), w) == Slice(t, w)
  {
    var own := Slice(t, v);
    HomeIsOwn(t, v);
    if v.to.Some? && own != map[] {
      assert own.Keys != {};
      assert first(own.Keys) in own;
    }
  }

  /** Two writes of one run to the same cell are the same write. */
  ghost predicate Consistent(writes: seq<Write>) {
    forall i, j :: 0 <= i < |writes| && 0 <= j < |writes| && SameCell(writes[i], writes[j]) ==> writes[i] == writes[j]
  }

  lemma DoTwice(t: Table, first: First, w: Write)
    requires Chooses(first) && Valid(t)
    ensures Do(Do(t, first, w), first, w) == Do(t, first, w)
  {
    var own, t' := Slice(t, w), Do(t, first, w);
    if w.to.None? {
      assert Slice(t', w) == map[];
    } else if own == map[] {
      HomeIsOwn(t, w);
      assert forall k :: k in Slice(t', w) && k != Home(w) ==> k in own;
      assert Slice(t', w) == map[Home(w) := t'[Home(w)]];
      assert first({Home(w)}) == Home(w);
    } else {
      assert own.Keys != {};
      assert Slice(t', w).Keys == own.Keys;
    }
  }

  /** What a run leaves in any cell: the effect of its write on that cell as it was before, or the cell
      untouched. Rows without a user are never touched. */
  lemma {:induction false} RunPointwise(t: Table, first: First, writes: seq<Write>, w: Write)
    requires Chooses(first) && Valid(t) && Consistent(writes)
    requires (forall v :: v in writes && SameCell(v, w) ==> v == w)
    ensures Valid(Run(t, first, writes)) && Anonymous(Run(t, first, writes)) == Anonymous(t)
    ensures Slice(Run(t, first, writes), w) == if w in writes then Do(Slice(t, w), first, w) else Slice(t, w)
  {
    hide Do, Slice, Valid, Anonymous;
    if writes != [] {
      var n := |writes| - 1;
      var before := Run(t, first, writes[..n]);
      assert writes == writes[..n] + [writes[n]];
      RunPointwise(t, first, writes[..n], w);
      DoIsLocal(before, first, writes[n]);
      if SameCell(writes[n], w) {
        assert writes[n] == w;
        if w in writes[..n] {
          SliceIsValid(t, w);
          DoTwice(Slice(t, w), first, w);
        }
      } else {
        DoElsewhere(before, first, writes[n], w);
      }
    }
  }

  lemma SliceIsValid(t: Table, w: Write)
    requires Valid(t)
    ensures Valid(Slice(t, w))
  {
  }

  /** Tables with the same cells and the same anonymous rows are the same. */
  lemma SameSlices(t: Table, t': Table)
    requires Anonymous(t) == Anonymous(t') && forall w :: Slice(t, w) == Slice(t', w)
    ensures t == t'
  {
    forall k | k in t || k in t' ensures k in t && k in t' && t[k] == t'[k] {
      SameRow(t, t', k);
      SameRow(t', t, k);
    }
  }

  lemma SameRow(t: Table, t': Table, k: RowKey)
    requires Anonymous(t) == Anonymous(t') && forall w :: Slice(t, w) == Slice(t', w)
    ensures k in t ==> k in t' && t[k] == t'[k]
  {
    if k in t {
      if t[k].user.None? {
        assert k in Anonymous(t);
      } else {
        var w := Write(t[k].user.value, k.event, k.kind, None, None);
        assert k in Slice(t, w);
        assert k in Slice(t', w);
      }
    }
  }

  ghost predicate SameWrites(writes: seq<Write>, others: seq<Write>) { forall w :: w in writes <==> w in others }

  /** The rows a run leaves do not depend on the order of its writes. */
  lemma OrderIsIrrelevant(t: Table, first: First, writes: seq<Write>, others: seq<Write>)
    requires Chooses(first) && Valid(t) && Consistent(writes) && Consistent(others) && SameWrites(writes, others)
    ensures Run(t, first, writes) == Run(t, first, others)
  {
    hide Do, Slice, Valid, Anonymous, Run;
    RunKeepsAnonymous(t, first, writes);
    RunKeepsAnonymous(t, first, others);
    forall w ensures Slice(Run(t, first, writes), w) == Slice(Run(t, first, others), w) {
      var v := if exists v :: v in writes && SameCell(v, w) then var v :| v in writes && SameCell(v, w); v else w;
      SliceOfCell(Run(t, first, writes), v, w);
      SliceOfCell(Run(t, first, others), v, w);
      OneWrite(writes, v);
      OneWrite(others, v);
      RunPointwise(t, first, writes, v);
      RunPointwise(t, first, others, v);
    }
    SameSlices(Run(t, first, writes), Run(t, first, others));
  }

  lemma {:induction false} RunKeepsAnonymous(t: Table, first: First, writes: seq<Write>)
    requires Chooses(first) && Valid(t)
    ensures Valid(Run(t, first, writes)) && Anonymous(Run(t, first, writes)) == Anonymous(t)
  {
    hide Do, Slice, Valid, Anonymous;
    if writes != [] {
      RunKeepsAnonymous(t, first, writes[..|writes| - 1]);
      DoIsLocal(Run(t, first, writes[..|writes| - 1]), first, writes[|writes| - 1]);
    }
  }

  lemma SliceOfCell(t: Table, v: Write, w: Write)
    requires SameCell(v, w)
    ensures Slice(t, v) == Slice(t, w)
  {
  }

  lemma OneWrite(writes: seq<Write>, v: Write)
    requires Consistent(writes) && (v in writes || forall w :: w in writes ==> !SameCell(w, v))
    ensures forall w :: w in writes && SameCell(w, v) ==> w == v
  {
  }

  // ------------------------------------------------------------------ running again

  /** The write finds nothing to change. */
  predicate Settled(t: Table, first: First, w: Write)
    requires Chooses(first)
  {
    Do(t, first, w) == t
  }

  lemma SettledInSlice(t: Table, first: First, w: Write)
    requires Chooses(first) && Valid(t)
    ensures Settled(t, first, w) <==> Do(Slice(t, w), first, w) == Slice(t, w)
  {
    var own := Slice(t, w);
    assert Slice(own, w) == own;
    HomeIsOwn(t, w);
    if w.to.None? {
      assert Do(own, first, w) == map[];
      assert own == map[] ==> t - own.Keys == t;
      assert forall k :: k in own ==> k in t && k !in t - own.Keys;
    } else if own == map[] {
      assert Home(w) in Do(own, first, w) && Home(w) in Do(t, first, w);
    } else {
      assert own.Keys != {};
      var k := first(own.Keys);
      assert k in own && own[k] == t[k];
      assert Do(t, first, w)[k].audience == Do(own, first, w)[k].audience == w.to.value;
    }
  }

  /** After a run every one of its writes is settled, so running it again changes nothing. */
  lemma RunSettles(t: Table, first: First, writes: seq<Write>, w: Write)
    requires Chooses(first) && Valid(t) && Consistent(writes) && w in writes
    ensures Settled(Run(t, first, writes), first, w)
  {
    hide Do, Slice, Valid, Anonymous, Run;
    OneWrite(writes, w);
    RunPointwise(t, first, writes, w);
    SliceIsValid(t, w);
    DoTwice(Slice(t, w), first, w);
    SettledInSlice(Run(t, first, writes), first, w);
  }

  /** How many writes of a run changed a row. */
  function Changed(t: Table, first: First, writes: seq<Write>): nat
    requires Chooses(first)
  {
    if writes == [] then 0 else
      var n := |writes| - 1;
      Changed(t, first, writes[..n]) + if Settled(Run(t, first, writes[..n]), first, writes[n]) then 0 else 1
  }

  lemma {:induction false} NothingChanges(t: Table, first: First, writes: seq<Write>)
    requires Chooses(first) && forall w :: w in writes ==> Settled(t, first, w)
    ensures Run(t, first, writes) == t && Changed(t, first, writes) == 0
  {
    if writes != [] {
      NothingChanges(t, first, writes[..|writes| - 1]);
      assert writes[|writes| - 1] in writes;
    }
  }

  /** A second run of the same writes reports no change, as long as the database answers as before. */
  lemma RerunIsIdle(t: Table, first: First, writes: seq<Write>)
    requires Chooses(first) && Valid(t) && Consistent(writes)
    ensures Changed(Run(t, first, writes), first, writes) == 0
    ensures Run(Run(t, first, writes), first, writes) == Run(t, first, writes)
  {
    hide Do, Settled;
    forall w | w in writes ensures Settled(Run(t, first, writes), first, w) { RunSettles(t, first, writes, w); }
    NothingChanges(Run(t, first, writes), first, writes);
  }

  /** Every row of the cell already has the audience of the write. */
  predicate Uniform(t: Table, w: Write) {
    w.to.Some? ==> forall k :: k in Slice(t, w) ==> t[k].audience == w.to.value
  }

  /** Whichever row the database returns first the next time, a second write to a cell finds nothing to
      do exactly when no other row of that user and event kept another audience. */
  lemma AnyRerunIsIdleIff(t: Table, first: First, w: Write)
    requires Chooses(first) && Valid(t)
    ensures var t' := Do(t, first, w);
      (forall second :: Chooses(second) ==> Settled(t', second, w)) <==> Uniform(t', w)
  {
    var t' := Do(t, first, w);
    var own := Slice(t', w);
    if Uniform(t', w) {
      forall second | Chooses(second) ensures Settled(t', second, w) { UniformIsSettled(t, first, second, w); }
    } else {
      var k :| k in own && t'[k].audience != w.to.value;
      var second := (s: set<RowKey>) => if k in s then k else first(s);
      assert Chooses(second);
      assert own != map[] && k in own.Keys;
      assert second(own.Keys) == k;
      assert Do(t', second, w)[k].audience == w.to.value;
      assert !Settled(t', second, w);
    }
  }

  /** A user saved the same event from two devices: when the database returns the other row the second
      time, the second write changes a row again. */
  lemma TwoDevicesChangeTwice(w: Write, other: RowKey, first: First, second: First)
    requires Chooses(first) && Chooses(second) && w.kind.Save? && w.to == Some("public")
    requires other == RowKey(Save, "device", w.event)
    requires first({other, Home(w)}) == other && second({other, Home(w)}) == Home(w)
    ensures var row := Row(Some(w.user), "friends", false, None);
      var once := Do(map[other := row, Home(w) := row], first, w);
      !Settled(once, second, w)
  {
    assert other != Home(w) by { assert "device"[0] != CuratorKey(w.user)[0]; }
    var row := Row(Some(w.user), "friends", false, None);
    var t: Table := map[other := row, Home(w) := row];
    assert Slice(t, w) == t && t.Keys == {other, Home(w)};
    var once := Do(t, first, w);
    assert once == t[other := Retarget(other, row, "public")];
    assert Slice(once, w) == once && once.Keys == {other, Home(w)};
    assert Do(once, second, w)[Home(w)].audience == "public" != once[Home(w)].audience;
  }

  lemma UniformIsSettled(t: Table, first: First, second: First, w: Write)
    requires Chooses(first) && Chooses(second) && Valid(t) && Uniform(Do(t, first, w), w)
    ensures Settled(Do(t, first, w), second, w)
  {
    var t' := Do(t, first, w);
    var own := Slice(t', w);
    if w.to.None? {
      assert own == map[];
      assert t' - own.Keys == t';
    } else {
      NotEmptied(t, first, w);
      assert own.Keys != {};
      assert second(own.Keys) in own;
    }
  }

  lemma NotEmptied(t: Table, first: First, w: Write)
    requires Chooses(first) && w.to.Some?
    ensures Slice(Do(t, first, w), w) != map[]
  {
    var own := Slice(t, w);
    if own == map[] {
      assert Home(w) in Slice(Do(t, first, w), w);
    } else {
      assert own.Keys != {};
      assert first(own.Keys) in Slice(Do(t, first, w), w);
    }
  }

  /** A user's Going rows are unique per event, so there the second write is always idle. */
  lemma OneRowIsUniform(t: Table, first: First, w: Write)
    requires Chooses(first) && Valid(t) && |Slice(t, w).Keys| <= 1
    ensures Uniform(Do(t, first, w), w)
  {
    var own, t' := Slice(t, w), Do(t, first, w);
    if w.to.Some? {
      forall k | k in Slice(t', w) ensures t'[k].audience == w.to.value {
        if own == map[] {
          HomeIsOwn(t, w);
          assert k != Home(w) ==> k in own;
        } else {
          assert own.Keys != {};
          var chosen := first(own.Keys);
          assert k in own.Keys;
          OnlyOne(own.Keys, k, chosen);
        }
      }
    }
  }

  lemma OnlyOne(s: set<RowKey>, a: RowKey, b: RowKey)
    requires |s| <= 1 && a in s && b in s
    ensures a == b
  {
    if a != b {
      assert |{a, b}| == 2;
      OrderedGroups.SubsetSize({a, b}, s);
    }
  }

  // ------------------------------------------------------------------ running again, whatever comes first

  /** Before the write: the rows of its cell that are not picked already have the audience it wants. */
  predicate Agrees(t: Table, first: First, w: Write) {
    w.to.Some? ==> forall k :: k in Slice(t, w) && k != first(Slice(t, w).Keys) ==> t[k].audience == w.to.value
  }

  /** A cell is uniform after its write exactly when it agreed before. */
  lemma UniformIffAgreed(t: Table, first: First, w: Write)
    requires Chooses(first) && Valid(t)
    ensures Uniform(Do(t, first, w), w) <==> Agrees(t, first, w)
  {
    var own, t' := Slice(t, w), Do(t, first, w);
    if w.to.Some? {
      if own == map[] {
        HomeIsOwn(t, w);
        assert forall k :: k in Slice(t', w) && k != Home(w) ==> k in own;
      } else {
        assert own.Keys != {};
        var chosen := first(own.Keys);
        assert chosen in own && t'[chosen].audience == w.to.value;
        assert Slice(t', w).Keys == own.Keys;
        forall k | k in own && k != chosen ensures t'[k].audience == t[k].audience { }
        assert forall k :: k in own ==> k in Slice(t', w);
      }
    }
  }

  lemma UniformBySlice(t: Table, t': Table, w: Write)
    requires Slice(t, w) == Slice(t', w)
    ensures Uniform(t, w) <==> Uniform(t', w)
  {
    forall k | k in Slice(t, w) ensures t[k] == t'[k] { assert Slice(t, w)[k] == Slice(t', w)[k]; }
    assert forall k :: k in Slice(t', w) ==> k in Slice(t, w);
  }

  /** After a whole run, too: only the run's own write touches the cell. */
  lemma RunUniformIff(t: Table, first: First, writes: seq<Write>, w: Write)
    requires Chooses(first) && Valid(t) && Consistent(writes) && w in writes
    ensures Uniform(Run(t, first, writes), w) <==> Agrees(t, first, w)
  {
    hide Do, Slice, Valid, Run, Uniform, Agrees;
    OneWrite(writes, w);
    RunPointwise(t, first, writes, w);
    DoIsLocal(t, first, w);
    UniformBySlice(Run(t, first, writes), Do(t, first, w), w);
    UniformIffAgreed(t, first, w);
  }

  /** A settled write is settled whichever row comes first exactly when its cell is uniform. */
  lemma IdleForAllIff(t: Table, first: First, w: Write)
    requires Chooses(first) && Valid(t) && Settled(t, first, w)
    ensures (forall second :: Chooses(second) ==> Settled(t, second, w)) <==> Uniform(t, w)
  {
    assert Do(t, first, w) == t;
    AnyRerunIsIdleIff(t, first, w);
  }

  lemma {:induction false} ChangedIffUnsettled(t: Table, first: First, writes: seq<Write>)
    requires Chooses(first)
    ensures Changed(t, first, writes) == 0 <==> forall w :: w in writes ==> Settled(t, first, w)
  {
    hide Settled, Do;
    if writes != [] {
      var n := |writes| - 1;
      assert writes == writes[..n] + [writes[n]];
      ChangedIffUnsettled(t, first, writes[..n]);
      if forall w :: w in writes[..n] ==> Settled(t, first, w) { NothingChanges(t, first, writes[..n]); }
    }
  }

  /** The second run of the same writes reports no change whichever rows the database then returns first,
      if and only if in every cell the rows the first run did not pick had the wanted audience before. */
  lemma RerunIsIdleIff(t: Table, first: First, writes: seq<Write>)
    requires Chooses(first) && Valid(t) && Consistent(writes)
    ensures (forall second :: Chooses(second) ==> Changed(Run(t, first, writes), second, writes) == 0) <==>
            (forall w :: w in writes ==> Agrees(t, first, w))
  {
    hide Do, Slice, Valid, Run, Uniform, Agrees, Settled, Changed, Chooses;
    var t' := Run(t, first, writes);
    RunKeepsAnonymous(t, first, writes);
    forall w | w in writes
      ensures (forall second :: Chooses(second) ==> Settled(t', second, w)) <==> Agrees(t, first, w)
    {
      RunSettles(t, first, writes, w);
      IdleForAllIff(t', first, w);
      RunUniformIff(t, first, writes, w);
    }
    forall second | Chooses(second)
      ensures Changed(t', second, writes) == 0 <==> forall w :: w in writes ==> Settled(t', second, w)
    {
      ChangedIffUnsettled(t', second, writes);
    }
  }

  predicate SameGoing(t: Table, j: RowKey, k: RowKey)
    requires j in t && k in t
  {
    k.kind.Going? && j.event == k.event && t[j].user.Some? && t[j].user == t[k].user
  }

  /** What the unique index on attendance enforces: at most one Going row per user and event. */
  ghost predicate UniqueGoing(t: Table) {
    forall j, k :: j in t && k in t && j.kind.Going? && SameGoing(t, j, k) ==> j == k
  }

  /** So Going writes are idle the second time whatever the database does. */
  lemma GoingRerunIsIdle(t: Table, first: First, second: First, writes: seq<Write>)
    requires Chooses(first) && Chooses(second) && Valid(t) && Consistent(writes) && UniqueGoing(t)
    requires forall w :: w in writes ==> w.kind.Going?
    ensures Changed(Run(t, first, writes), second, writes) == 0
  {
    hide Run, Changed, Consistent;
    forall w | w in writes ensures Agrees(t, first, w) {
      var own := Slice(t, w);
      if own != map[] { assert own.Keys != {} && first(own.Keys) in own; }
    }
    RerunIsIdleIff(t, first, writes);
  }

  // ------------------------------------------------------------------ what followers are told

  /** What a Going write asks of the notification service. */
  datatype Notice =
    | FanOut(going: UserId, event: EventId, audience: string)
    | Withdrawn(from: UserId, event: EventId)
    | MemorySync(owner: UserId, event: EventId)

  predicate SharedTier(audience: string) { audience == "public" || audience == "friends" }

  predicate AnyShared(t: Table) { exists k :: k in t && SharedTier(t[k].audience) }

  /** An addition that makes a row visible is fanned out if asked for; one that hides a row is withdrawn
      whether asked for or not; moving a row between the two visible tiers tells nobody. */
  function Notices(t: Table, first: First, w: Write, fanOut: bool): seq<Notice>
    requires Chooses(first)
  {
    var own := Slice(t, w);
    if w.kind.Save? then []
    else if w.to.None? then
      if own == map[] then [] else
        [MemorySync(w.user, w.event)] + if AnyShared(own) && fanOut then [Withdrawn(w.user, w.event)] else []
    else if own == map[] then
      if fanOut && SharedTier(w.to.value) then [FanOut(w.user, w.event, w.to.value)] else []
    else
      assert own.Keys != {};
      var was := own[first(own.Keys)].audience;
      if was == w.to.value then []
      else if fanOut && SharedTier(w.to.value) && !SharedTier(was) then [FanOut(w.user, w.event, w.to.value)]
      else if SharedTier(was) && !SharedTier(w.to.value) then [Withdrawn(w.user, w.event)]
      else []
  }

  /** With at most one row per user and event, followers hear of a Going entry exactly when it becomes
      visible, and of its withdrawal exactly when it stops being visible; a plain removal is announced
      only when asked for. */
  lemma NoticesTellVisibility(t: Table, first: First, w: Write, fanOut: bool)
    requires Chooses(first) && Valid(t) && w.kind.Going? && |Slice(t, w).Keys| <= 1
    ensures var before, after := AnyShared(Slice(t, w)), AnyShared(Slice(Do(t, first, w), w));
      var told := Notices(t, first, w, fanOut);
      && ((exists n :: n in told && n.FanOut?) <==> fanOut && !before && after)
      && ((exists n :: n in told && n.Withdrawn?) <==> before && !after && (fanOut || w.to.Some?))
  {
    hide Valid;
    var own, t' := Slice(t, w), Do(t, first, w);
    var told := Notices(t, first, w, fanOut);
    DoIsLocal(t, first, w);
    if w.to.None? {
      assert Slice(own, w) == own;
      assert Slice(t', w) == map[];
      if own != map[] && AnyShared(own) && fanOut { assert told[1] in told && told[1].Withdrawn?; }
    } else if own == map[] {
      assert Slice(own, w) == map[];
      assert Home(w) in Slice(t', w) && Slice(t', w)[Home(w)].audience == w.to.value;
      assert forall k :: k in Slice(t', w) ==> k == Home(w);
    } else {
      assert own.Keys != {};
      var chosen := first(own.Keys);
      forall k | k in own ensures k == chosen { OnlyOne(own.Keys, k, chosen); }
      assert Slice(own, w) == own;
      assert forall k :: k in Slice(t', w) ==> k == chosen;
      assert chosen in Slice(t', w) && Slice(t', w)[chosen].audience == w.to.value;
    }
    if told != [] { assert told[0] in told; }
  }

  /** A Going entry widened from friends to everybody ends up in a visible tier and is not announced,
      though the caller asked for it. */
  lemma WideningIsSilent(w: Write, first: First)
    requires Chooses(first) && w.kind.Going? && w.to == Some("public")
    ensures var t := map[Home(w) := Row(Some(w.user), "friends", false, None)];
      && Valid(t) && Notices(t, first, w, true) == []
      && Do(t, first, w)[Home(w)].audience == "public"
  {
    var t := map[Home(w) := Row(Some(w.user), "friends", false, None)];
    assert Slice(t, w) == t && t.Keys == {Home(w)};
    assert first({Home(w)}) == Home(w);
    forall k, u | k in t && k.device == CuratorKey(u) ensures t[k].user == Some(u) { CuratorKeyInjective(u, w.user); }
  }

  /** A write that changes nothing tells nobody. */
  lemma SettledIsSilent(t: Table, first: First, w: Write, fanOut: bool)
    requires Chooses(first) && Valid(t) && Settled(t, first, w)
    ensures Notices(t, first, w, fanOut) == []
  {
    var own := Slice(t, w);
    HomeIsOwn(t, w);
    if w.to.None? {
      assert forall k :: k in own ==> k in t && k !in t - own.Keys;
    } else if own != map[] {
      assert own.Keys != {};
      assert first(own.Keys) in own;
    }
  }

  function RunNotices(t: Table, first: First, writes: seq<Write>, fanOut: bool): seq<Notice>
    requires Chooses(first)
  {
    if writes == [] then [] else
      var n := |writes| - 1;
      RunNotices(t, first, writes[..n], fanOut) + Notices(Run(t, first, writes[..n]), first, writes[n], fanOut)
  }

  /** So a repeated run tells nobody anything, under the condition under which it changes nothing. */
  lemma {:induction false} IdleRunIsSilent(t: Table, first: First, writes: seq<Write>, fanOut: bool)
    requires Chooses(first) && Valid(t) && forall w :: w in writes ==> Settled(t, first, w)
    ensures RunNotices(t, first, writes, fanOut) == []
  {
    hide Settled, Notices, Valid;
    if writes != [] {
      var n := |writes| - 1;
      assert writes[n] in writes && forall w :: w in writes[..n] ==> w in writes;
      IdleRunIsSilent(t, first, writes[..n], fanOut);
      NothingChanges(t, first, writes[..n]);
      SettledIsSilent(t, first, writes[n], fanOut);
    }
  }

  lemma RerunIsSilent(t: Table, first: First, second: First, writes: seq<Write>, fanOut: bool)
    requires Chooses(first) && Chooses(second) && Valid(t) && Consistent(writes)
    requires forall w :: w in writes ==> Agrees(t, first, w)
    ensures RunNotices(Run(t, first, writes), second, writes, fanOut) == []
  {
    hide Run, Agrees, Valid, Consistent, Settled;
    RunKeepsAnonymous(t, first, writes);
    RerunIsIdleIff(t, first, writes);
    assert Changed(Run(t, first, writes), second, writes) == 0;
    ChangedIffUnsettled(Run(t, first, writes), second, writes);
    IdleRunIsSilent(Run(t, first, writes), second, writes, fanOut);
  }
}
