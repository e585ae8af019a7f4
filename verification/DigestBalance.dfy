/** Which entries of a combined digest get a card: cards of at most three entries, a cap per
    kind, and a round-robin trim down to the maximum number of cards. */
module DigestBalance {
  import opened Options
  import opened OrderedGroups
  import opened Sequences
  import opened Notifications

  // ------------------------------------------------------------------ data

  datatype GroupKey = ByActor(actor: UserId) | ByAlert(name: string)

  datatype Entry = Entry(kind: Kind, ids: seq<Id>, group: Option<GroupKey>, createdAt: int)

  // "deals" is the one section shared by two features.
  datatype SectionName = Deals | Of(feature: Feature)

  datatype Section = Section(name: SectionName, entries: seq<Entry>)

  /** An entry with its position in the newest-first order. */
  datatype Numbered = Numbered(index: nat, entry: Entry)

  datatype CardKey = Shared(group: GroupKey) | Alone(index: nat)

  /** One card: its entries, and how many further entries it folds into "and N more". */
  datatype Card = Card(kind: Kind, entries: seq<Entry>, more: nat)

  datatype KindBucket = KindBucket(section: SectionName, kind: Kind, cards: seq<Card>, more: int)

  const MAX_ENTRIES_PER_CARD := 3

  function Max(a: int, b: int): int { if a < b then b else a }

  // Position in _SECTION_ORDER; everything else sorts last.
  function SectionRank(s: Section): int {
    match s.name
    case Deals => 1
    case Of(f) =>
      match f
      case InterestMatches => 0
      case FriendsGoing => 2
      case MilestoneUnlocked => 3
      case SocialActivity => 4
      case FriendReviews => 5
      case FriendMilestones => 6
      case SuggestedEvents => 7
      case EventMessages => 8
      case TicketPrompt => 9
      case ReviewPrompt => 10
      case MemoriesPrompt => 11
      case _ => 12
  }

  // ------------------------------------------------------------------ cards and buckets

  function NewestFirst(e: Entry): int { -e.createdAt }

  function Indexed(entries: seq<Entry>): (r: seq<Numbered>)
    ensures |r| == |entries|
    ensures forall i :: 0 <= i < |r| ==> r[i] == Numbered(i, entries[i])
  {
    seq(|entries|, i requires 0 <= i < |entries| => Numbered(i, entries[i]))
  }

  function CardKeyOf(x: Numbered): CardKey {
    if x.entry.group.Some? then Shared(x.entry.group.value) else Alone(x.index)
  }

  function EntriesOf(xs: seq<Numbered>): (r: seq<Entry>)
    ensures |r| == |xs|
  {
    seq(|xs|, i requires 0 <= i < |xs| => xs[i].entry)
  }

  function CardOf(items: seq<Numbered>): Card
    requires items != []
  {
    var shown := if |items| < MAX_ENTRIES_PER_CARD then |items| else MAX_ENTRIES_PER_CARD;
    Card(items[0].entry.kind, EntriesOf(items[..shown]), |items| - shown)
  }

  function CardsOf(groups: seq<Bucket<CardKey, Numbered>>): (cards: seq<Card>)
    requires AllNonempty(groups)
    ensures |cards| == |groups|
    ensures forall i :: 0 <= i < |groups| ==> cards[i] == CardOf(groups[i].items)
  {
    seq(|groups|, i requires 0 <= i < |groups| => CardOf(groups[i].items))
  }

  /** How many entries a card stands for. */
  function Weight(c: Card): int { |c.entries| + c.more }

  function SectionCards(s: Section): seq<Card> {
    CardsOf(GroupBy(CardKeyOf, Indexed(SortBy(NewestFirst, s.entries))))
  }

  function KindOf(c: Card): Kind { c.kind }

  /** A kind's bucket: the first cards up to the cap, the rest counted entry by entry. */
  function BucketOf(name: SectionName, cap: int, g: Bucket<Kind, Card>): KindBucket {
    var shown := if |g.items| < Max(1, cap) then |g.items| else Max(1, cap);
    KindBucket(name, g.key, g.items[..shown], Sum(Weight, g.items[shown..]))
  }

  function SectionBuckets(s: Section, cap: int): (r: seq<KindBucket>)
  {
    var groups := GroupBy(KindOf, SectionCards(s));
    seq(|groups|, i requires 0 <= i < |groups| => BucketOf(s.name, cap, groups[i]))
  }

  function AllBuckets(sections: seq<Section>, cap: int): seq<KindBucket> {
    if sections == [] then [] else
      var n := |sections| - 1;
      AllBuckets(sections[..n], cap) + SectionBuckets(sections[n], cap)
  }

  // ------------------------------------------------------------------ what a card shows

  function InGroup(g: GroupKey): Entry -> bool { (e: Entry) => e.group == Some(g) }

  lemma {:induction false} GroupedEntries(entries: seq<Entry>, g: GroupKey)
    ensures EntriesOf(WithKey(CardKeyOf, Shared(g), Indexed(entries))) == Filter(InGroup(g), entries)
  {
    if entries != [] {
      var n := |entries| - 1;
      GroupedEntries(entries[..n], g);
      var indexed := Indexed(entries);
      assert indexed[..n] == Indexed(entries[..n]);
      var before := WithKey(CardKeyOf, Shared(g), indexed[..n]);
      if entries[n].group == Some(g) {
        assert EntriesOf(before + [indexed[n]]) == EntriesOf(before) + [entries[n]];
      } else {
        assert before + [] == before;
      }
    }
  }

  lemma {:induction false} LoneEntry(xs: seq<Numbered>, i: nat)
    requires forall k :: 0 <= k < |xs| ==> xs[k].index == k
    ensures WithKey(CardKeyOf, Alone(i), xs) == if i < |xs| && xs[i].entry.group.None? then [xs[i]] else []
  {
    if xs != [] {
      var n := |xs| - 1;
      LoneEntry(xs[..n], i);
      hide WithKey;
      assert xs == xs[..n] + [xs[n]];
      WithKeyPush(CardKeyOf, Alone(i), xs[..n], xs[n]);
    } else {
      assert WithKey(CardKeyOf, Alone(i), xs) == [];
    }
  }

  /** A card shows an entry without a group alone; of the entries of a group it shows the newest three, newest
      first, and counts the others. Its kind is that of the newest. */
  lemma CardShows(s: Section, c: Card)
    requires c in SectionCards(s)
    ensures c.entries != [] && c.kind == c.entries[0].kind && c.entries[0] in s.entries
    ensures match c.entries[0].group
      case None => c.entries == [c.entries[0]] && c.more == 0
      case Some(g) =>
        var all := Filter(InGroup(g), SortBy(NewestFirst, s.entries));
        c.entries == all[..if |all| < 3 then |all| else 3] && c.more == |all| - |c.entries|
  {
    hide SortBy, GroupBy;
    var sorted := SortBy(NewestFirst, s.entries);
    var indexed := Indexed(sorted);
    var groups := GroupBy(CardKeyOf, indexed);
    GroupByDescribes(CardKeyOf, indexed);
    var i :| 0 <= i < |groups| && SectionCards(s)[i] == c;
    BucketNonempty(CardKeyOf, indexed, i);
    SectionCardsHoldEntries(s, c, c.entries[0]);
    assert groups[i].items == WithKey(CardKeyOf, groups[i].key, indexed);
    assert groups[i].items[0] in groups[i].items;
    match groups[i].key
    case Alone(at) => LoneEntry(indexed, at);
    case Shared(g) => GroupedEntries(sorted, g);
  }

  /** No group has two cards. */
  lemma OneCardPerGroup(s: Section, i: nat, j: nat)
    requires i < j < |SectionCards(s)|
    ensures var a, b := SectionCards(s)[i], SectionCards(s)[j];
      a.entries != [] && b.entries != [] && (a.entries[0].group.Some? ==> a.entries[0].group != b.entries[0].group)
  {
    hide SortBy, GroupBy;
    var indexed := Indexed(SortBy(NewestFirst, s.entries));
    var groups := GroupBy(CardKeyOf, indexed);
    GroupByDescribes(CardKeyOf, indexed);
    BucketNonempty(CardKeyOf, indexed, i);
    BucketNonempty(CardKeyOf, indexed, j);
    assert groups[i].items[0] in groups[i].items && groups[j].items[0] in groups[j].items;
    assert Keys(groups)[i] == groups[i].key && Keys(groups)[j] == groups[j].key;
  }

  function IsKind(kind: Kind): Card -> bool { (c: Card) => c.kind == kind }

  lemma {:induction false} CardsOfKind(cards: seq<Card>, kind: Kind)
    ensures WithKey(KindOf, kind, cards) == Filter(IsKind(kind), cards)
  {
    if cards != [] { CardsOfKind(cards[..|cards| - 1], kind); }
  }

  /** Of each kind a section shows the first cards, as many as the cap allows but at least one, and counts what
      the others stand for. */
  lemma BucketShows(s: Section, cap: int, i: nat)
    requires i < |SectionBuckets(s, cap)|
    ensures var b := SectionBuckets(s, cap)[i];
      var all := Filter(IsKind(b.kind), SectionCards(s));
      var limit := if cap < 1 then 1 else cap;
      && b.section == s.name && b.cards != []
      && b.cards == all[..if |all| < limit then |all| else limit]
      && b.more == Sum((c: Card) => |c.entries| + c.more, all[|b.cards|..])
  {
    hide SectionCards, GroupBy;
    var cards := SectionCards(s);
    var groups := GroupBy(KindOf, cards);
    GroupByDescribes(KindOf, cards);
    BucketNonempty(KindOf, cards, i);
    CardsOfKind(cards, groups[i].key);
    var b := SectionBuckets(s, cap)[i];
    SumPointwise(Weight, (c: Card) => |c.entries| + c.more, groups[i].items[|b.cards|..], groups[i].items[|b.cards|..]);
  }

  /** The order in which a digest lists its sections; features without a place of their own come last. */
  lemma SectionsInOrder(f: Feature)
    ensures var rank := (name: SectionName) => SectionRank(Section(name, []));
      && rank(Of(InterestMatches)) < rank(Deals) < rank(Of(FriendsGoing)) < rank(Of(MilestoneUnlocked))
      && rank(Of(MilestoneUnlocked)) < rank(Of(SocialActivity)) < rank(Of(FriendReviews))
      && rank(Of(FriendReviews)) < rank(Of(FriendMilestones)) < rank(Of(SuggestedEvents))
      && rank(Of(SuggestedEvents)) < rank(Of(EventMessages)) < rank(Of(TicketPrompt))
      && rank(Of(TicketPrompt)) < rank(Of(ReviewPrompt)) < rank(Of(MemoriesPrompt)) < rank(Of(PlanActivity))
      && (f in {PlanActivity, PromoCodes, PromoCodeMatches, Unlisted} <==> rank(Of(f)) == rank(Of(PlanActivity)))
  {
  }

  // ------------------------------------------------------------------ round-robin trim

  /** `alive` is the working list of buckets (by position), `turn` the running index. */
  datatype Trim = Trim(buckets: seq<KindBucket>, alive: seq<nat>, turn: nat, drop: int) {
    predicate Valid() { forall i :: 0 <= i < |alive| ==> alive[i] < |buckets| }

    function Step(): (r: Trim)
      requires Valid() && alive != []
      ensures r.Valid() && |r.buckets| == |buckets|
    {
      var pos := turn % |alive|;
      var b := buckets[alive[pos]];
      if b.cards != [] then
        var n := |b.cards| - 1;
        this.(buckets := buckets[alive[pos] := b.(cards := b.cards[..n], more := b.more + 1)],
              turn := turn + 1, drop := drop - 1)
      else
        this.(alive := alive[..pos] + alive[pos + 1..])
    }

    function Run(): (r: Trim)
      requires Valid()
      ensures r.Valid() && |r.buckets| == |buckets|
      decreases Max(drop, 0), |alive|
    {
      if drop > 0 && alive != [] then Step().Run() else this
    }
  }

  function CardCount(b: KindBucket): int { |b.cards| }

  function StartTrim(buckets: seq<KindBucket>, maxItems: int): (r: Trim)
    ensures r.Valid()
  {
    Trim(buckets, seq(|buckets|, i => i), 0, Sum(CardCount, buckets) - Max(1, maxItems))
  }

  function Balance(sections: seq<Section>, perKindCap: int, maxItems: int): seq<KindBucket> {
    StartTrim(AllBuckets(SortBy(SectionRank, sections), perKindCap), maxItems).Run().buckets
  }

  /** The notification ids that appear in some card. */
  function IdsInCard(c: Card): set<Id> { set e, id | e in c.entries && id in e.ids :: id }

  function RenderedIds(buckets: seq<KindBucket>): set<Id> {
    set b, c, id | b in buckets && c in b.cards && id in IdsInCard(c) :: id
  }

  function EntryIds(sections: seq<Section>): set<Id> {
    set s, e, id | s in sections && e in s.entries && id in e.ids :: id
  }

  // ------------------------------------------------------------------ the trim

  /** Every bucket that still shows a card is on the working list. */
  ghost predicate CoversShown(t: Trim) {
    forall i :: 0 <= i < |t.buckets| && t.buckets[i].cards != [] ==> i in t.alive
  }

  lemma StepCovers(t: Trim)
    requires t.Valid() && t.alive != [] && CoversShown(t)
    ensures CoversShown(t.Step())
  {
    var pos := t.turn % |t.alive|;
    var s := t.Step();
    forall i | 0 <= i < |s.buckets| && s.buckets[i].cards != [] ensures i in s.alive {
      var j :| 0 <= j < |t.alive| && t.alive[j] == i;
      if s.alive != t.alive {
        if j < pos { assert s.alive[j] == i; } else { assert s.alive[j - 1] == i; }
      }
    }
  }

  /** The trim drops exactly the excess: it never runs out of cards to drop. */
  lemma {:induction false} TrimDropsExcess(t: Trim)
    requires t.Valid() && CoversShown(t) && t.drop <= Sum(CardCount, t.buckets)
    ensures Sum(CardCount, t.Run().buckets) == Sum(CardCount, t.buckets) - Max(t.drop, 0)
    decreases Max(t.drop, 0), |t.alive|
  {
    if t.drop > 0 {
      if t.alive == [] {
        NoCards(t.buckets);
      } else {
        var b := t.alive[t.turn % |t.alive|];
        StepCovers(t);
        SumUpdate(CardCount, t.buckets, b, t.Step().buckets[b]);
        assert t.Step().buckets == t.buckets[b := t.Step().buckets[b]];
        TrimDropsExcess(t.Step());
      }
    }
  }

  lemma {:induction false} NoCards(bs: seq<KindBucket>)
    requires forall i :: 0 <= i < |bs| ==> bs[i].cards == []
    ensures Sum(CardCount, bs) == 0
  {
    if bs != [] { NoCards(bs[..|bs| - 1]); }
  }

  /** Each bucket keeps a prefix of its cards, so within a kind only a tail is dropped, and counts each
      dropped card as one more. */
  lemma {:induction false} TrimKeepsPrefix(t: Trim, i: nat)
    requires t.Valid() && i < |t.buckets|
    ensures var b, b' := t.buckets[i], t.Run().buckets[i];
      && b'.cards <= b.cards && b'.section == b.section && b'.kind == b.kind
      && b'.more == b.more + |b.cards| - |b'.cards|
    decreases Max(t.drop, 0), |t.alive|
  {
    if t.drop > 0 && t.alive != [] { TrimKeepsPrefix(t.Step(), i); }
  }

  // ------------------------------------------------------------------ how many cards are left

  function Counts(bs: seq<KindBucket>): (counts: seq<nat>)
    ensures |counts| == |bs|
  {
    seq(|bs|, i requires 0 <= i < |bs| => |bs[i].cards|)
  }

  /** The round-robin on the numbers of cards alone. */
  function CountsLeft(counts: seq<nat>, alive: seq<nat>, turn: nat, drop: int): (left: seq<nat>)
    requires forall i :: 0 <= i < |alive| ==> alive[i] < |counts|
    ensures |left| == |counts|
    decreases Max(drop, 0), |alive|
  {
    if drop <= 0 || alive == [] then counts else
      var pos := turn % |alive|;
      var n := counts[alive[pos]];
      if n > 0 then CountsLeft(counts[alive[pos] := n - 1], alive, turn + 1, drop - 1)
      else CountsLeft(counts, alive[..pos] + alive[pos + 1..], turn, drop)
  }

  function Same(n: nat): int { n }

  /** How many cards of each kind a limit leaves, from their numbers. */
  function CardsLeft(counts: seq<nat>, maxItems: int): (left: seq<nat>)
    ensures |left| == |counts|
  {
    CountsLeft(counts, seq(|counts|, i => i), 0, Sum(Same, counts) - Max(1, maxItems))
  }

  lemma {:induction false} TrimCounts(t: Trim)
    requires t.Valid()
    ensures Counts(t.Run().buckets) == CountsLeft(Counts(t.buckets), t.alive, t.turn, t.drop)
    decreases Max(t.drop, 0), |t.alive|
  {
    if t.drop > 0 && t.alive != [] {
      var at := t.alive[t.turn % |t.alive|];
      if t.buckets[at].cards != [] {
        assert Counts(t.Step().buckets) == Counts(t.buckets)[at := |t.buckets[at].cards| - 1];
      }
      TrimCounts(t.Step());
    }
  }

  /** What the balancer's trim leaves is decided by the numbers of cards. */
  lemma BalanceLeaves(bs: seq<KindBucket>, maxItems: int, i: nat)
    requires i < |bs|
    ensures var b, left := StartTrim(bs, maxItems).Run().buckets[i], CardsLeft(Counts(bs), maxItems)[i];
      && left <= |bs[i].cards| && b.cards == bs[i].cards[..left] && b.more == bs[i].more + |bs[i].cards| - left
  {
    hide Sum;
    var t := StartTrim(bs, maxItems);
    SumPointwise(CardCount, Same, bs, Counts(bs));
    TrimCounts(t);
    TrimKeepsPrefix(t, i);
    hide CountsLeft;
    assert Counts(t.Run().buckets)[i] == |t.Run().buckets[i].cards|;
  }

  // ------------------------------------------------------------------ "and N more"

  /** The entries a bucket accounts for, shown or announced as "more". */
  function Announced(b: KindBucket): int { Sum(Weight, b.cards) + b.more }

  function Excess(c: Card): int { Weight(c) - 1 }

  lemma {:induction false} WeighTail(cards: seq<Card>)
    ensures Sum(Weight, cards) == Sum(Excess, cards) + |cards|
  {
    if cards != [] { WeighTail(cards[..|cards| - 1]); }
  }

  /** Cutting a bucket announces its lost cards as one each. */
  lemma CutAnnounces(b: KindBucket, left: nat, after: KindBucket)
    requires left <= |b.cards| && after.cards == b.cards[..left] && after.more == b.more + |b.cards| - left
    ensures Announced(after) == Announced(b) - Sum(Excess, b.cards[left..])
  {
    assert b.cards == b.cards[..left] + b.cards[left..];
    SumConcat(Weight, b.cards[..left], b.cards[left..]);
    WeighTail(b.cards[left..]);
  }

  /** The surplus entries of the last cards of each bucket, beyond the first `left[i]`. */
  function Surplus(bs: seq<KindBucket>, left: seq<nat>): int
    requires |left| == |bs| && forall i :: 0 <= i < |bs| ==> left[i] <= |bs[i].cards|
  {
    if bs == [] then 0 else
      var n := |bs| - 1;
      Surplus(bs[..n], left[..n]) + Sum(Excess, bs[n].cards[left[n]..])
  }

  lemma {:induction false} AllCutAnnounce(bs: seq<KindBucket>, left: seq<nat>, after: seq<KindBucket>)
    requires |left| == |bs| == |after|
    requires forall i :: 0 <= i < |bs| ==>
      left[i] <= |bs[i].cards| && after[i].cards == bs[i].cards[..left[i]]
        && after[i].more == bs[i].more + |bs[i].cards| - left[i]
    ensures Sum(Announced, after) == Sum(Announced, bs) - Surplus(bs, left)
  {
    hide Announced;
    if bs != [] {
      var n := |bs| - 1;
      AllCutAnnounce(bs[..n], left[..n], after[..n]);
      CutAnnounces(bs[n], left[n], after[n]);
    }
  }

  /** Every card cut off stands for a single entry. */
  ghost predicate CutsSingles(bs: seq<KindBucket>, left: seq<nat>)
    requires |left| == |bs| && forall i :: 0 <= i < |bs| ==> left[i] <= |bs[i].cards|
  {
    forall i, c :: 0 <= i < |bs| && c in bs[i].cards[left[i]..] ==> Weight(c) == 1
  }

  lemma {:induction false} SurplusFree(bs: seq<KindBucket>, left: seq<nat>)
    requires |left| == |bs| && Filled(bs) && forall i :: 0 <= i < |bs| ==> left[i] <= |bs[i].cards|
    ensures Surplus(bs, left) >= 0
    ensures Surplus(bs, left) == 0 <==> CutsSingles(bs, left)
  {
    if bs != [] {
      var n := |bs| - 1;
      SurplusFree(bs[..n], left[..n]);
      forall c | c in bs[n].cards[left[n]..] ensures c.entries != [] { assert c in bs[n].cards; }
      ExcessFree(bs[n].cards[left[n]..]);
      assert forall i :: 0 <= i < n ==> bs[..n][i] == bs[i] && left[..n][i] == left[i];
      assert CutsSingles(bs, left) <==>
        CutsSingles(bs[..n], left[..n]) && forall c :: c in bs[n].cards[left[n]..] ==> Weight(c) == 1;
    }
  }

  function EntryCount(s: Section): int { |s.entries| }

  function GroupSize(g: Bucket<CardKey, Numbered>): int { |g.items| }

  function GroupWeight(g: Bucket<Kind, Card>): int { Sum(Weight, g.items) }

  function One<T>(x: T): int { 1 }

  lemma {:induction false} SumOnes<T>(xs: seq<T>)
    ensures Sum(One, xs) == |xs|
  {
    if xs != [] { SumOnes(xs[..|xs| - 1]); }
  }

  lemma {:induction false} SumPointwise<S, T>(f: S -> int, g: T -> int, xs: seq<S>, ys: seq<T>)
    requires |xs| == |ys| && forall i :: 0 <= i < |xs| ==> f(xs[i]) == g(ys[i])
    ensures Sum(f, xs) == Sum(g, ys)
  {
    if xs != [] { SumPointwise(f, g, xs[..|xs| - 1], ys[..|ys| - 1]); }
  }

  lemma SectionCardsAccount(s: Section)
    ensures Sum(Weight, SectionCards(s)) == |s.entries|
  {
    var indexed := Indexed(SortBy(NewestFirst, s.entries));
    var groups := GroupBy(CardKeyOf, indexed);
    forall g: Bucket<CardKey, Numbered> ensures GroupSize(g) == Sum(One, g.items) { SumOnes(g.items); }
    SumGrouped(One, GroupSize, CardKeyOf, indexed);
    SumOnes(indexed);
    SumPointwise(Weight, GroupSize, CardsOf(groups), groups);
  }

  lemma SectionAccounts(s: Section, cap: int)
    ensures Sum(Announced, SectionBuckets(s, cap)) == |s.entries|
  {
    var groups := GroupBy(KindOf, SectionCards(s));
    forall i | 0 <= i < |groups| ensures Announced(SectionBuckets(s, cap)[i]) == GroupWeight(groups[i]) {
      var g := groups[i];
      var shown := |BucketOf(s.name, cap, g).cards|;
      assert g.items == g.items[..shown] + g.items[shown..];
      SumConcat(Weight, g.items[..shown], g.items[shown..]);
    }
    SumPointwise(Announced, GroupWeight, SectionBuckets(s, cap), groups);
    SumGrouped(Weight, GroupWeight, KindOf, SectionCards(s));
    SectionCardsAccount(s);
  }

  lemma {:induction false} BucketsAccount(sections: seq<Section>, cap: int)
    ensures Sum(Announced, AllBuckets(sections, cap)) == Sum(EntryCount, sections)
  {
    if sections != [] {
      var n := |sections| - 1;
      BucketsAccount(sections[..n], cap);
      SectionAccounts(sections[n], cap);
      SumConcat(Announced, AllBuckets(sections[..n], cap), SectionBuckets(sections[n], cap));
    }
  }

  /** Every bucket the balancer starts from shows at least one card, and every card at least one entry. */
  ghost predicate Filled(bs: seq<KindBucket>) {
    forall i :: 0 <= i < |bs| ==> bs[i].cards != [] && forall c :: c in bs[i].cards ==> c.entries != []
  }

  lemma SectionBucketsFilled(s: Section, cap: int)
    ensures Filled(SectionBuckets(s, cap))
  {
    var cards, bs := SectionCards(s), SectionBuckets(s, cap);
    forall c | c in cards ensures c.entries != [] {
      var i :| 0 <= i < |cards| && cards[i] == c;
    }
    forall i | 0 <= i < |bs| ensures bs[i].cards != [] && forall c :: c in bs[i].cards ==> c.entries != [] {
      BucketNonempty(KindOf, cards, i);
      assert forall c :: c in bs[i].cards ==> c in GroupBy(KindOf, cards)[i].items;
    }
  }

  lemma {:induction false} AllBucketsFilled(sections: seq<Section>, cap: int)
    ensures Filled(AllBuckets(sections, cap))
  {
    if sections != [] {
      AllBucketsFilled(sections[..|sections| - 1], cap);
      SectionBucketsFilled(sections[|sections| - 1], cap);
    }
  }

  lemma {:induction false} ExcessFree(cards: seq<Card>)
    requires forall c :: c in cards ==> c.entries != []
    ensures Sum(Excess, cards) >= 0
    ensures Sum(Excess, cards) == 0 <==> forall c :: c in cards ==> Weight(c) == 1
  {
    if cards != [] {
      var n := |cards| - 1;
      assert cards == cards[..n] + [cards[n]];
      ExcessFree(cards[..n]);
    }
  }

  // ------------------------------------------------------------------ newest first

  function Age(x: Numbered): int { NewestFirst(x.entry) }

  /** Cards come newest first, by their newest entry, and so do the entries on a card; what a cap or
      the trim takes from the end is the oldest. */
  lemma CardsAreNewestFirst(s: Section)
    ensures var cards := SectionCards(s);
      && (forall i :: 0 <= i < |cards| ==> cards[i].entries != [] && Sorted(NewestFirst, cards[i].entries))
      && (forall i, j :: 0 <= i < j < |cards| ==> cards[j].entries[0].createdAt <= cards[i].entries[0].createdAt)
  {
    hide SortBy, GroupBy;
    var indexed := Indexed(SortBy(NewestFirst, s.entries));
    SortByIsStable(NewestFirst, s.entries, 0);
    assert Sorted(Age, indexed);
    GroupsOfSorted(Age, CardKeyOf, indexed);
    var groups := GroupBy(CardKeyOf, indexed);
    forall i | 0 <= i < |groups|
      ensures SectionCards(s)[i].entries != [] && Sorted(NewestFirst, SectionCards(s)[i].entries)
                                      && SectionCards(s)[i].entries[0] == groups[i].items[0].entry {
      CardIsNewestFirst(groups[i].items);
    }
    forall i, j | 0 <= i < j < |groups| ensures Age(groups[i].items[0]) <= Age(groups[j].items[0]) { }
  }

  lemma CardIsNewestFirst(items: seq<Numbered>)
    requires items != [] && Sorted(Age, items)
    ensures var c := CardOf(items);
      c.entries != [] && Sorted(NewestFirst, c.entries) && c.entries[0] == items[0].entry
  {
    var c := CardOf(items);
    forall i, j | 0 <= i < j < |c.entries| ensures NewestFirst(c.entries[i]) <= NewestFirst(c.entries[j]) {
      assert Age(items[i]) <= Age(items[j]);
    }
  }

  // ------------------------------------------------------------------ main results

  function TrimOf(sections: seq<Section>, perKindCap: int, maxItems: int): (r: Trim)
    ensures r.Valid()
  {
    StartTrim(AllBuckets(SortBy(SectionRank, sections), perKindCap), maxItems)
  }

  /** After balancing there are exactly as many cards as the limit allows: all of them, or
      max(1, maxItems). */
  lemma BalanceCardCount(sections: seq<Section>, perKindCap: int, maxItems: int)
    ensures var all := Sum(CardCount, AllBuckets(SortBy(SectionRank, sections), perKindCap));
      Sum(CardCount, Balance(sections, perKindCap, maxItems))
        == if all <= Max(1, maxItems) then all else Max(1, maxItems)
  {
    var t := TrimOf(sections, perKindCap, maxItems);
    forall i | 0 <= i < |t.buckets| && t.buckets[i].cards != [] ensures i in t.alive {
      assert t.alive[i] == i;
    }
    TrimDropsExcess(t);
  }

  /** "and N more" is exact if and only if every card the limit cuts off stands for a single entry, where
      the numbers of cards alone decide which those are; otherwise the digest under-reports by precisely
      the surplus entries of those cards. */
  lemma BalanceAnnouncesAllIff(sections: seq<Section>, perKindCap: int, maxItems: int)
    ensures var bs := AllBuckets(SortBy(SectionRank, sections), perKindCap);
      var left := CardsLeft(Counts(bs), maxItems);
      var announced, entries := Sum(Announced, Balance(sections, perKindCap, maxItems)), Sum(EntryCount, sections);
      && (forall i :: 0 <= i < |bs| ==> left[i] <= |bs[i].cards|)
      && announced == entries - Surplus(bs, left) && announced <= entries
      && (announced == entries <==> CutsSingles(bs, left))
  {
    hide SortBy, AllBuckets, Surplus, CutsSingles, CardsLeft, Counts, Announced;
    var bs := AllBuckets(SortBy(SectionRank, sections), perKindCap);
    var left := CardsLeft(Counts(bs), maxItems);
    forall i | 0 <= i < |bs|
      ensures var b := StartTrim(bs, maxItems).Run().buckets[i];
        left[i] <= |bs[i].cards| && b.cards == bs[i].cards[..left[i]] && b.more == bs[i].more + |bs[i].cards| - left[i]
    {
      BalanceLeaves(bs, maxItems, i);
    }
    AllCutAnnounce(bs, left, StartTrim(bs, maxItems).Run().buckets);
    SumSorted(EntryCount, SectionRank, sections);
    BucketsAccount(SortBy(SectionRank, sections), perKindCap);
    AllBucketsFilled(SortBy(SectionRank, sections), perKindCap);
    SurplusFree(bs, left);
  }

  // ------------------------------------------------------------------ crowding out

  /** How often position `i` comes up in turns `from` to `to` (exclusive) over `k` positions. */
  function Turns(i: nat, k: nat, from: nat, to: nat): nat
    requires k > 0
    decreases Max(to - from, 0)
  {
    if from >= to then 0 else (if from % k == i then 1 else 0) + Turns(i, k, from + 1, to)
  }

  ghost predicate AllShown(bs: seq<KindBucket>) { forall i :: 0 <= i < |bs| ==> bs[i].cards != [] }

  ghost predicate Outlasts(bs: seq<KindBucket>, from: nat, to: nat)
    requires bs != []
  {
    forall i :: 0 <= i < |bs| ==> Turns(i, |bs|, from, to) < |bs[i].cards|
  }

  lemma TurnsStep(k: nat, from: nat, end: nat)
    requires from < end && k > 0
    ensures forall i: nat :: Turns(i, k, from, end) == (if i == from % k then 1 else 0) + Turns(i, k, from + 1, end)
  {
  }

  lemma {:induction false} CrowdedOut(t: Trim)
    requires t.Valid() && t.buckets != [] && AllShown(t.buckets) && t.drop >= 0
    requires t.alive == seq(|t.buckets|, i => i)
    ensures AllShown(t.Run().buckets) <==> Outlasts(t.buckets, t.turn, t.turn + t.drop)
    decreases t.drop
  {
    var k := |t.buckets|;
    if t.drop == 0 {
      assert t.Run() == t;
    } else {
      var pos := t.turn % k;
      var s := t.Step();
      var b, b' := t.buckets[pos], s.buckets[pos];
      assert t.alive[pos] == pos;
      var end: nat := t.turn + t.drop;
      TurnsStep(k, t.turn, end);
      hide Turns;
      if b'.cards == [] {
        TrimKeepsPrefix(s, pos);
        assert s.Run().buckets[pos].cards == [];
        assert t.Run() == s.Run();
        assert !AllShown(t.Run().buckets);
        assert Turns(pos, k, t.turn, t.turn + t.drop) >= |b.cards|;
      } else {
        CrowdedOut(s);
        assert t.Run() == s.Run();
        assert forall i :: 0 <= i < k && i != pos ==> s.buckets[i] == t.buckets[i];
        assert |b'.cards| == |b.cards| - 1;
      }
    }
  }

  /** What a caller can check beforehand: nothing to trim, or no kind's turns in the round-robin
      reach its number of cards. */
  ghost predicate NoKindRunsOut(bs: seq<KindBucket>, maxItems: int) {
    bs == [] ||
    var excess := Sum(CardCount, bs) - Max(1, maxItems);
    excess <= 0 || Outlasts(bs, 0, excess)
  }

  lemma TrimKeepsEveryKindIff(bs: seq<KindBucket>, maxItems: int)
    requires AllShown(bs)
    ensures AllShown(StartTrim(bs, maxItems).Run().buckets) <==> NoKindRunsOut(bs, maxItems)
  {
    var t := StartTrim(bs, maxItems);
    if bs != [] && t.drop > 0 { CrowdedOut(t); }
  }

  /** The digest shows at least one card of every kind if and only if no kind runs out of cards. */
  lemma BalanceKeepsEveryKindIff(sections: seq<Section>, perKindCap: int, maxItems: int)
    ensures AllShown(Balance(sections, perKindCap, maxItems))
       <==> NoKindRunsOut(AllBuckets(SortBy(SectionRank, sections), perKindCap), maxItems)
  {
    var bs := AllBuckets(SortBy(SectionRank, sections), perKindCap);
    AllBucketsFilled(SortBy(SectionRank, sections), perKindCap);
    assert AllShown(bs);
    TrimKeepsEveryKindIff(bs, maxItems);
  }

  lemma {:induction false} TurnsTaken(t: Trim, i: nat)
    requires t.Valid() && i < |t.buckets| && AllShown(t.buckets) && t.drop >= 0
    requires t.alive == seq(|t.buckets|, j => j) && Outlasts(t.buckets, t.turn, t.turn + t.drop)
    ensures |t.Run().buckets[i].cards| == |t.buckets[i].cards| - Turns(i, |t.buckets|, t.turn, t.turn + t.drop)
    decreases t.drop
  {
    var k := |t.buckets|;
    if t.drop > 0 {
      var pos, s := t.turn % k, t.Step();
      assert t.alive[pos] == pos;
      var end: nat := t.turn + t.drop;
      TurnsStep(k, t.turn, end);
      forall j | 0 <= j < k ensures s.buckets[j].cards != [] && Turns(j, k, t.turn + 1, end) < |s.buckets[j].cards| {
        assert Turns(j, k, t.turn, end) < |t.buckets[j].cards|;
      }
      TurnsTaken(s, i);
    }
  }

  /** Where no kind runs out of cards, each loses one per turn it gets. */
  lemma LeftByTurns(bs: seq<KindBucket>, maxItems: int, i: nat)
    requires i < |bs| && AllShown(bs) && NoKindRunsOut(bs, maxItems)
    ensures var excess := Sum(CardCount, bs) - Max(1, maxItems);
      CardsLeft(Counts(bs), maxItems)[i] == |bs[i].cards| - if excess <= 0 then 0 else Turns(i, |bs|, 0, excess)
  {
    hide Turns, Sum;
    var t := StartTrim(bs, maxItems);
    SumPointwise(CardCount, Same, bs, Counts(bs));
    TrimCounts(t);
    assert Counts(t.Run().buckets)[i] == |t.Run().buckets[i].cards|;
    if t.drop > 0 { TurnsTaken(t, i); }
  }

  // ------------------------------------------------------------------ two digests

  /** A section whose entries are not grouped, all of one kind and newest first, gives one card each. */
  lemma PlainSection(name: SectionName, kind: Kind, entries: seq<Entry>, cap: int)
    requires 0 < |entries| <= cap && Sorted(NewestFirst, entries)
    requires forall i :: 0 <= i < |entries| ==> entries[i].group.None? && entries[i].kind == kind
    ensures SectionBuckets(Section(name, entries), cap) == [KindBucket(name, kind, PlainCards(kind, entries), 0)]
  {
    hide GroupBy, SectionCards;
    var cards := PlainCards(kind, entries);
    PlainSectionCards(name, kind, entries);
    NoCardGroups();
    AddRun([], KindOf, cards, kind, []);
    assert [] + cards == cards;
    assert cards[..|cards|] == cards && cards[|cards|..] == [];
  }

  lemma PlainSectionCards(name: SectionName, kind: Kind, entries: seq<Entry>)
    requires Sorted(NewestFirst, entries)
    requires forall i :: 0 <= i < |entries| ==> entries[i].group.None? && entries[i].kind == kind
    ensures SectionCards(Section(name, entries)) == PlainCards(kind, entries)
  {
    hide GroupBy, SortBy;
    var indexed, cards := Indexed(entries), PlainCards(kind, entries);
    SortedStays(NewestFirst, entries);
    AloneGroups(indexed);
    var groups := GroupBy(CardKeyOf, indexed);
    forall i | 0 <= i < |entries| ensures CardsOf(groups)[i] == cards[i] {
      assert groups[i].items == [indexed[i]] && groups[i].items[..1] == [indexed[i]];
      assert EntriesOf([indexed[i]]) == [entries[i]];
    }
    assert CardsOf(groups) == cards;
  }

  lemma NoCardGroups()
    ensures GroupBy(KindOf, []) == []
  {
  }

  function PlainCards(kind: Kind, entries: seq<Entry>): seq<Card> {
    seq(|entries|, i requires 0 <= i < |entries| => Card(kind, [entries[i]], 0))
  }

  lemma {:induction false} AloneGroups(xs: seq<Numbered>)
    requires forall i :: 0 <= i < |xs| ==> xs[i].index == i && xs[i].entry.group.None?
    ensures GroupBy(CardKeyOf, xs) == seq(|xs|, i requires 0 <= i < |xs| => Bucket(Alone(i), [xs[i]]))
  {
    if xs != [] {
      var n := |xs| - 1;
      AloneGroups(xs[..n]);
      assert xs == xs[..n] + [xs[n]];
      GroupByPush(CardKeyOf, xs[..n], xs[n]);
      AddBehind(GroupBy(CardKeyOf, xs[..n]), CardKeyOf(xs[n]), [], xs[n]);
    }
  }

  function PlainEntry(kind: Kind, id: Id, createdAt: int): Entry { Entry(kind, [id], None, createdAt) }

  lemma TwoSections(a: Section, b: Section, cap: int)
    requires SectionRank(a) <= SectionRank(b)
    ensures SortBy(SectionRank, [a, b]) == [a, b]
    ensures AllBuckets([a, b], cap) == SectionBuckets(a, cap) + SectionBuckets(b, cap)
  {
    hide SectionBuckets;
    SortedStays(SectionRank, [a, b]);
    assert [a, b][..1] == [a] && [a][..0] == [];
    assert AllBuckets([a], cap) == AllBuckets([], cap) + SectionBuckets(a, cap);
  }

  /** The bucket trim of the digest below. */
  lemma LoneBucketIsCrowdedOut(lone: KindBucket, many: KindBucket)
    requires |lone.cards| == 1 && |many.cards| == 5
    ensures var r := StartTrim([lone, many], 5).Run().buckets;
      |r| == 2 && r[0].cards == [] && r[0].kind == lone.kind && r[1] == many
  {
    var t := StartTrim([lone, many], 5);
    SumConcat(CardCount, [lone], [many]);
    SumOne(CardCount, lone);
    SumOne(CardCount, many);
    assert [lone] + [many] == [lone, many];
    assert t.alive == [0, 1] && t.drop == 1;
    assert t.Run() == t.Step();
  }

  /** One interest match and five ticket prompts under a limit of five: the only interest match loses its
      card while the prompts keep all five. */
  lemma OneKindCanBeCrowdedOut()
    ensures var prompts := [PlainEntry(EventTicketPrompt, 1, 5), PlainEntry(EventTicketPrompt, 2, 4),
                            PlainEntry(EventTicketPrompt, 3, 3), PlainEntry(EventTicketPrompt, 4, 2),
                            PlainEntry(EventTicketPrompt, 5, 1)];
      var r := Balance([Section(Of(InterestMatches), [PlainEntry(InterestEvent, 0, 9)]),
                        Section(Of(TicketPrompt), prompts)], 5, 5);
      && |r| == 2 && r[0].kind == InterestEvent && r[0].cards == []
      && r[1].kind == EventTicketPrompt && |r[1].cards| == 5
  {
    hide SectionBuckets, SortBy, AllBuckets;
    var matches := [PlainEntry(InterestEvent, 0, 9)];
    var prompts := [PlainEntry(EventTicketPrompt, 1, 5), PlainEntry(EventTicketPrompt, 2, 4),
                    PlainEntry(EventTicketPrompt, 3, 3), PlainEntry(EventTicketPrompt, 4, 2),
                    PlainEntry(EventTicketPrompt, 5, 1)];
    PlainSection(Of(InterestMatches), InterestEvent, matches, 5);
    PlainSection(Of(TicketPrompt), EventTicketPrompt, prompts, 5);
    TwoSections(Section(Of(InterestMatches), matches), Section(Of(TicketPrompt), prompts), 5);
    var lone := KindBucket(Of(InterestMatches), InterestEvent, PlainCards(InterestEvent, matches), 0);
    var many := KindBucket(Of(TicketPrompt), EventTicketPrompt, PlainCards(EventTicketPrompt, prompts), 0);
    LoneBucketIsCrowdedOut(lone, many);
    assert [lone] + [many] == [lone, many];
  }

  function GoingEntry(id: Id, actor: UserId, createdAt: int): Entry {
    Entry(SubscriptionGoing, [id], Some(ByActor(actor)), createdAt)
  }

  /** One entry of one friend, two of another: two cards. */
  lemma PairSection(a: Entry, b: Entry, c: Entry)
    requires a == GoingEntry(1, 1, 3) && b == GoingEntry(2, 2, 2) && c == GoingEntry(3, 2, 1)
    ensures SectionBuckets(Section(Of(FriendsGoing), [a, b, c]), 5) ==
      [KindBucket(Of(FriendsGoing), SubscriptionGoing,
                  [Card(SubscriptionGoing, [a], 0), Card(SubscriptionGoing, [b, c], 0)], 0)]
  {
    hide GroupBy, SortBy;
    var s := Section(Of(FriendsGoing), [a, b, c]);
    SortedStays(NewestFirst, [a, b, c]);
    var x, y, z := Numbered(0, a), Numbered(1, b), Numbered(2, c);
    assert Indexed([a, b, c]) == [x, y, z];
    PairGroups(x, y, z);
    var groups := GroupBy(CardKeyOf, [x, y, z]);
    assert [x][..1] == [x] && [y, z][..2] == [y, z];
    assert EntriesOf([x]) == [a] && EntriesOf([y, z]) == [b, c];
    var cards := [Card(SubscriptionGoing, [a], 0), Card(SubscriptionGoing, [b, c], 0)];
    assert CardsOf(groups) == cards;
    NoCardGroups();
    AddRun([], KindOf, cards, SubscriptionGoing, []);
    assert [] + cards == cards;
    assert cards[..2] == cards && cards[2..] == [];
  }

  lemma PairGroups(x: Numbered, y: Numbered, z: Numbered)
    requires CardKeyOf(x) != CardKeyOf(y) && CardKeyOf(y) == CardKeyOf(z)
    ensures GroupBy(CardKeyOf, [x, y, z]) == [Bucket(CardKeyOf(x), [x]), Bucket(CardKeyOf(y), [y, z])]
  {
    var first := [Bucket(CardKeyOf(x), [x])];
    assert [x, y, z][..2] == [x, y] && [x, y][..1] == [x] && [x][..0] == [];
    assert GroupBy(CardKeyOf, [x]) == Add(GroupBy(CardKeyOf, []), CardKeyOf(x), x) == first;
    AddBehind(first, CardKeyOf(y), [], y);
    assert GroupBy(CardKeyOf, [x, y]) == first + [Bucket(CardKeyOf(y), [y])];
    AddBehind(first, CardKeyOf(y), [y], z);
    assert [y] + [z] == [y, z];
  }

  /** The bucket trim of the digest below. */
  lemma PairIsPopped(name: SectionName, kind: Kind, single: Card, pair: Card)
    ensures var bs := [KindBucket(name, kind, [single, pair], 0)];
      StartTrim(bs, 1).Run().buckets == [KindBucket(name, kind, [single], 1)]
  {
    var b := KindBucket(name, kind, [single, pair], 0);
    var t := StartTrim([b], 1);
    SumOne(CardCount, b);
    assert t.alive == [0] && t.drop == 1;
    assert t.Run() == t.Step();
    assert b.cards[..1] == [single];
  }

  /** Three entries, one of one friend and two of another, under a limit of one card: the digest shows one
      and announces one more. */
  lemma TrimmedPairCountsOnce()
    ensures var sections := [Section(Of(FriendsGoing),
                                     [GoingEntry(1, 1, 3), GoingEntry(2, 2, 2), GoingEntry(3, 2, 1)])];
      && Sum(EntryCount, sections) == 3
      && Balance(sections, 5, 1)
         == [KindBucket(Of(FriendsGoing), SubscriptionGoing, [Card(SubscriptionGoing, [GoingEntry(1, 1, 3)], 0)], 1)]
      && Sum(Announced, Balance(sections, 5, 1)) == 2
  {
    hide SectionBuckets, SortBy;
    var a, b, c := GoingEntry(1, 1, 3), GoingEntry(2, 2, 2), GoingEntry(3, 2, 1);
    var s := Section(Of(FriendsGoing), [a, b, c]);
    PairSection(a, b, c);
    SortedStays(SectionRank, [s]);
    assert [s][..0] == [] && AllBuckets([s], 5) == AllBuckets([], 5) + SectionBuckets(s, 5) == SectionBuckets(s, 5);
    var single, pair := Card(SubscriptionGoing, [a], 0), Card(SubscriptionGoing, [b, c], 0);
    PairIsPopped(Of(FriendsGoing), SubscriptionGoing, single, pair);
    SumOne(EntryCount, s);
    var left := KindBucket(Of(FriendsGoing), SubscriptionGoing, [single], 1);
    SumOne(Announced, left);
    SumOne(Weight, single);
  }

  // ------------------------------------------------------------------ what is rendered

  ghost predicate OnlyEntriesOf(bs: seq<KindBucket>, sections: seq<Section>) {
    forall i, c, e :: 0 <= i < |bs| && c in bs[i].cards && e in c.entries ==>
      exists s :: s in sections && e in s.entries
  }

  lemma SectionCardsHoldEntries(s: Section, c: Card, e: Entry)
    requires c in SectionCards(s) && e in c.entries
    ensures e in s.entries
  {
    var indexed := Indexed(SortBy(NewestFirst, s.entries));
    var i :| 0 <= i < |SectionCards(s)| && SectionCards(s)[i] == c;
    var g := GroupBy(CardKeyOf, indexed)[i];
    BucketNonempty(CardKeyOf, indexed, i);
    var j :| 0 <= j < |c.entries| && c.entries[j] == e;
    assert g.items[j] in g.items && g.items[j].entry == e;
    assert e in SortBy(NewestFirst, s.entries);
  }

  lemma SectionBucketsHoldEntries(s: Section, cap: int)
    ensures OnlyEntriesOf(SectionBuckets(s, cap), [s])
  {
    var bs := SectionBuckets(s, cap);
    forall i, c, e | 0 <= i < |bs| && c in bs[i].cards && e in c.entries
      ensures s in [s] && e in s.entries
    {
      BucketNonempty(KindOf, SectionCards(s), i);
      assert c in GroupBy(KindOf, SectionCards(s))[i].items;
      SectionCardsHoldEntries(s, c, e);
    }
  }

  lemma {:induction false} BucketsHoldEntries(sections: seq<Section>, cap: int)
    ensures OnlyEntriesOf(AllBuckets(sections, cap), sections)
  {
    if sections == [] {
      assert AllBuckets(sections, cap) == [];
    } else {
      hide OnlyEntriesOf, SectionBuckets;
      var n := |sections| - 1;
      BucketsHoldEntries(sections[..n], cap);
      SectionBucketsHoldEntries(sections[n], cap);
      HoldConcat(AllBuckets(sections[..n], cap), sections[..n], SectionBuckets(sections[n], cap), [sections[n]]);
      assert sections[..n] + [sections[n]] == sections;
    }
  }

  lemma HoldConcat(bs: seq<KindBucket>, ss: seq<Section>, bs': seq<KindBucket>, ss': seq<Section>)
    requires OnlyEntriesOf(bs, ss) && OnlyEntriesOf(bs', ss')
    ensures OnlyEntriesOf(bs + bs', ss + ss')
  {
    forall i, c, e | 0 <= i < |bs + bs'| && c in (bs + bs')[i].cards && e in c.entries
      ensures exists s :: s in ss + ss' && e in s.entries
    {
      if i < |bs| {
        var s :| s in ss && e in s.entries;
        assert s in ss + ss';
      } else {
        assert c in bs'[i - |bs|].cards;
        var s :| s in ss' && e in s.entries;
        assert s in ss + ss';
      }
    }
  }

  /** Cards show entries of the digest and nothing else. */
  lemma RenderedAreEntries(sections: seq<Section>, perKindCap: int, maxItems: int)
    ensures RenderedIds(Balance(sections, perKindCap, maxItems)) <= EntryIds(sections)
  {
    var t := TrimOf(sections, perKindCap, maxItems);
    var bs := Balance(sections, perKindCap, maxItems);
    BucketsHoldEntries(SortBy(SectionRank, sections), perKindCap);
    forall id | id in RenderedIds(bs) ensures id in EntryIds(sections) {
      var b, c :| b in bs && c in b.cards && id in IdsInCard(c);
      var i :| 0 <= i < |bs| && bs[i] == b;
      TrimKeepsPrefix(t, i);
      assert c in t.buckets[i].cards;
      var e :| e in c.entries && id in e.ids;
      var s :| s in SortBy(SectionRank, sections) && e in s.entries;
    }
  }

  lemma {:induction false} FilledCount(bs: seq<KindBucket>)
    requires Filled(bs)
    ensures Sum(CardCount, bs) >= |bs|
  {
    if bs != [] { FilledCount(bs[..|bs| - 1]); }
  }

  lemma CardRenders(bs: seq<KindBucket>, i: nat, c: Card, e: Entry)
    requires i < |bs| && c in bs[i].cards && e in c.entries && e.ids != []
    ensures RenderedIds(bs) != {}
  {
    var id := e.ids[0];
    assert e in c.entries && id in e.ids;
    assert id in IdsInCard(c);
    assert bs[i] in bs;
    assert id in RenderedIds(bs);
  }

  lemma SomeCardShown(sections: seq<Section>, perKindCap: int, maxItems: int) returns (i: nat)
    requires Sum(EntryCount, sections) > 0
    ensures i < |Balance(sections, perKindCap, maxItems)|
    ensures Balance(sections, perKindCap, maxItems)[i].cards != []
  {
    var sorted := SortBy(SectionRank, sections);
    var bs, all := Balance(sections, perKindCap, maxItems), AllBuckets(sorted, perKindCap);
    SumSorted(EntryCount, SectionRank, sections);
    BucketsAccount(sorted, perKindCap);
    AllBucketsFilled(sorted, perKindCap);
    FilledCount(all);
    BalanceCardCount(sections, perKindCap, maxItems);
    assert all != [];
    if forall i :: 0 <= i < |bs| ==> bs[i].cards == [] { NoCards(bs); }
    i :| 0 <= i < |bs| && bs[i].cards != [];
  }

  /** A digest with at least one entry always renders at least one notification, whatever the caps. */
  lemma BalanceRendersSomething(sections: seq<Section>, perKindCap: int, maxItems: int)
    requires Sum(EntryCount, sections) > 0
    requires forall s, e :: s in sections && e in s.entries ==> e.ids != []
    ensures RenderedIds(Balance(sections, perKindCap, maxItems)) != {}
  {
    var sorted := SortBy(SectionRank, sections);
    var t := TrimOf(sections, perKindCap, maxItems);
    var i := SomeCardShown(sections, perKindCap, maxItems);
    TrimKeepsPrefix(t, i);
    var c := t.Run().buckets[i].cards[0];
    assert c == t.buckets[i].cards[0];
    BucketsHoldEntries(sorted, perKindCap);
    AllBucketsFilled(sorted, perKindCap);
    assert c.entries[0] in c.entries;
    CardRenders(t.Run().buckets, i, c, c.entries[0]);
  }

  // ------------------------------------------------------------------ the algorithm, step by step

  /** `grouped` after some entries: each key with the card built so far. */
  function CardDict(groups: seq<Bucket<CardKey, Numbered>>): (r: seq<Bucket<CardKey, Card>>)
    requires AllNonempty(groups)
    ensures |r| == |groups|
  {
    seq(|groups|, i requires 0 <= i < |groups| => Bucket(groups[i].key, [CardOf(groups[i].items)]))
  }

  lemma {:induction false} FindInCardDict(groups: seq<Bucket<CardKey, Numbered>>, k: CardKey)
    requires AllNonempty(groups)
    ensures Find(CardDict(groups), k) == Find(groups, k)
  {
    if groups != [] {
      assert CardDict(groups)[1..] == CardDict(groups[1..]);
      FindInCardDict(groups[1..], k);
    }
  }

  lemma CardOfPush(items: seq<Numbered>, x: Numbered)
    requires items != []
    ensures var c := CardOf(items);
      CardOf(items + [x]) == if |c.entries| < MAX_ENTRIES_PER_CARD then c.(entries := c.entries + [x.entry])
                             else c.(more := c.more + 1)
  {
    var all := items + [x];
    if |items| < MAX_ENTRIES_PER_CARD {
      assert all[..|all|] == all && items[..|items|] == items;
      assert EntriesOf(all) == EntriesOf(items) + [x.entry];
    } else {
      assert all[..MAX_ENTRIES_PER_CARD] == items[..MAX_ENTRIES_PER_CARD];
    }
  }

  function PutEntry(card: Card, e: Entry): Card {
    if |card.entries| < MAX_ENTRIES_PER_CARD then card.(entries := card.entries + [e])
    else card.(more := card.more + 1)
  }

  lemma CardDictNew(groups: seq<Bucket<CardKey, Numbered>>, k: CardKey, x: Numbered)
    requires AllNonempty(groups)
    ensures CardDict(groups + [Bucket(k, [x])]) == CardDict(groups) + [Bucket(k, [Card(x.entry.kind, [x.entry], 0)])]
  {
    assert [x][..1] == [x] && EntriesOf([x]) == [x.entry];
  }

  lemma CardDictPush(groups: seq<Bucket<CardKey, Numbered>>, at: nat, x: Numbered)
    requires AllNonempty(groups) && at < |groups|
    ensures CardDict(groups)[at].items != []
    ensures var b := groups[at];
      CardDict(groups[at := b.(items := b.items + [x])])
        == CardDict(groups)[at := Bucket(b.key, [PutEntry(CardDict(groups)[at].items[0], x.entry)])]
  {
    var b := groups[at];
    assert b in groups;
    CardOfPush(b.items, x);
  }

  lemma CardDictStep(groups: seq<Bucket<CardKey, Numbered>>, x: Numbered)
    requires AllNonempty(groups)
    ensures var d, k := CardDict(groups), CardKeyOf(x);
      var at := Find(d, k);
      && (at < |d| ==> d[at].items != [])
      && CardDict(Add(groups, k, x)) ==
         if at == |d| then d + [Bucket(k, [Card(x.entry.kind, [x.entry], 0)])]
         else d[at := Bucket(k, [PutEntry(d[at].items[0], x.entry)])]
  {
    var k := CardKeyOf(x);
    AddAtFind(groups, k, x);
    FindInCardDict(groups, k);
    var at := Find(groups, k);
    if at == |groups| { CardDictNew(groups, k, x); } else { CardDictPush(groups, at, x); }
  }

  lemma CardDictCards(groups: seq<Bucket<CardKey, Numbered>>)
    requires AllNonempty(groups)
    ensures forall i :: 0 <= i < |groups| ==> CardDict(groups)[i].items == [CardsOf(groups)[i]]
  {
  }

  lemma NothingGrouped(s: Section, cap: int, numbered: seq<Numbered>, cards: seq<Card>)
    ensures CardDict(GroupBy(CardKeyOf, numbered[..0])) == []
    ensures BucketDict(s.name, cap, GroupBy(KindOf, cards[..0])) == []
  {
  }

  method BuildCards(s: Section) returns (cards: seq<Card>)
    ensures cards == SectionCards(s)
  {
    hide GroupBy, SortBy, CardDict, CardOf;
    var ordered := SortBy(NewestFirst, s.entries);
    ghost var numbered := Indexed(ordered);
    var grouped: seq<Bucket<CardKey, Card>> := [];
    NothingGrouped(s, 0, numbered, []);
    for index := 0 to |ordered|
      invariant grouped == CardDict(GroupBy(CardKeyOf, numbered[..index]))
    {
      var e := ordered[index];
      var key := CardKeyOf(Numbered(index, e));
      assert numbered[..index + 1] == numbered[..index] + [numbered[index]];
      GroupByPush(CardKeyOf, numbered[..index], numbered[index]);
      CardDictStep(GroupBy(CardKeyOf, numbered[..index]), numbered[index]);
      var at := Find(grouped, key);
      grouped := if at == |grouped| then grouped + [Bucket(key, [Card(e.kind, [e], 0)])]
                 else grouped[at := Bucket(key, [PutEntry(grouped[at].items[0], e)])];
    }
    assert numbered[..|ordered|] == numbered;
    CardDictCards(GroupBy(CardKeyOf, numbered));
    cards := seq(|grouped|, i requires 0 <= i < |grouped| => grouped[i].items[0]);
  }

  /** `buckets` of one section after some cards. */
  function BucketDict(name: SectionName, cap: int, groups: seq<Bucket<Kind, Card>>): (r: seq<Bucket<Kind, KindBucket>>)
    ensures |r| == |groups|
  {
    seq(|groups|, i requires 0 <= i < |groups| => Bucket(groups[i].key, [BucketOf(name, cap, groups[i])]))
  }

  lemma {:induction false} FindInBucketDict(name: SectionName, cap: int, groups: seq<Bucket<Kind, Card>>, k: Kind)
    ensures Find(BucketDict(name, cap, groups), k) == Find(groups, k)
  {
    if groups != [] {
      assert BucketDict(name, cap, groups)[1..] == BucketDict(name, cap, groups[1..]);
      FindInBucketDict(name, cap, groups[1..], k);
    }
  }

  lemma BucketOfPush(name: SectionName, cap: int, g: Bucket<Kind, Card>, c: Card)
    ensures var b := BucketOf(name, cap, g);
      BucketOf(name, cap, g.(items := g.items + [c]))
        == if |b.cards| < Max(1, cap) then b.(cards := b.cards + [c]) else b.(more := b.more + Weight(c))
  {
    var all, shown := g.items + [c], Max(1, cap);
    if |g.items| < shown {
      assert all[..|all|] == all && g.items[..|g.items|] == g.items && g.items[|g.items|..] == [] && all[|all|..] == [];
    } else {
      assert all[..shown] == g.items[..shown];
      assert all[shown..] == g.items[shown..] + [c];
      SumConcat(Weight, g.items[shown..], [c]);
      SumOne(Weight, c);
    }
  }

  function PutCard(b: KindBucket, cap: int, card: Card): KindBucket {
    if |b.cards| < Max(1, cap) then b.(cards := b.cards + [card])
    else b.(more := b.more + |card.entries| + card.more)
  }

  lemma BucketDictNew(name: SectionName, cap: int, groups: seq<Bucket<Kind, Card>>, c: Card)
    ensures BucketDict(name, cap, groups + [Bucket(c.kind, [c])])
         == BucketDict(name, cap, groups) + [Bucket(c.kind, [KindBucket(name, c.kind, [c], 0)])]
  {
    BucketOfPush(name, cap, Bucket(c.kind, []), c);
    assert [] + [c] == [c];
  }

  lemma BucketDictPush(name: SectionName, cap: int, groups: seq<Bucket<Kind, Card>>, at: nat, c: Card)
    requires at < |groups|
    ensures BucketDict(name, cap, groups)[at].items != []
    ensures var g := groups[at];
      BucketDict(name, cap, groups[at := g.(items := g.items + [c])])
        == BucketDict(name, cap, groups)[
             at := Bucket(g.key, [PutCard(BucketDict(name, cap, groups)[at].items[0], cap, c)])]
  {
    BucketOfPush(name, cap, groups[at], c);
  }

  lemma BucketDictStep(name: SectionName, cap: int, groups: seq<Bucket<Kind, Card>>, c: Card)
    ensures var d := BucketDict(name, cap, groups);
      var at := Find(d, c.kind);
      && (at < |d| ==> d[at].items != [])
      && BucketDict(name, cap, Add(groups, c.kind, c)) ==
         if at == |d| then d + [Bucket(c.kind, [KindBucket(name, c.kind, [c], 0)])]
         else d[at := Bucket(c.kind, [PutCard(d[at].items[0], cap, c)])]
  {
    AddAtFind(groups, c.kind, c);
    FindInBucketDict(name, cap, groups, c.kind);
    var at := Find(groups, c.kind);
    if at == |groups| { BucketDictNew(name, cap, groups, c); } else { BucketDictPush(name, cap, groups, at, c); }
  }

  method BuildBuckets(s: Section, cap: int) returns (buckets: seq<KindBucket>)
    ensures buckets == SectionBuckets(s, cap)
  {
    hide GroupBy, BucketOf, SectionCards;
    var cards := BuildCards(s);
    var dict: seq<Bucket<Kind, KindBucket>> := [];
    NothingGrouped(s, cap, [], cards);
    for i := 0 to |cards|
      invariant dict == BucketDict(s.name, cap, GroupBy(KindOf, cards[..i]))
    {
      var card := cards[i];
      assert cards[..i + 1] == cards[..i] + [card];
      GroupByPush(KindOf, cards[..i], card);
      BucketDictStep(s.name, cap, GroupBy(KindOf, cards[..i]), card);
      var at := Find(dict, card.kind);
      dict := if at == |dict| then dict + [Bucket(card.kind, [KindBucket(s.name, card.kind, [card], 0)])]
              else dict[at := Bucket(card.kind, [PutCard(dict[at].items[0], cap, card)])];
    }
    assert cards[..|cards|] == cards;
    buckets := seq(|dict|, i requires 0 <= i < |dict| => dict[i].items[0]);
  }

  method CountCards(buckets: array<KindBucket>) returns (total: int)
    ensures total == Sum(CardCount, buckets[..])
  {
    total := 0;
    for i := 0 to buckets.Length
      invariant total == Sum(CardCount, buckets[..i])
    {
      assert buckets[..i + 1][..i] == buckets[..i];
      total := total + |buckets[i].cards|;
    }
    assert buckets[..buckets.Length] == buckets[..];
  }

  method TrimRoundRobin(buckets: array<KindBucket>, maxItems: int)
    modifies buckets
    ensures buckets[..] == StartTrim(old(buckets[..]), maxItems).Run().buckets
  {
    var total := CountCards(buckets);
    var bucketList: seq<nat> := seq(buckets.Length, i => i);
    var drop, idx := total - Max(1, maxItems), 0;
    ghost var start := StartTrim(buckets[..], maxItems);
    ghost var t := start;
    while drop > 0 && bucketList != []
      invariant t.Valid() && t.Run() == start.Run()
      invariant buckets[..] == t.buckets && bucketList == t.alive && drop == t.drop && idx == t.turn
      decreases Max(drop, 0), |bucketList|
    {
      t := t.Step();
      var pos := idx % |bucketList|;
      var b := bucketList[pos];
      if buckets[b].cards != [] {
        var n := |buckets[b].cards| - 1;
        buckets[b] := buckets[b].(cards := buckets[b].cards[..n], more := buckets[b].more + 1);
        drop, idx := drop - 1, idx + 1;
      } else {
        bucketList := bucketList[..pos] + bucketList[pos + 1..];
      }
    }
  }

  method BuildAllBuckets(ordered: seq<Section>, cap: int) returns (all: seq<KindBucket>)
    ensures all == AllBuckets(ordered, cap)
  {
    all := [];
    for i := 0 to |ordered|
      invariant all == AllBuckets(ordered[..i], cap)
    {
      assert ordered[..i + 1][..i] == ordered[..i];
      var more := BuildBuckets(ordered[i], cap);
      all := all + more;
    }
    assert ordered[..|ordered|] == ordered;
  }

  /** The balancer as the code runs it computes `Balance`. */
  method BalanceSections(sections: seq<Section>, perKindCap: int, maxItems: int) returns (buckets: array<KindBucket>)
    ensures fresh(buckets)
    ensures buckets[..] == Balance(sections, perKindCap, maxItems)
  {
    var all := BuildAllBuckets(SortBy(SectionRank, sections), perKindCap);
    buckets := new KindBucket[|all|](i requires 0 <= i < |all| => all[i]);
    assert buckets[..] == all;
    TrimRoundRobin(buckets, maxItems);
  }
}
