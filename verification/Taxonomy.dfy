/** The tag taxonomy and a scenario's overrides of it: one layering loop, used for groups and again
    for the tags of a group, against its pointwise meaning. */
module Taxonomy {
  import opened Options
  import opened OrderedGroups

  type Slug = Option<string>

  // ------------------------------------------------------------------ layering any list

  datatype Over<O> = Over(remove: bool, given: O)

  /** How entries of a list are told apart and how given fields are laid over one; a missing entry is
      created from the given fields alone. */
  datatype Kit<!E, !O> = Kit(slugOf: E -> Slug, keyOf: O -> Slug, merge: (Option<E>, O) -> E)

  /** The first entry of that slug, as `next(...)`; the length when there is none. */
  function FirstWith<E>(slugOf: E -> Slug, entries: seq<E>, slug: Slug): (at: nat)
    ensures at <= |entries|
    ensures at < |entries| ==> slugOf(entries[at]) == slug
    ensures forall i :: 0 <= i < at ==> slugOf(entries[i]) != slug
  {
    if entries == [] || slugOf(entries[0]) == slug then 0 else 1 + FirstWith(slugOf, entries[1..], slug)
  }

  function Others<E(!new)>(slugOf: E -> Slug, slug: Slug): E -> bool { e => slugOf(e) != slug }

  function Step<E(!new), O>(kit: Kit<E, O>, entries: seq<E>, o: Over<O>): seq<E> {
    var at := FirstWith(kit.slugOf, entries, kit.keyOf(o.given));
    if o.remove then Filter(Others(kit.slugOf, kit.keyOf(o.given)), entries)
    else if at == |entries| then entries + [kit.merge(None, o.given)]
    else entries[at := kit.merge(Some(entries[at]), o.given)]
  }

  /** The loop over the overrides. */
  function Layer<E(!new), O>(kit: Kit<E, O>, base: seq<E>, overs: seq<Over<O>>): seq<E> {
    if overs == [] then base else
      var n := |overs| - 1;
      Step(kit, Layer(kit, base, overs[..n]), overs[n])
  }

  // ------------------------------------------------------------------ its meaning

  function OverFor<E, O>(kit: Kit<E, O>, overs: seq<Over<O>>, slug: Slug): Option<Over<O>> {
    if overs == [] then None else
      var n := |overs| - 1;
      if kit.keyOf(overs[n].given) == slug then Some(overs[n]) else OverFor(kit, overs[..n], slug)
  }

  /** What becomes of one base entry. */
  function Overlaid<E, O>(kit: Kit<E, O>, e: E, o: Option<Over<O>>): seq<E> {
    if o.None? then [e] else if o.value.remove then [] else [kit.merge(Some(e), o.value.given)]
  }

  /** The base entries that stay, in base order. */
  function Kept<E, O>(kit: Kit<E, O>, base: seq<E>, overs: seq<Over<O>>): seq<E> {
    if base == [] then [] else
      var n := |base| - 1;
      Kept(kit, base[..n], overs) + Overlaid(kit, base[n], OverFor(kit, overs, kit.slugOf(base[n])))
  }

  predicate Holds<E>(slugOf: E -> Slug, entries: seq<E>, slug: Slug) { FirstWith(slugOf, entries, slug) < |entries| }

  /** The entries of unknown slugs, in override order. */
  function Added<E, O>(kit: Kit<E, O>, base: seq<E>, overs: seq<Over<O>>): seq<E> {
    if overs == [] then [] else
      var n := |overs| - 1;
      Added(kit, base, overs[..n]) +
      if overs[n].remove || Holds(kit.slugOf, base, kit.keyOf(overs[n].given)) then []
      else [kit.merge(None, overs[n].given)]
  }

  /** Slugs are distinct in the list, and among the overrides. */
  ghost predicate Distinct<E>(slugOf: E -> Slug, entries: seq<E>) {
    forall i, j :: 0 <= i < j < |entries| ==> slugOf(entries[i]) != slugOf(entries[j])
  }

  ghost predicate DistinctOvers<E, O>(kit: Kit<E, O>, overs: seq<Over<O>>) {
    forall i, j :: 0 <= i < j < |overs| ==> kit.keyOf(overs[i].given) != kit.keyOf(overs[j].given)
  }

  /** Laying an override over an entry of its slug, or over none, gives an entry of that slug. */
  ghost predicate KeepsSlugs<E(!new), O(!new)>(kit: Kit<E, O>) {
    && (forall given: O :: kit.slugOf(kit.merge(None, given)) == kit.keyOf(given))
    && (forall e: E, given: O :: kit.slugOf(e) == kit.keyOf(given) ==>
      kit.slugOf(kit.merge(Some(e), given)) == kit.keyOf(given))
  }

  lemma {:induction false} NoOver<E, O>(kit: Kit<E, O>, overs: seq<Over<O>>, slug: Slug)
    ensures OverFor(kit, overs, slug).None? <==> forall i :: 0 <= i < |overs| ==> kit.keyOf(overs[i].given) != slug
    ensures OverFor(kit, overs, slug).Some? ==>
      OverFor(kit, overs, slug).value in overs && kit.keyOf(OverFor(kit, overs, slug).value.given) == slug
  {
    if overs != [] {
      var n := |overs| - 1;
      NoOver(kit, overs[..n], slug);
      assert forall i :: 0 <= i < n ==> overs[..n][i] == overs[i];
    }
  }

  lemma {:induction false} KeptConcat<E, O>(kit: Kit<E, O>, xs: seq<E>, ys: seq<E>, overs: seq<Over<O>>)
    ensures Kept(kit, xs + ys, overs) == Kept(kit, xs, overs) + Kept(kit, ys, overs)
  {
    if ys == [] {
      assert xs + ys == xs;
    } else {
      var n := |ys| - 1;
      assert (xs + ys)[..|xs| + n] == xs + ys[..n];
      KeptConcat(kit, xs, ys[..n], overs);
    }
  }

  /** No entry kept from entries of other slugs has this slug, and an override of it is irrelevant. */
  lemma {:induction false} KeptApart<E(!new), O(!new)>(kit: Kit<E, O>, base: seq<E>, overs: seq<Over<O>>, o: Over<O>)
    requires KeepsSlugs(kit) && forall i :: 0 <= i < |base| ==> kit.slugOf(base[i]) != kit.keyOf(o.given)
    ensures Kept(kit, base, overs + [o]) == Kept(kit, base, overs)
    ensures forall e {:trigger e in Kept(kit, base, overs)} :: e in Kept(kit, base, overs) ==>
      kit.slugOf(e) != kit.keyOf(o.given)
  {
    if base != [] {
      var n := |base| - 1;
      KeptApart(kit, base[..n], overs, o);
      assert (overs + [o])[..|overs|] == overs;
      NoOver(kit, overs, kit.slugOf(base[n]));
    }
  }

  lemma {:induction false} AddedApart<E(!new), O(!new)>(kit: Kit<E, O>, base: seq<E>, overs: seq<Over<O>>, slug: Slug)
    requires KeepsSlugs(kit) && forall i :: 0 <= i < |overs| ==> kit.keyOf(overs[i].given) != slug
    ensures forall e {:trigger e in Added(kit, base, overs)} :: e in Added(kit, base, overs) ==> kit.slugOf(e) != slug
  {
    if overs != [] { AddedApart(kit, base, overs[..|overs| - 1], slug); }
  }

  lemma {:induction false} FilterAll<E(!new)>(p: E -> bool, xs: seq<E>)
    requires forall e :: e in xs ==> p(e)
    ensures Filter(p, xs) == xs
  {
    if xs != [] {
      var n := |xs| - 1;
      assert xs == xs[..n] + [xs[n]];
      FilterAll(p, xs[..n]);
    }
  }

  lemma {:induction false} FilterConcat<E(!new)>(p: E -> bool, xs: seq<E>, ys: seq<E>)
    ensures Filter(p, xs + ys) == Filter(p, xs) + Filter(p, ys)
  {
    if ys == [] {
      assert xs + ys == xs;
    } else {
      var n := |ys| - 1;
      assert (xs + ys)[..|xs| + n] == xs + ys[..n];
      FilterConcat(p, xs, ys[..n]);
    }
  }

  /** One override step on a list whose only entry of that slug is `e`. */
  lemma StepInside<E(!new), O(!new)>(kit: Kit<E, O>, front: seq<E>, e: E, back: seq<E>, o: Over<O>)
    requires kit.slugOf(e) == kit.keyOf(o.given)
    requires forall x :: x in front || x in back ==> kit.slugOf(x) != kit.keyOf(o.given)
    ensures Step(kit, front + ([e] + back), o) == front + (Overlaid(kit, e, Some(o)) + back)
  {
    var all := front + ([e] + back);
    var p := Others(kit.slugOf, kit.keyOf(o.given));
    if o.remove {
      FilterConcat(p, front, [e] + back);
      FilterConcat(p, [e], back);
      FilterAll(p, front);
      FilterAll(p, back);
      assert Filter(p, [e]) == [];
    } else {
      var at := FirstWith(kit.slugOf, all, kit.keyOf(o.given));
      assert all[|front|] == e;
      assert forall i :: 0 <= i < |front| ==> all[i] in front;
      assert at == |front|;
    }
  }

  lemma StepOutside<E(!new), O(!new)>(kit: Kit<E, O>, entries: seq<E>, o: Over<O>)
    requires forall x :: x in entries ==> kit.slugOf(x) != kit.keyOf(o.given)
    ensures Step(kit, entries, o) == entries + if o.remove then [] else [kit.merge(None, o.given)]
  {
    if o.remove { FilterAll(Others(kit.slugOf, kit.keyOf(o.given)), entries); }
  }

  /** The merged list is the pointwise overlay: of the base entries exactly the removed slugs are gone
      and the overridden ones changed, in base order, followed by the unknown slugs in override order. */
  lemma {:induction false} LayerIsOverlay<E(!new), O(!new)>(kit: Kit<E, O>, base: seq<E>, overs: seq<Over<O>>)
    requires KeepsSlugs(kit) && Distinct(kit.slugOf, base) && DistinctOvers(kit, overs)
    ensures Layer(kit, base, overs) == Kept(kit, base, overs) + Added(kit, base, overs)
  {
    hide Kept, Added, Step, Layer, KeepsSlugs;
    if overs == [] {
      KeptPlain(kit, base);
      NoOverrides(kit, base);
    } else {
      var n := |overs| - 1;
      var before, o := overs[..n], overs[n];
      LayerIsOverlay(kit, base, before);
      assert overs == before + [o];
      Unrolled(kit, base, before, o);
      AddedApart(kit, base, before, kit.keyOf(o.given));
      var at := FirstWith(kit.slugOf, base, kit.keyOf(o.given));
      if at == |base| {
        KeptApart(kit, base, before, o);
        StepOutside(kit, Kept(kit, base, before) + Added(kit, base, before), o);
      } else {
        OneEntry(kit, base, before, o, at);
      }
    }
  }

  lemma NoOverrides<E(!new), O>(kit: Kit<E, O>, base: seq<E>)
    ensures Layer(kit, base, []) == base && Added(kit, base, []) == []
  {
  }

  lemma Unrolled<E(!new), O>(kit: Kit<E, O>, base: seq<E>, before: seq<Over<O>>, o: Over<O>)
    ensures Layer(kit, base, before + [o]) == Step(kit, Layer(kit, base, before), o)
    ensures Added(kit, base, before + [o]) == Added(kit, base, before) +
      if o.remove || Holds(kit.slugOf, base, kit.keyOf(o.given)) then [] else [kit.merge(None, o.given)]
  {
    assert (before + [o])[..|before|] == before;
  }

  lemma OneEntry<E(!new), O(!new)>(kit: Kit<E, O>, base: seq<E>, before: seq<Over<O>>, o: Over<O>, at: nat)
    requires KeepsSlugs(kit) && Distinct(kit.slugOf, base) && at < |base| && kit.slugOf(base[at]) == kit.keyOf(o.given)
    requires forall i :: 0 <= i < |before| ==> kit.keyOf(before[i].given) != kit.keyOf(o.given)
    ensures Step(kit, Kept(kit, base, before) + Added(kit, base, before), o) ==
            Kept(kit, base, before + [o]) + Added(kit, base, before)
  {
    hide Kept, Added, Step, OverFor, Overlaid, KeepsSlugs;
    var front, e, back := base[..at], base[at], base[at + 1..];
    assert base == front + ([e] + back);
    forall i | 0 <= i < |front| ensures kit.slugOf(front[i]) != kit.keyOf(o.given) { assert front[i] == base[i]; }
    forall i | 0 <= i < |back| ensures kit.slugOf(back[i]) != kit.keyOf(o.given) { assert back[i] == base[at + 1 + i]; }
    KeptApart(kit, front, before, o);
    KeptApart(kit, back, before, o);
    OverOf(kit, e, before, o);
    KeptAround(kit, front, e, back, before);
    KeptAround(kit, front, e, back, before + [o]);
    AddedApart(kit, base, before, kit.keyOf(o.given));
    var fronts, backs, added := Kept(kit, front, before), Kept(kit, back, before), Added(kit, base, before);
    StepInside(kit, fronts, e, backs + added, o);
    Regroup(fronts, [e], backs, added);
    Regroup(fronts, Overlaid(kit, e, Some(o)), backs, added);
  }

  lemma Regroup<E>(a: seq<E>, b: seq<E>, c: seq<E>, d: seq<E>)
    ensures (a + (b + c)) + d == a + (b + (c + d))
  {
  }

  lemma OverOf<E, O>(kit: Kit<E, O>, e: E, before: seq<Over<O>>, o: Over<O>)
    requires kit.slugOf(e) == kit.keyOf(o.given) && forall i :: 0 <= i < |before| ==>
      kit.keyOf(before[i].given) != kit.keyOf(o.given)
    ensures OverFor(kit, before + [o], kit.keyOf(o.given)) == Some(o)
    ensures Overlaid(kit, e, OverFor(kit, before, kit.keyOf(o.given))) == [e]
  {
    NoOver(kit, before, kit.keyOf(o.given));
  }

  lemma KeptOne<E, O>(kit: Kit<E, O>, e: E, overs: seq<Over<O>>)
    ensures Kept(kit, [e], overs) == Overlaid(kit, e, OverFor(kit, overs, kit.slugOf(e)))
  {
    assert [e][..0] == [];
    assert Kept(kit, [e][..0], overs) == [];
  }

  lemma KeptAround<E(!new), O(!new)>(kit: Kit<E, O>, front: seq<E>, e: E, back: seq<E>, overs: seq<Over<O>>)
    ensures Kept(kit, front + ([e] + back), overs) ==
            Kept(kit, front, overs) + (Overlaid(kit, e, OverFor(kit, overs, kit.slugOf(e))) + Kept(kit, back, overs))
  {
    hide Kept, Overlaid, OverFor;
    KeptConcat(kit, front, [e] + back, overs);
    KeptConcat(kit, [e], back, overs);
    KeptOne(kit, e, overs);
  }

  lemma {:induction false} KeptPlain<E, O>(kit: Kit<E, O>, base: seq<E>)
    ensures Kept(kit, base, []) == base
  {
    if base != [] { KeptPlain(kit, base[..|base| - 1]); }
  }

  // ------------------------------------------------------------------ pointwise, and twice

  function Lookup<E>(slugOf: E -> Slug, entries: seq<E>, slug: Slug): Option<E> {
    var at := FirstWith(slugOf, entries, slug);
    if at == |entries| then None else Some(entries[at])
  }

  lemma {:induction false} LookupPush<E>(slugOf: E -> Slug, entries: seq<E>, e: E, slug: Slug)
    ensures Lookup(slugOf, entries + [e], slug) ==
      if Lookup(slugOf, entries, slug).Some? then Lookup(slugOf, entries, slug)
      else if slugOf(e) == slug then Some(e) else None
  {
    var at := FirstWith(slugOf, entries, slug);
    var all := entries + [e];
    assert forall i :: 0 <= i < |entries| ==> all[i] == entries[i];
    assert all[|entries|] == e;
    assert FirstWith(slugOf, all, slug) == if at == |entries| && slugOf(e) != slug then at + 1 else at;
  }

  lemma {:induction false} LookupFiltered<E(!new)>(slugOf: E -> Slug, entries: seq<E>, gone: Slug, slug: Slug)
    ensures Lookup(slugOf, Filter(Others(slugOf, gone), entries), slug) ==
            if slug == gone then None else Lookup(slugOf, entries, slug)
  {
    if entries != [] {
      var n := |entries| - 1;
      assert entries == entries[..n] + [entries[n]];
      LookupFiltered(slugOf, entries[..n], gone, slug);
      LookupPush(slugOf, entries[..n], entries[n], slug);
      LookupPush(slugOf, Filter(Others(slugOf, gone), entries[..n]), entries[n], slug);
      assert Filter(Others(slugOf, gone), entries[..n]) + [] == Filter(Others(slugOf, gone), entries[..n]);
    }
  }

  lemma LookupStep<E(!new), O(!new)>(kit: Kit<E, O>, entries: seq<E>, o: Over<O>, slug: Slug)
    requires KeepsSlugs(kit)
    ensures Lookup(kit.slugOf, Step(kit, entries, o), slug) ==
      if slug != kit.keyOf(o.given) then Lookup(kit.slugOf, entries, slug)
      else if o.remove then None
      else Some(kit.merge(Lookup(kit.slugOf, entries, slug), o.given))
  {
    var at := FirstWith(kit.slugOf, entries, kit.keyOf(o.given));
    if o.remove {
      LookupFiltered(kit.slugOf, entries, kit.keyOf(o.given), slug);
    } else if at == |entries| {
      LookupPush(kit.slugOf, entries, kit.merge(None, o.given), slug);
    } else {
      var stepped := Step(kit, entries, o);
      assert forall i :: 0 <= i < |entries| ==> kit.slugOf(stepped[i]) == kit.slugOf(entries[i]);
      var was, now := FirstWith(kit.slugOf, entries, slug), FirstWith(kit.slugOf, stepped, slug);
      assert was == now;
    }
  }

  /** What the merged list holds for any slug at all: the base entry, or the override laid over it, or
      nothing once removed. Holds even for a base with repeated slugs. */
  lemma {:induction false} LayerPointwise<E(!new), O(!new)>(kit: Kit<E, O>, base: seq<E>, overs: seq<Over<O>>,
                                                            slug: Slug)
    requires KeepsSlugs(kit) && DistinctOvers(kit, overs)
    ensures var o, was := OverFor(kit, overs, slug), Lookup(kit.slugOf, base, slug);
      Lookup(kit.slugOf, Layer(kit, base, overs), slug) ==
        if o.None? then was else if o.value.remove then None else Some(kit.merge(was, o.value.given))
  {
    if overs != [] {
      var n := |overs| - 1;
      LayerPointwise(kit, base, overs[..n], slug);
      LookupStep(kit, Layer(kit, base, overs[..n]), overs[n], slug);
      NoOver(kit, overs[..n], slug);
    }
  }

  /** Laying the same fields over an entry twice is laying them once. */
  ghost predicate Settles<E(!new), O(!new)>(kit: Kit<E, O>, overs: seq<Over<O>>) {
    forall o, x: Option<E> :: o in overs && !o.remove ==>
      kit.merge(Some(kit.merge(x, o.given)), o.given) == kit.merge(x, o.given)
  }

  lemma StepSettled<E(!new), O(!new)>(kit: Kit<E, O>, base: seq<E>, overs: seq<Over<O>>, k: nat)
    requires KeepsSlugs(kit) && DistinctOvers(kit, overs) && Settles(kit, overs) && k < |overs|
    ensures Step(kit, Layer(kit, base, overs), overs[k]) == Layer(kit, base, overs)
  {
    var merged, o := Layer(kit, base, overs), overs[k];
    LayerPointwise(kit, base, overs, kit.keyOf(o.given));
    NoOver(kit, overs, kit.keyOf(o.given));
    var at := FirstWith(kit.slugOf, merged, kit.keyOf(o.given));
    if o.remove {
      forall e | e in merged ensures kit.slugOf(e) != kit.keyOf(o.given) {
        var i :| 0 <= i < |merged| && merged[i] == e;
      }
      FilterAll(Others(kit.slugOf, kit.keyOf(o.given)), merged);
    } else {
      assert o in overs;
    }
  }

  /** Merging the same overrides again changes nothing. */
  lemma {:induction false} LayerTwice<E(!new), O(!new)>(kit: Kit<E, O>, base: seq<E>, overs: seq<Over<O>>, n: nat)
    requires KeepsSlugs(kit) && DistinctOvers(kit, overs) && Settles(kit, overs) && n <= |overs|
    ensures Layer(kit, Layer(kit, base, overs), overs[..n]) == Layer(kit, base, overs)
  {
    if n > 0 {
      assert overs[..n][..n - 1] == overs[..n - 1];
      LayerTwice(kit, base, overs, n - 1);
      StepSettled(kit, base, overs, n - 1);
    }
  }

  // ------------------------------------------------------------------ groups and tags

  /** A YAML mapping without its `tags`. */
  type Fields = map<string, string>

  datatype Group = Group(fields: Fields, tags: Option<seq<Fields>>)

  datatype GroupGiven = GroupGiven(fields: Fields, tags: seq<Over<Fields>>)

  datatype Document = Document(other: Fields, groups: Option<seq<Group>>)

  function SlugOf(fields: Fields): Slug { if "slug" in fields then Some(fields["slug"]) else None }

  function TagList(tags: Option<seq<Fields>>): seq<Fields> { if tags.Some? then tags.value else [] }

  /** `update`, or a copy of the given fields. */
  function MergeTag(tag: Option<Fields>, given: Fields): Fields { if tag.None? then given else tag.value + given }

  const TAGS := Kit(SlugOf, SlugOf, MergeTag)

  function GroupSlug(g: Group): Slug { SlugOf(g.fields) }

  function GivenSlug(g: GroupGiven): Slug { SlugOf(g.fields) }

  function MergeGroup(group: Option<Group>, given: GroupGiven): Group {
    var g := if group.Some? then group.value else Group(map[], None);
    Group(g.fields + given.fields, Some(Layer(TAGS, TagList(g.tags), given.tags)))
  }

  const GROUPS := Kit(GroupSlug, GivenSlug, MergeGroup)

  function Merge(base: Document, overs: seq<Over<GroupGiven>>): Document {
    base.(groups := Some(Layer(GROUPS, if base.groups.Some? then base.groups.value else [], overs)))
  }

  lemma KitsKeepSlugs()
    ensures KeepsSlugs(TAGS) && KeepsSlugs(GROUPS)
  {
  }

  /** No slug twice among the overrides, at either level. */
  ghost predicate DistinctSlugs(overs: seq<Over<GroupGiven>>) {
    DistinctOvers(GROUPS, overs) && forall o :: o in overs ==> DistinctOvers(TAGS, o.given.tags)
  }

  /** The whole taxonomy: groups, and within each overridden group its tags, are the pointwise
      overlay in base order with the new slugs behind. */
  lemma MergedTaxonomy(base: Document, overs: seq<Over<GroupGiven>>, o: Over<GroupGiven>, group: Option<Group>)
    requires DistinctSlugs(overs) && o in overs
    requires var groups := if base.groups.Some? then base.groups.value else [];
      && Distinct(GroupSlug, groups) && group == Lookup(GroupSlug, groups, GivenSlug(o.given))
      && (group.Some? ==> Distinct(SlugOf, TagList(group.value.tags)))
    ensures var groups := if base.groups.Some? then base.groups.value else [];
      Merge(base, overs).groups == Some(Kept(GROUPS, groups, overs) + Added(GROUPS, groups, overs))
    ensures var merged, tags := Merge(base, overs).groups.value, if group.Some? then TagList(group.value.tags) else [];
      var at := FirstWith(GroupSlug, merged, GivenSlug(o.given));
      if o.remove then at == |merged| else
        && at < |merged|
        && merged[at].fields == (if group.Some? then group.value.fields else map[]) + o.given.fields
        && merged[at].tags == Some(Kept(TAGS, tags, o.given.tags) + Added(TAGS, tags, o.given.tags))
  {
    KitsKeepSlugs();
    var groups := if base.groups.Some? then base.groups.value else [];
    LayerIsOverlay(GROUPS, groups, overs);
    LayerPointwise(GROUPS, groups, overs, GivenSlug(o.given));
    NoOver(GROUPS, overs, GivenSlug(o.given));
    LayerIsOverlay(TAGS, if group.Some? then TagList(group.value.tags) else [], o.given.tags);
  }

  /** And one tag of a group that is laid over, field by field: what the override gives replaces or adds to what
      the base has; a removed one is gone, and one the override does not name is the base's. */
  lemma MergedTag(base: seq<Fields>, given: seq<Over<Fields>>, slug: Slug)
    requires Distinct(SlugOf, base) && DistinctOvers(TAGS, given)
    ensures var before, after := Lookup(SlugOf, base, slug), Lookup(SlugOf, Layer(TAGS, base, given), slug);
      && (forall o :: o in given && SlugOf(o.given) == slug ==>
            if o.remove then after == None
            else after.Some? && forall key ::
              && (key in after.value <==> key in o.given || (before.Some? && key in before.value))
              && (key in after.value ==>
                    after.value[key] == if key in o.given then o.given[key] else before.value[key]))
      && ((forall o :: o in given ==> SlugOf(o.given) != slug) ==> after == before)
  {
    KitsKeepSlugs();
    LayerPointwise(TAGS, base, given, slug);
    NoOver(TAGS, given, slug);
  }

  predicate Named(fields: Fields, slug: string) { "slug" in fields && fields["slug"] == slug }

  /** Every mapping of a list has a slug and no two have the same. */
  ghost predicate AllNamedApart(list: seq<Fields>) {
    && (forall f :: f in list ==> "slug" in f)
    && forall i, j :: 0 <= i < j < |list| ==> list[i]["slug"] != list[j]["slug"]
  }

  predicate IsNew(list: seq<Fields>, f: Fields)
    requires forall g :: g in list ==> "slug" in g
  {
    "slug" in f && forall g :: g in list ==> g["slug"] != f["slug"]
  }

  lemma NamedApart(list: seq<Fields>, f: Fields)
    requires AllNamedApart(list) && f in list
    ensures Distinct(SlugOf, list) && Lookup(SlugOf, list, Some(f["slug"])) == Some(f)
  {
    var i :| 0 <= i < |list| && list[i] == f;
    FirstAt(SlugOf, list, i);
  }

  lemma {:induction false} FirstAt<E>(slugOf: E -> Slug, entries: seq<E>, i: nat)
    requires i < |entries| && forall j :: 0 <= j < |entries| && j != i ==> slugOf(entries[j]) != slugOf(entries[i])
    ensures FirstWith(slugOf, entries, slugOf(entries[i])) == i
  {
    if i > 0 { FirstAt(slugOf, entries[1..], i - 1); }
  }

  /** Of a group's tags the named ones are laid over or removed, the others stay, unknown ones are added. */
  lemma MergedTags(tags: seq<Fields>, given: seq<Over<Fields>>)
    requires AllNamedApart(tags) && DistinctOvers(TAGS, given)
    ensures var merged := Layer(TAGS, tags, given);
      && (forall t, p :: t in tags && p in given && Named(p.given, t["slug"]) ==>
            if p.remove then forall u :: u in merged ==> !Named(u, t["slug"]) else t + p.given in merged)
      && (forall t :: t in tags && (forall p :: p in given ==> !Named(p.given, t["slug"])) ==> t in merged)
      && (forall p :: p in given && !p.remove && IsNew(tags, p.given) ==> p.given in merged)
  {
    var merged := Layer(TAGS, tags, given);
    forall t | t in tags
      ensures forall p :: p in given && Named(p.given, t["slug"]) ==>
        if p.remove then forall u :: u in merged ==> !Named(u, t["slug"]) else t + p.given in merged
      ensures (forall p :: p in given ==> !Named(p.given, t["slug"])) ==> t in merged {
      NamedApart(tags, t);
      TagAfter(tags, given, Some(t["slug"]));
      hide Layer, Lookup;
    }
    forall p | p in given && !p.remove && IsNew(tags, p.given) ensures p.given in merged {
      assert Lookup(SlugOf, tags, Some(p.given["slug"])) == None;
      TagAfter(tags, given, Some(p.given["slug"]));
    }
  }

  /** A group the override names takes the fields it is given over its own, and its tags are merged in turn; an
      override that removes the group leaves none of its slug. */
  lemma MergedGroup(base: seq<Group>, overs: seq<Over<GroupGiven>>, i: nat, o: Over<GroupGiven>, slug: string)
    requires i < |base| && o in overs && Named(base[i].fields, slug) && Named(o.given.fields, slug)
    requires forall j :: 0 <= j < |base| && j != i ==> !Named(base[j].fields, slug)
    requires DistinctSlugs(overs)
    ensures var groups := Merge(Document(map[], Some(base)), overs).groups;
      && groups.Some?
      && if o.remove then forall g :: g in groups.value ==> !Named(g.fields, slug)
         else
           var tags := if base[i].tags.Some? then base[i].tags.value else [];
           Group(base[i].fields + o.given.fields, Some(Layer(TAGS, tags, o.given.tags))) in groups.value
  {
    KitsKeepSlugs();
    FirstAt(GroupSlug, base, i);
    LayerPointwise(GROUPS, base, overs, Some(slug));
    NoOver(GROUPS, overs, Some(slug));
    var groups := Layer(GROUPS, base, overs);
    assert OverFor(GROUPS, overs, Some(slug)) == Some(o);
    hide Layer;
    if o.remove { NoneLeft(GroupSlug, groups, Some(slug)); }
  }

  lemma TagAfter(tags: seq<Fields>, given: seq<Over<Fields>>, slug: Slug)
    requires DistinctOvers(TAGS, given)
    ensures var before, after := Lookup(SlugOf, tags, slug), Layer(TAGS, tags, given);
      && (forall p :: p in given && SlugOf(p.given) == slug ==>
            if p.remove then forall u :: u in after ==> SlugOf(u) != slug
            else (if before.Some? then before.value + p.given else p.given) in after)
      && (before.Some? && (forall p :: p in given ==> SlugOf(p.given) != slug) ==> before.value in after)
  {
    KitsKeepSlugs();
    LayerPointwise(TAGS, tags, given, slug);
    NoOver(TAGS, given, slug);
    if Lookup(SlugOf, Layer(TAGS, tags, given), slug).None? { NoneLeft(SlugOf, Layer(TAGS, tags, given), slug); }
  }

  lemma {:induction false} NoneLeft<E>(slugOf: E -> Slug, entries: seq<E>, slug: Slug)
    requires Lookup(slugOf, entries, slug).None?
    ensures forall e :: e in entries ==> slugOf(e) != slug
  {
    if entries != [] && slugOf(entries[0]) != slug { NoneLeft(slugOf, entries[1..], slug); }
  }

  /** The rest of the document stays as it is. */
  lemma RestStays(base: Document, overs: seq<Over<GroupGiven>>)
    ensures Merge(base, overs).other == base.other && Merge(base, overs).groups.Some?
  {
  }

  /** Merging the same overrides into the result again changes nothing. */
  lemma MergeTwice(base: Document, overs: seq<Over<GroupGiven>>)
    requires DistinctSlugs(overs)
    ensures Merge(Merge(base, overs), overs) == Merge(base, overs)
  {
    KitsKeepSlugs();
    forall o, x: Option<Group> | o in overs && !o.remove
      ensures MergeGroup(Some(MergeGroup(x, o.given)), o.given) == MergeGroup(x, o.given)
    {
      var g := if x.Some? then x.value else Group(map[], None);
      TagsSettle(o.given.tags);
      LayerTwice(TAGS, TagList(g.tags), o.given.tags, |o.given.tags|);
      assert o.given.tags[..|o.given.tags|] == o.given.tags;
      assert (g.fields + o.given.fields) + o.given.fields == g.fields + o.given.fields;
    }
    LayerTwice(GROUPS, if base.groups.Some? then base.groups.value else [], overs, |overs|);
    assert overs[..|overs|] == overs;
  }

  lemma TagsSettle(overs: seq<Over<Fields>>)
    ensures Settles(TAGS, overs)
  {
    forall o, x: Option<Fields> | o in overs && !o.remove
      ensures MergeTag(Some(MergeTag(x, o.given)), o.given) == MergeTag(x, o.given)
    {
      assert o.given + o.given == o.given;
      if x.Some? { assert (x.value + o.given) + o.given == x.value + o.given; }
    }
  }

  // ------------------------------------------------------------------ the loops

  lemma LayerPush<E(!new), O(!new)>(kit: Kit<E, O>, base: seq<E>, overs: seq<Over<O>>, i: nat)
    requires i <= |overs|
    ensures Layer(kit, base, overs[..0]) == base
    ensures i < |overs| ==> Layer(kit, base, overs[..i + 1]) == Step(kit, Layer(kit, base, overs[..i]), overs[i])
  {
    if i < |overs| { assert overs[..i + 1][..i] == overs[..i]; }
  }

  lemma TagStep(tags: seq<Fields>, o: Over<Fields>)
    ensures var at := FirstWith(SlugOf, tags, SlugOf(o.given));
      Step(TAGS, tags, o) ==
        if o.remove then Filter(Others(SlugOf, SlugOf(o.given)), tags)
        else if at == |tags| then tags + [o.given]
        else tags[at := tags[at] + o.given]
  {
  }

  lemma GroupStep(groups: seq<Group>, o: Over<GroupGiven>)
    ensures var at := FirstWith(GroupSlug, groups, GivenSlug(o.given));
      Step(GROUPS, groups, o) ==
        if o.remove then Filter(Others(GroupSlug, GivenSlug(o.given)), groups)
        else if at == |groups| then groups + [MergeGroup(Some(Group(map[], None)), o.given)]
        else groups[at := MergeGroup(Some(groups[at]), o.given)]
  {
    hide Layer, Filter, FirstWith;
  }

  /** Updates the group's fields and goes through the tag overrides. */
  method MergeTagEntry(target: Group, given: GroupGiven) returns (merged: Group)
    ensures merged == MergeGroup(Some(target), given)
  {
    hide Layer, Step, Filter;
    var tags := TagList(target.tags);
    LayerPush(TAGS, tags, given.tags, 0);
    for i := 0 to |given.tags|
      invariant tags == Layer(TAGS, TagList(target.tags), given.tags[..i])
    {
      var o := given.tags[i];
      LayerPush(TAGS, TagList(target.tags), given.tags, i);
      TagStep(tags, o);
      var at := FirstWith(SlugOf, tags, SlugOf(o.given));
      if o.remove {
        tags := Filter(Others(SlugOf, SlugOf(o.given)), tags);
      } else if at == |tags| {
        tags := tags + [o.given];
      } else {
        tags := tags[at := tags[at] + o.given];
      }
    }
    assert given.tags[..|given.tags|] == given.tags;
    merged := Group(target.fields + given.fields, Some(tags));
  }

  method MergeTagOverrides(base: Document, overs: seq<Over<GroupGiven>>) returns (merged: Document)
    ensures merged == Merge(base, overs)
  {
    hide Layer, Step, Filter, MergeGroup, FirstWith;
    var start := if base.groups.Some? then base.groups.value else [];
    var groups := start;
    LayerPush(GROUPS, start, overs, 0);
    for i := 0 to |overs|
      invariant groups == Layer(GROUPS, start, overs[..i])
    {
      var o := overs[i];
      LayerPush(GROUPS, start, overs, i);
      GroupStep(groups, o);
      if o.remove {
        groups := Filter(Others(GroupSlug, GivenSlug(o.given)), groups);
      } else {
        var at := FirstWith(GroupSlug, groups, GivenSlug(o.given));
        var target := Group(map[], None);
        if at < |groups| { target := groups[at]; }
        var entry := MergeTagEntry(target, o.given);
        groups := if at < |groups| then groups[at := entry] else groups + [entry];
      }
    }
    assert overs[..|overs|] == overs;
    merged := base.(groups := Some(groups));
  }
}
