/**
 Running the fixer without promotions again and again: from the second run on nothing changes.
 The first run may leave a blank line where it joined two subsections of one title; the second
 run compacts it away.
 */
module ChangelogFixpoint {
  import opened Wrappers
  import opened Sorting
  import opened ChangelogText
  import opened ChangelogDocument
  import opened ChangelogFix
  import opened ChangelogRoundTrip
  import opened ChangelogConservation

  // ----- A file as titled lists of items -----

  datatype SubView = SubView(title: string, items: seq<Key>)

  datatype SectionView = SectionView(heading: string, title: string, leading: seq<Line>, subs: seq<SubView>)

  function SubViewOf(sub: Subsection): SubView {
    SubView(sub.title, LinesOf(Items(sub.lines)))
  }

  function ViewSubs(subs: seq<Subsection>): seq<SubView> {
    if subs == [] then []
    else if Items(subs[0].lines) == [] then ViewSubs(subs[1..])
    else [SubViewOf(subs[0])] + ViewSubs(subs[1..])
  }

  function ViewOf(s: Section): SectionView {
    SectionView(s.heading, s.title, TrimBlank(Texts(s.leading)), ViewSubs(s.subs))
  }

  function View(sections: seq<Section>): seq<SectionView> {
    seq(|sections|, i requires 0 <= i < |sections| => ViewOf(sections[i]))
  }

  /** The same, seen in the outline. */
  function ViewTexts(subs: seq<SubText>): seq<SubView> {
    if subs == [] then []
    else if ItemTexts(subs[0].lines) == [] then ViewTexts(subs[1..])
    else [SubView(subs[0].title, ItemTexts(subs[0].lines))] + ViewTexts(subs[1..])
  }

  function ViewOutline(sections: seq<SectionText>): seq<SectionView> {
    seq(|sections|, i requires 0 <= i < |sections| =>
      SectionView(sections[i].heading, sections[i].title, sections[i].leading, ViewTexts(sections[i].subs)))
  }

  lemma {:induction false} ViewOfTexts(subs: seq<Subsection>)
    ensures ViewTexts(SubTexts(subs)) == ViewSubs(subs)
    decreases |subs|
  {
    if subs != [] {
      ViewOfTexts(subs[1..]);
      ItemsErase(subs[0].lines);
      TrimKeepsItems(Texts(subs[0].lines));
      var lines := TrimBlank(Texts(subs[0].lines));
      assert |LinesOf(Items(subs[0].lines))| == |Items(subs[0].lines)|;
      if lines != [] {
        assert ([SubText(subs[0].title, lines)] + SubTexts(subs[1..]))[1..] == SubTexts(subs[1..]);
      }
    }
  }

  lemma {:induction false} SectionTextsAt(sections: seq<Section>)
    ensures |SectionTexts(sections)| == |sections|
    ensures forall i :: 0 <= i < |sections| ==> SectionTexts(sections)[i] == TextOf(sections[i])
    decreases |sections|
  {
    if sections != [] { SectionTextsAt(sections[1..]); }
  }

  lemma {:induction false} ViewIsOutline(sections: seq<Section>)
    ensures View(sections) == ViewOutline(SectionTexts(sections))
  {
    SectionTextsAt(sections);
    forall i | 0 <= i < |sections| ensures View(sections)[i] == ViewOutline(SectionTexts(sections))[i] {
      ViewOfTexts(sections[i].subs);
    }
  }

  // ----- The passes on views -----

  function FirstUnreleasedView(v: seq<SectionView>): (n: nat)
    ensures n <= |v|
    ensures n < |v| ==> v[n].title == UNRELEASED
    ensures forall i :: 0 <= i < n ==> v[i].title != UNRELEASED
  {
    if v == [] || v[0].title == UNRELEASED then 0 else 1 + FirstUnreleasedView(v[1..])
  }

  function ItemSet(subs: seq<SubView>): set<Key> {
    if subs == [] then {} else SetOf(subs[0].items) + ItemSet(subs[1..])
  }

  function ReleasedSet(v: seq<SectionView>): set<Key> {
    if v == [] then {}
    else if v[0].title == UNRELEASED then ReleasedSet(v[1..])
    else ItemSet(v[0].subs) + ReleasedSet(v[1..])
  }

  function NotIn(items: seq<Key>, keys: set<Key>): seq<Key> {
    if items == [] then []
    else if items[0] in keys then NotIn(items[1..], keys)
    else [items[0]] + NotIn(items[1..], keys)
  }

  function SubsNotIn(subs: seq<SubView>, keys: set<Key>): seq<SubView> {
    if subs == [] then []
    else if NotIn(subs[0].items, keys) == [] then SubsNotIn(subs[1..], keys)
    else [SubView(subs[0].title, NotIn(subs[0].items, keys))] + SubsNotIn(subs[1..], keys)
  }

  function DropView(v: seq<SectionView>, historical: set<Key>): seq<SectionView> {
    var u := FirstUnreleasedView(v);
    if u == |v| then v else v[u := v[u].(subs := SubsNotIn(v[u].subs, ReleasedSet(v) + historical))]
  }

  function FirstTitledView(subs: seq<SubView>, title: string): (n: nat)
    ensures n <= |subs|
    ensures n < |subs| ==> subs[n].title == title
    ensures forall i :: 0 <= i < n ==> subs[i].title != title
  {
    if subs == [] || subs[0].title == title then 0 else 1 + FirstTitledView(subs[1..], title)
  }

  function MergeView(done: seq<SubView>, sub: SubView): seq<SubView> {
    var n := FirstTitledView(done, sub.title);
    if n < |done| then done[n := SubView(sub.title, done[n].items + sub.items)] else done + [sub]
  }

  function MergeViews(done: seq<SubView>, subs: seq<SubView>): seq<SubView>
    decreases |subs|
  {
    if subs == [] then done else MergeViews(MergeView(done, subs[0]), subs[1..])
  }

  predicate ViewLe(a: SubView, b: SubView) {
    TitleOrder(a.title) <= TitleOrder(b.title)
  }

  function NormalView(s: SectionView): SectionView {
    var merged := MergeViews([], s.subs);
    s.(subs := if s.title == UNRELEASED then Sort(merged, ViewLe) else merged)
  }

  function NormalViews(v: seq<SectionView>): seq<SectionView> {
    seq(|v|, i requires 0 <= i < |v| => NormalView(v[i]))
  }

  function SectionViewLe(versions: Versions): (SectionView, SectionView) -> bool {
    (a: SectionView, b: SectionView) => CompareVersionsDesc(versions(a.title), versions(b.title)) <= 0
  }

  function TitledView(v: seq<SectionView>, unreleased: bool): seq<SectionView> {
    if v == [] then []
    else if (v[0].title == UNRELEASED) == unreleased then [v[0]] + TitledView(v[1..], unreleased)
    else TitledView(v[1..], unreleased)
  }

  function SortView(v: seq<SectionView>, versions: Versions): seq<SectionView> {
    TitledView(v, true) + Sort(TitledView(v, false), SectionViewLe(versions))
  }

  function FixView(v: seq<SectionView>, versions: Versions, historical: set<Key>): seq<SectionView> {
    SortView(NormalViews(DropView(v, historical)), versions)
  }

  // ----- The fixer does to files what the passes do to views -----

  lemma {:induction false} PickNotIn(items: seq<Item>, keys: set<Key>)
    ensures LinesOf(Pick(items, Not(Keyed(keys)))) == NotIn(LinesOf(items), keys)
    decreases |items|
  {
    if items != [] {
      PickNotIn(items[1..], keys);
      assert LinesOf(items)[1..] == LinesOf(items[1..]);
      assert Not(Keyed(keys)).Takes(items[0]) == !Keyed(keys).Takes(items[0]);
    }
  }

  lemma {:induction false} ViewOfDroppedSubs(subs: seq<Subsection>, keys: set<Key>)
    ensures ViewSubs(SubsWithout(subs, Keyed(keys))) == SubsNotIn(ViewSubs(subs), keys)
    decreases |subs|
  {
    if subs != [] {
      var after := SubsWithout(subs, Keyed(keys));
      assert after[1..] == SubsWithout(subs[1..], Keyed(keys));
      ViewOfDroppedSubs(subs[1..], keys);
      ItemsOfKept(subs[0].lines, Keyed(keys));
      PickNotIn(Items(subs[0].lines), keys);
      DroppedSubView(subs[0], keys, ViewSubs(subs[1..]));
    }
  }

  lemma {:induction false} DroppedSubView(sub: Subsection, keys: set<Key>, rest: seq<SubView>)
    requires LinesOf(Items(Kept(sub.lines, Keyed(keys)))) == NotIn(LinesOf(Items(sub.lines)), keys)
    ensures Items(sub.lines) == [] ==> Items(Kept(sub.lines, Keyed(keys))) == []
    ensures Items(sub.lines) != [] ==>
              SubsNotIn([SubViewOf(sub)] + rest, keys) ==
              (if Items(Kept(sub.lines, Keyed(keys))) == [] then SubsNotIn(rest, keys)
               else [SubViewOf(sub.(lines := Kept(sub.lines, Keyed(keys))))] + SubsNotIn(rest, keys))
  {
    assert |LinesOf(Items(sub.lines))| == |Items(sub.lines)|;
    assert |LinesOf(Items(Kept(sub.lines, Keyed(keys))))| == |Items(Kept(sub.lines, Keyed(keys)))|;
    assert ([SubViewOf(sub)] + rest)[1..] == rest;
  }

  lemma {:induction false} FirstUnreleasedSeen(sections: seq<Section>)
    ensures FirstUnreleasedView(View(sections)) == FirstUnreleased(sections)
    decreases |sections|
  {
    if sections != [] {
      assert View(sections)[1..] == View(sections[1..]);
      FirstUnreleasedSeen(sections[1..]);
    }
  }

  lemma {:induction false} SubsKeysSeen(subs: seq<Subsection>)
    ensures ItemSet(ViewSubs(subs)) == SubsKeys(subs)
    decreases |subs|
  {
    if subs != [] {
      SubsKeysSeen(subs[1..]);
      LinesOfKeys(Items(subs[0].lines));
      if Items(subs[0].lines) != [] {
        assert ([SubViewOf(subs[0])] + ViewSubs(subs[1..]))[1..] == ViewSubs(subs[1..]);
      }
    }
  }

  lemma {:induction false} ReleasedSeen(sections: seq<Section>)
    ensures ReleasedSet(View(sections)) == ReleasedKeys(sections)
    decreases |sections|
  {
    if sections != [] {
      assert View(sections)[1..] == View(sections[1..]);
      ReleasedSeen(sections[1..]);
      SubsKeysSeen(sections[0].subs);
    }
  }

  lemma {:induction false} ViewOfDropped(sections: seq<Section>, historical: set<Key>)
    ensures View(Dropped(sections, historical)) == DropView(View(sections), historical)
  {
    FirstUnreleasedSeen(sections);
    ReleasedSeen(sections);
    var u := FirstUnreleased(sections);
    if u < |sections| {
      ViewOfDroppedSubs(sections[u].subs, ReleasedKeys(sections) + historical);
    }
  }

  lemma {:induction false} PickNothing(items: seq<Item>)
    ensures Pick(items, Starting({})) == []
    decreases |items|
  {
    if items != [] { PickNothing(items[1..]); }
  }

  lemma {:induction false} KeptEverything(lines: seq<Numbered>)
    ensures Kept(lines, Starting({})) == lines
    decreases |lines|
  {
    if lines != [] {
      if lines[0].line.Bullet? {
        var block := BlockAt(lines);
        BlockIs(lines);
        KeptBlock(lines, Starting({}));
        KeptEverything(lines[|block|..]);
      } else {
        KeptEverything(lines[1..]);
      }
    }
  }

  lemma {:induction false} NothingLeaves(subs: seq<Subsection>)
    ensures GroupsOf(subs, {}) == [] && SubsWithout(subs, Starting({})) == subs
    decreases |subs|
  {
    if subs != [] {
      PickNothing(Items(subs[0].lines));
      KeptEverything(subs[0].lines);
      NothingLeaves(subs[1..]);
      assert SubsWithout(subs, Starting({})) == [subs[0]] + SubsWithout(subs[1..], Starting({}));
    }
  }

  lemma {:induction false} NothingPromoted(sections: seq<Section>)
    ensures Leaving(sections, {}) == [] && AllStaying(sections, {}) == sections
    decreases |sections|
  {
    if sections != [] {
      NothingLeaves(sections[0].subs);
      NothingPromoted(sections[1..]);
      assert AllStaying(sections, {}) == [sections[0]] + AllStaying(sections[1..], {});
    }
  }

  /** Every subsection of the list holds an item. */
  predicate Full(subs: seq<Subsection>) {
    forall j :: 0 <= j < |subs| ==> Items(subs[j].lines) != []
  }

  lemma {:induction false} FullView(subs: seq<Subsection>)
    requires Full(subs)
    ensures |ViewSubs(subs)| == |subs| && forall j :: 0 <= j < |subs| ==> ViewSubs(subs)[j] == SubViewOf(subs[j])
    decreases |subs|
  {
    if subs != [] { FullView(subs[1..]); }
  }

  lemma {:induction false} TitledSeen(subs: seq<Subsection>, title: string)
    requires Full(subs)
    ensures FirstTitledView(ViewSubs(subs), title) == FirstTitled(subs, title)
    decreases |subs|
  {
    if subs != [] {
      TitledSeen(subs[1..], title);
      assert ViewSubs(subs)[1..] == ViewSubs(subs[1..]);
    }
  }

  lemma {:induction false} ViewOfJoined(sub: Subsection, lines: seq<Line>)
    requires Led(lines)
    ensures LinesOf(Items(Synthetic(Append(Texts(sub.lines), lines)))) == LinesOf(Items(sub.lines)) + ItemTexts(lines)
  {
    var after := Append(Texts(sub.lines), lines);
    AppendJoinsItems(Texts(sub.lines), lines);
    ItemsErase(Synthetic(after));
    TextsOfSynthetic(after);
    ItemsErase(sub.lines);
  }

  lemma {:induction false} ViewOfPut(subs: seq<Subsection>, n: nat, sub: Subsection)
    requires Full(subs) && n < |subs| && Items(sub.lines) != []
    ensures Full(subs[n := sub]) && n < |ViewSubs(subs)| && ViewSubs(subs[n := sub]) == ViewSubs(subs)[n := SubViewOf(sub)]
  {
    FullView(subs);
    FullView(subs[n := sub]);
  }

  lemma {:induction false} ViewOfSnoc(subs: seq<Subsection>, sub: Subsection)
    requires Full(subs) && Items(sub.lines) != []
    ensures Full(subs + [sub]) && ViewSubs(subs + [sub]) == ViewSubs(subs) + [SubViewOf(sub)]
  {
    FullView(subs);
    FullView(subs + [sub]);
  }

  /** A compacted run that is not empty holds an item. */
  lemma {:induction false} CompactItems(sub: Subsection)
    requires GoodSub(sub)
    ensures var lines := Compact(TrimBlank(Texts(sub.lines)));
            && Led(lines) && ItemTexts(lines) == LinesOf(Items(sub.lines)) && LinesOf(Items(Synthetic(lines))) == ItemTexts(lines)
            && (lines == [] <==> Items(sub.lines) == []) && (lines == [] <==> Items(Synthetic(lines)) == [])
  {
    var lines := Compact(TrimBlank(Texts(sub.lines)));
    CompactGood(Texts(sub.lines));
    ItemsErase(sub.lines);
    ItemsErase(Synthetic(lines));
    TextsOfSynthetic(lines);
    assert |LinesOf(Items(sub.lines))| == |Items(sub.lines)|;
    assert |LinesOf(Items(Synthetic(lines)))| == |Items(Synthetic(lines))|;
  }

  lemma {:induction false} ViewOfMerged(done: seq<Subsection>, sub: Subsection)
    requires GoodSubs(done) && GoodSub(sub) && Full(done)
    ensures GoodSubs(Merged(done, sub)) && Full(Merged(done, sub))
    ensures ViewSubs(Merged(done, sub)) ==
            if Items(sub.lines) == [] then ViewSubs(done) else MergeView(ViewSubs(done), SubViewOf(sub))
  {
    var lines := Compact(TrimBlank(Texts(sub.lines)));
    CompactItems(sub);
    MergedKeys(done, sub);
    if lines != [] {
      var n := FirstTitled(done, sub.title);
      TitledSeen(done, sub.title);
      FullView(done);
      if n < |done| {
        var joined := done[n].(lines := Synthetic(Append(Texts(done[n].lines), lines)));
        ViewOfJoined(done[n], lines);
        assert |LinesOf(Items(joined.lines))| == |Items(joined.lines)|;
        ViewOfPut(done, n, joined);
      } else {
        ViewOfSnoc(done, Subsection(sub.title, Synthetic(lines)));
      }
    }
  }

  lemma {:induction false} ViewOfMergedAll(done: seq<Subsection>, subs: seq<Subsection>)
    requires GoodSubs(done) && GoodSubs(subs) && Full(done)
    ensures ViewSubs(MergedAll(done, subs)) == MergeViews(ViewSubs(done), ViewSubs(subs))
    ensures Full(MergedAll(done, subs))
    decreases |subs|
  {
    if subs != [] {
      ViewOfMerged(done, subs[0]);
      ViewOfMergedAll(Merged(done, subs[0]), subs[1..]);
      if Items(subs[0].lines) != [] {
        assert ([SubViewOf(subs[0])] + ViewSubs(subs[1..]))[1..] == ViewSubs(subs[1..]);
      }
    }
  }

  function Mapped<A, B>(s: seq<A>, f: A -> B): seq<B> {
    seq(|s|, i requires 0 <= i < |s| => f(s[i]))
  }

  lemma {:induction false} InsertMaps<A(!new), B(!new)>(s: seq<A>, x: A, f: A -> B, la: (A, A) -> bool, lb: (B, B) -> bool)
    requires forall a, b :: la(a, b) == lb(f(a), f(b))
    ensures Mapped(Insert(s, x, la), f) == Insert(Mapped(s, f), f(x), lb)
    decreases |s|
  {
    if s != [] {
      assert Mapped(s, f)[..|s| - 1] == Mapped(s[..|s| - 1], f);
      InsertMaps(s[..|s| - 1], x, f, la, lb);
    }
  }

  /** Sorting looks at nothing but the order. */
  lemma {:induction false} SortMaps<A(!new), B(!new)>(s: seq<A>, f: A -> B, la: (A, A) -> bool, lb: (B, B) -> bool)
    requires forall a, b :: la(a, b) == lb(f(a), f(b))
    ensures Mapped(Sort(s, la), f) == Sort(Mapped(s, f), lb)
    decreases |s|
  {
    if s != [] {
      assert Mapped(s, f)[..|s| - 1] == Mapped(s[..|s| - 1], f);
      SortMaps(s[..|s| - 1], f, la, lb);
      InsertMaps(Sort(s[..|s| - 1], la), s[|s| - 1], f, la, lb);
    }
  }

  lemma {:induction false} SameFull(a: seq<Subsection>, b: seq<Subsection>)
    requires multiset(a) == multiset(b) && Full(a)
    ensures Full(b)
  {
    forall j | 0 <= j < |b| ensures Items(b[j].lines) != [] {
      assert b[j] in multiset(b);
      assert b[j] in a;
    }
  }

  lemma {:induction false} ViewIsMapped(subs: seq<Subsection>)
    requires Full(subs)
    ensures ViewSubs(subs) == Mapped(subs, SubViewOf)
  {
    FullView(subs);
  }

  lemma {:induction false} ViewOfSortedSubs(subs: seq<Subsection>)
    requires Full(subs)
    ensures ViewSubs(Sort(subs, SubLe)) == Sort(ViewSubs(subs), ViewLe)
  {
    SameFull(subs, Sort(subs, SubLe));
    ViewIsMapped(subs);
    ViewIsMapped(Sort(subs, SubLe));
    SortMaps(subs, SubViewOf, SubLe, ViewLe);
  }

  lemma {:induction false} ViewOfNormalized(s: Section)
    requires GoodSubs(s.subs)
    ensures ViewOf(Normalized(s)) == NormalView(ViewOf(s))
  {
    ViewOfMergedAll([], s.subs);
    ViewOfSortedSubs(MergedAll([], s.subs));
    TextsOfSynthetic(TrimBlank(Texts(s.leading)));
    TrimTwice(Texts(s.leading));
  }

  lemma {:induction false} TitledSections(sections: seq<Section>, unreleased: bool)
    ensures View(Titled(sections, unreleased)) == TitledView(View(sections), unreleased)
    decreases |sections|
  {
    if sections != [] {
      assert View(sections)[1..] == View(sections[1..]);
      TitledSections(sections[1..], unreleased);
      if (sections[0].title == UNRELEASED) == unreleased {
        var rest := Titled(sections[1..], unreleased);
        assert View([sections[0]] + rest) == [ViewOf(sections[0])] + View(rest);
      }
    }
  }

  lemma {:induction false} SameOrder(versions: Versions)
    ensures forall a, b :: SectionLe(versions)(a, b) == SectionViewLe(versions)(ViewOf(a), ViewOf(b))
  {
  }

  lemma {:induction false} SectionsMapped(sections: seq<Section>)
    ensures View(sections) == Mapped(sections, ViewOf)
  {
  }

  lemma {:induction false} ViewOfSortedSections(sections: seq<Section>, versions: Versions)
    ensures View(Sort(sections, SectionLe(versions))) == Sort(View(sections), SectionViewLe(versions))
  {
    SameOrder(versions);
    SortMaps(sections, ViewOf, SectionLe(versions), SectionViewLe(versions));
    SectionsMapped(sections);
    SectionsMapped(Sort(sections, SectionLe(versions)));
  }

  lemma {:induction false} ViewJoin(a: seq<Section>, b: seq<Section>)
    ensures View(a + b) == View(a) + View(b)
  {
  }

  lemma {:induction false} ViewOfSorted(sections: seq<Section>, versions: Versions)
    ensures View(SortedSections(sections, versions)) == SortView(View(sections), versions)
  {
    TitledSections(sections, true);
    TitledSections(sections, false);
    ViewOfSortedSections(Titled(sections, false), versions);
    ViewJoin(Titled(sections, true), Sort(Titled(sections, false), SectionLe(versions)));
  }

  /** One run without promotions, seen as a view. */
  lemma {:induction false} ViewOfFixed(content: seq<Line>, versions: Versions, historical: set<Key>)
    requires BulletLed(content)
    ensures View(FixedDocument(content, versions, {}, historical).sections) == FixView(View(Parse(Number(content)).sections), versions, historical)
  {
    var s := Parse(Number(content)).sections;
    ParsedGood(content);
    DroppedKeys(s, historical);
    ViewOfDropped(s, historical);
    var dropped := Dropped(s, historical);
    NothingPromoted(dropped);
    assert Promoted(dropped, {}) == dropped;
    forall i | 0 <= i < |dropped| ensures View(AllNormalized(dropped))[i] == NormalViews(View(dropped))[i] {
      ViewOfNormalized(dropped[i]);
    }
    assert View(AllNormalized(dropped)) == NormalViews(View(dropped));
    ViewOfSorted(AllNormalized(dropped), versions);
  }

  // ----- A second pass over a view finds nothing to do -----

  predicate Distinct(subs: seq<SubView>) {
    && (forall i, j :: 0 <= i < j < |subs| ==> subs[i].title != subs[j].title)
    && (forall i :: 0 <= i < |subs| ==> subs[i].items != [])
  }

  lemma {:induction false} MergeViewsDistinct(done: seq<SubView>, subs: seq<SubView>)
    requires Distinct(done) && forall i :: 0 <= i < |subs| ==> subs[i].items != []
    ensures Distinct(MergeViews(done, subs))
    decreases |subs|
  {
    if subs != [] { MergeViewsDistinct(MergeView(done, subs[0]), subs[1..]); }
  }

  lemma {:induction false} NotAmong(done: seq<SubView>, subs: seq<SubView>)
    requires Distinct(done + subs) && subs != []
    ensures FirstTitledView(done, subs[0].title) == |done|
  {
    assert (done + subs)[|done|] == subs[0];
    forall i | 0 <= i < |done| ensures done[i].title != subs[0].title {
      assert (done + subs)[i] == done[i];
    }
  }

  lemma {:induction false} MergeDistinct(done: seq<SubView>, subs: seq<SubView>)
    requires Distinct(done + subs)
    ensures MergeViews(done, subs) == done + subs
    decreases |subs|
  {
    if subs == [] {
      assert done + subs == done;
    } else {
      NotAmong(done, subs);
      assert done + [subs[0]] + subs[1..] == done + subs;
      MergeDistinct(done + [subs[0]], subs[1..]);
    }
  }

  lemma {:induction false} SameDistinct(a: seq<SubView>, b: seq<SubView>)
    requires multiset(a) == multiset(b) && Distinct(a)
    ensures Distinct(b)
  {
    forall j | 0 <= j < |b| ensures b[j].items != [] {
      assert b[j] in multiset(b);
      assert b[j] in a;
    }
    forall i, j | 0 <= i < j < |b| ensures b[i].title != b[j].title {
      TitlesApart(a, b, i, j);
    }
  }

  lemma {:induction false} TitlesApart(a: seq<SubView>, b: seq<SubView>, i: nat, j: nat)
    requires multiset(a) == multiset(b) && Distinct(a) && i < j < |b|
    ensures b[i].title != b[j].title
  {
    assert b[i] in multiset(b) && b[j] in multiset(b);
    assert b[i] in a && b[j] in a;
    if b[i] == b[j] {
      TwiceIn(b, i, j);
      OnceIn(a, b[i]);
    }
  }

  lemma {:induction false} TwiceIn<T>(s: seq<T>, i: nat, j: nat)
    requires i < j < |s| && s[i] == s[j]
    ensures multiset(s)[s[i]] >= 2
  {
    assert s == s[..i] + [s[i]] + s[i + 1..j] + [s[j]] + s[j + 1..];
  }

  lemma {:induction false} OnceIn(s: seq<SubView>, x: SubView)
    requires Distinct(s)
    ensures multiset(s)[x] <= 1
    decreases |s|
  {
    if s != [] {
      assert s == [s[0]] + s[1..];
      OnceIn(s[1..], x);
      assert forall i :: 0 <= i < |s[1..]| ==> s[1..][i].title != s[0].title;
      assert s[0] !in s[1..];
    }
  }

  lemma {:induction false} ViewOrder()
    ensures TotalPreorder(ViewLe)
  {
  }

  lemma {:induction false} NormalTwice(s: SectionView)
    requires forall i :: 0 <= i < |s.subs| ==> s.subs[i].items != []
    ensures NormalView(NormalView(s)) == NormalView(s) && Distinct(NormalView(s).subs)
  {
    var merged := MergeViews([], s.subs);
    MergeViewsDistinct([], s.subs);
    ViewOrder();
    var sorted := Sort(merged, ViewLe);
    SameDistinct(merged, sorted);
    SortSorted(merged, ViewLe);
    SortKeepsSorted(sorted, ViewLe);
    MergeDistinct([], NormalView(s).subs);
    assert [] + NormalView(s).subs == NormalView(s).subs;
  }

  // ----- Version titles are ordered -----

  lemma {:induction false} LimitFree(left: seq<int>, right: seq<int>, i: nat, limit: nat, more: nat)
    requires i <= limit <= more && |left| <= limit && |right| <= limit
    ensures CompareFrom(left, right, i, limit) == CompareFrom(left, right, i, more)
    decreases more - i
  {
    if i < limit {
      LimitFree(left, right, i + 1, limit, more);
    } else if i < more {
      LimitFree(left, right, i + 1, i + 1, more);
    }
  }

  lemma {:induction false} CompareTurns(left: seq<int>, right: seq<int>, i: nat, limit: nat)
    requires i <= limit
    ensures CompareFrom(left, right, i, limit) == -CompareFrom(right, left, i, limit)
    decreases limit - i
  {
    if i < limit { CompareTurns(left, right, i + 1, limit); }
  }

  lemma {:induction false} CompareChains(a: seq<int>, b: seq<int>, c: seq<int>, i: nat, limit: nat)
    requires i <= limit && CompareFrom(a, b, i, limit) <= 0 && CompareFrom(b, c, i, limit) <= 0
    ensures CompareFrom(a, c, i, limit) <= 0
    decreases limit - i
  {
    if i < limit && Part(a, i) == Part(b, i) == Part(c, i) { CompareChains(a, b, c, i + 1, limit); }
  }

  /** Versions of any lengths, compared part by part with missing parts taken as 0, are totally ordered. */
  lemma {:induction false} VersionsOrdered(a: seq<int>, b: seq<int>, c: seq<int>)
    ensures CompareVersionsDesc(a, b) <= 0 || CompareVersionsDesc(b, a) <= 0
    ensures CompareVersionsDesc(a, b) <= 0 && CompareVersionsDesc(b, c) <= 0 ==> CompareVersionsDesc(a, c) <= 0
  {
    var n := |a| + |b| + |c|;
    LimitFree(a, b, 0, if |a| < |b| then |b| else |a|, n);
    LimitFree(b, a, 0, if |b| < |a| then |a| else |b|, n);
    LimitFree(b, c, 0, if |b| < |c| then |c| else |b|, n);
    LimitFree(a, c, 0, if |a| < |c| then |c| else |a|, n);
    CompareTurns(a, b, 0, n);
    if CompareVersionsDesc(a, b) <= 0 && CompareVersionsDesc(b, c) <= 0 { CompareChains(a, b, c, 0, n); }
  }

  lemma {:induction false} SectionsOrdered(versions: Versions)
    ensures TotalPreorder(SectionViewLe(versions))
  {
    var le := SectionViewLe(versions);
    forall x, y ensures le(x, y) || le(y, x) {
      VersionsOrdered(versions(x.title), versions(y.title), []);
    }
    forall x, y, z | le(x, y) && le(y, z) ensures le(x, z) {
      VersionsOrdered(versions(x.title), versions(y.title), versions(z.title));
    }
  }

  // ----- The whole fixer on views -----

  predicate FullSubs(subs: seq<SubView>) {
    forall i :: 0 <= i < |subs| ==> subs[i].items != []
  }

  predicate AllFull(v: seq<SectionView>) {
    forall i :: 0 <= i < |v| ==> FullSubs(v[i].subs)
  }

  lemma {:induction false} ItemSetIn(subs: seq<SubView>, k: Key)
    ensures k in ItemSet(subs) <==> exists j :: 0 <= j < |subs| && k in subs[j].items
    decreases |subs|
  {
    if subs != [] {
      ItemSetIn(subs[1..], k);
      if k in ItemSet(subs[1..]) {
        var j :| 0 <= j < |subs[1..]| && k in subs[1..][j].items;
        assert k in subs[j + 1].items;
      }
    }
  }

  lemma {:induction false} ItemSetSame(a: seq<SubView>, b: seq<SubView>)
    requires multiset(a) == multiset(b)
    ensures ItemSet(a) == ItemSet(b)
  {
    forall j | 0 <= j < |b| ensures b[j] in a {
      assert b[j] in multiset(b);
    }
    forall i | 0 <= i < |a| ensures a[i] in b {
      assert a[i] in multiset(a);
    }
    forall k ensures k in ItemSet(a) <==> k in ItemSet(b) {
      ItemSetIn(a, k);
      ItemSetIn(b, k);
    }
  }

  lemma {:induction false} MergeViewItems(done: seq<SubView>, sub: SubView)
    ensures ItemSet(MergeView(done, sub)) == ItemSet(done) + SetOf(sub.items)
  {
    var n := FirstTitledView(done, sub.title);
    var after := MergeView(done, sub);
    forall k ensures k in ItemSet(after) <==> k in ItemSet(done) || k in sub.items {
      ItemSetIn(after, k);
      ItemSetIn(done, k);
      if k in ItemSet(done) {
        var j :| 0 <= j < |done| && k in done[j].items;
        assert k in after[j].items;
      }
      if k in sub.items { assert k in after[n].items; }
    }
  }

  lemma {:induction false} MergeViewsItems(done: seq<SubView>, subs: seq<SubView>)
    ensures ItemSet(MergeViews(done, subs)) == ItemSet(done) + ItemSet(subs)
    decreases |subs|
  {
    if subs != [] {
      MergeViewItems(done, subs[0]);
      MergeViewsItems(MergeView(done, subs[0]), subs[1..]);
    }
  }

  lemma {:induction false} NormalViewItems(s: SectionView)
    ensures ItemSet(NormalView(s).subs) == ItemSet(s.subs)
  {
    MergeViewsItems([], s.subs);
    ItemSetSame(MergeViews([], s.subs), Sort(MergeViews([], s.subs), ViewLe));
  }

  lemma {:induction false} NotInIs(items: seq<Key>, keys: set<Key>)
    ensures forall k :: k in NotIn(items, keys) <==> k in items && k !in keys
    ensures (forall k :: k in items ==> k !in keys) ==> NotIn(items, keys) == items
    decreases |items|
  {
    if items != [] { NotInIs(items[1..], keys); }
  }

  lemma {:induction false} SubsNotInIs(subs: seq<SubView>, keys: set<Key>)
    ensures ItemSet(SubsNotIn(subs, keys)) == ItemSet(subs) - keys && FullSubs(SubsNotIn(subs, keys))
    ensures FullSubs(subs) && ItemSet(subs) !! keys ==> SubsNotIn(subs, keys) == subs
    decreases |subs|
  {
    if subs != [] {
      NotInIs(subs[0].items, keys);
      SubsNotInIs(subs[1..], keys);
      var first := SubView(subs[0].title, NotIn(subs[0].items, keys));
      assert ([first] + SubsNotIn(subs[1..], keys))[1..] == SubsNotIn(subs[1..], keys);
    }
  }

  lemma {:induction false} ReleasedIn(v: seq<SectionView>, k: Key)
    ensures k in ReleasedSet(v) <==> exists i :: 0 <= i < |v| && v[i].title != UNRELEASED && k in ItemSet(v[i].subs)
    decreases |v|
  {
    if v != [] {
      ReleasedIn(v[1..], k);
      if k in ReleasedSet(v[1..]) {
        var i :| 0 <= i < |v[1..]| && v[1..][i].title != UNRELEASED && k in ItemSet(v[1..][i].subs);
        assert k in ItemSet(v[i + 1].subs) && v[i + 1].title != UNRELEASED;
      }
    }
  }

  lemma {:induction false} DropViewReleased(v: seq<SectionView>, historical: set<Key>)
    ensures ReleasedSet(DropView(v, historical)) == ReleasedSet(v)
  {
    var w := DropView(v, historical);
    assert |w| == |v| && forall i :: 0 <= i < |v| ==> w[i].title == v[i].title && (v[i].title != UNRELEASED ==> w[i] == v[i]);
    forall k ensures k in ReleasedSet(w) <==> k in ReleasedSet(v) {
      ReleasedIn(v, k);
      ReleasedIn(w, k);
    }
  }

  lemma {:induction false} NormalViewsReleased(v: seq<SectionView>)
    ensures ReleasedSet(NormalViews(v)) == ReleasedSet(v)
  {
    var x := NormalViews(v);
    forall i | 0 <= i < |v| ensures ItemSet(x[i].subs) == ItemSet(v[i].subs) {
      NormalViewItems(v[i]);
    }
    forall k ensures k in ReleasedSet(x) <==> k in ReleasedSet(v) {
      ReleasedIn(v, k);
      ReleasedIn(x, k);
    }
  }

  lemma {:induction false} TitledViewIn(v: seq<SectionView>, unreleased: bool)
    ensures forall s :: s in TitledView(v, unreleased) <==> s in v && (s.title == UNRELEASED) == unreleased
    decreases |v|
  {
    if v != [] { TitledViewIn(v[1..], unreleased); }
  }

  lemma {:induction false} SortViewIn(v: seq<SectionView>, versions: Versions)
    ensures forall s :: s in SortView(v, versions) <==> s in v
  {
    TitledViewIn(v, true);
    TitledViewIn(v, false);
    var released := TitledView(v, false);
    var sorted := Sort(released, SectionViewLe(versions));
    forall s ensures s in sorted <==> s in released {
      assert s in multiset(sorted) <==> s in multiset(released);
    }
  }

  lemma {:induction false} SortViewReleased(v: seq<SectionView>, versions: Versions)
    ensures ReleasedSet(SortView(v, versions)) == ReleasedSet(v)
  {
    var y := SortView(v, versions);
    SortViewIn(v, versions);
    forall i | 0 <= i < |v| ensures v[i] in y {
      assert v[i] in v;
    }
    forall i | 0 <= i < |y| ensures y[i] in v {
      assert y[i] in y;
    }
    forall k ensures k in ReleasedSet(y) <==> k in ReleasedSet(v) {
      ReleasedIn(v, k);
      ReleasedIn(y, k);
    }
  }

  lemma {:induction false} TitledAll(v: seq<SectionView>, unreleased: bool)
    requires forall s :: s in v ==> (s.title == UNRELEASED) == unreleased
    ensures TitledView(v, unreleased) == v && TitledView(v, !unreleased) == []
    decreases |v|
  {
    if v != [] {
      assert v[0] in v;
      TitledAll(v[1..], unreleased);
    }
  }

  lemma {:induction false} TitledJoin(a: seq<SectionView>, b: seq<SectionView>, unreleased: bool)
    ensures TitledView(a + b, unreleased) == TitledView(a, unreleased) + TitledView(b, unreleased)
    decreases |a|
  {
    if a == [] {
      assert a + b == b;
    } else {
      assert (a + b)[1..] == a[1..] + b;
      TitledJoin(a[1..], b, unreleased);
    }
  }

  lemma {:induction false} SortViewTwice(v: seq<SectionView>, versions: Versions)
    ensures SortView(SortView(v, versions), versions) == SortView(v, versions)
  {
    var le := SectionViewLe(versions);
    var a, b := TitledView(v, true), Sort(TitledView(v, false), le);
    TitledViewIn(v, true);
    TitledViewIn(v, false);
    forall s | s in b ensures s.title != UNRELEASED {
      assert s in multiset(b);
      assert s in TitledView(v, false);
    }
    TitledAll(a, true);
    TitledAll(b, false);
    TitledJoin(a, b, true);
    TitledJoin(a, b, false);
    assert a + [] == a && [] + b == b;
    SectionsOrdered(versions);
    SortSorted(TitledView(v, false), le);
    SortKeepsSorted(b, le);
  }

  lemma {:induction false} FirstTitledTrue(v: seq<SectionView>)
    ensures FirstUnreleasedView(v) < |v| ==> TitledView(v, true) != [] && TitledView(v, true)[0] == v[FirstUnreleasedView(v)]
    ensures FirstUnreleasedView(v) == |v| ==> TitledView(v, true) == []
    decreases |v|
  {
    if v != [] { FirstTitledTrue(v[1..]); }
  }

  /** After one run nothing in the first Unreleased section stands in a released section. */
  lemma {:induction false} NothingToDrop(v: seq<SectionView>, versions: Versions, historical: set<Key>)
    requires AllFull(v)
    ensures DropView(FixView(v, versions, historical), historical) == FixView(v, versions, historical)
  {
    var w := DropView(v, historical);
    var x := NormalViews(w);
    var y := SortView(x, versions);
    var u := FirstUnreleasedView(v);
    DropViewReleased(v, historical);
    NormalViewsReleased(w);
    SortViewReleased(x, versions);
    TitlesStay(v, w, x, historical);
    FirstTitledTrue(x);
    if u < |v| {
      SubsNotInIs(v[u].subs, ReleasedSet(v) + historical);
      NormalViewItems(w[u]);
      NormalTwice(w[u]);
      assert y[0] == x[u];
      SubsNotInIs(y[0].subs, ReleasedSet(v) + historical);
      assert y[0 := y[0]] == y;
    } else {
      SortViewIn(x, versions);
      assert FirstUnreleasedView(y) == |y| by { NoneUnreleased(x, y); }
    }
  }

  lemma {:induction false} NoneUnreleased(x: seq<SectionView>, y: seq<SectionView>)
    requires FirstUnreleasedView(x) == |x| && forall s :: s in y <==> s in x
    ensures FirstUnreleasedView(y) == |y|
  {
    forall i | 0 <= i < |y| ensures y[i].title != UNRELEASED {
      assert y[i] in y;
      var j :| 0 <= j < |x| && x[j] == y[i];
    }
  }

  lemma {:induction false} TitlesStay(v: seq<SectionView>, w: seq<SectionView>, x: seq<SectionView>, historical: set<Key>)
    requires w == DropView(v, historical) && x == NormalViews(w)
    ensures FirstUnreleasedView(w) == FirstUnreleasedView(v) && FirstUnreleasedView(x) == FirstUnreleasedView(v)
  {
    SameFirst(v, w);
    SameFirst(v, x);
  }

  lemma {:induction false} SameFirst(v: seq<SectionView>, w: seq<SectionView>)
    requires |v| == |w| && forall i :: 0 <= i < |v| ==> v[i].title == w[i].title
    ensures FirstUnreleasedView(v) == FirstUnreleasedView(w)
    decreases |v|
  {
    if v != [] { SameFirst(v[1..], w[1..]); }
  }

  lemma {:induction false} DropViewFull(v: seq<SectionView>, historical: set<Key>)
    requires AllFull(v)
    ensures AllFull(DropView(v, historical))
  {
    var u := FirstUnreleasedView(v);
    if u < |v| { SubsNotInIs(v[u].subs, ReleasedSet(v) + historical); }
  }

  /** The fixer is idempotent on what a file says. */
  lemma {:induction false} FixViewTwice(v: seq<SectionView>, versions: Versions, historical: set<Key>)
    requires AllFull(v)
    ensures FixView(FixView(v, versions, historical), versions, historical) == FixView(v, versions, historical)
    ensures AllDistinct(FixView(v, versions, historical))
  {
    var w := DropView(v, historical);
    var x := NormalViews(w);
    var y := SortView(x, versions);
    DropViewFull(v, historical);
    NothingToDrop(v, versions, historical);
    SortViewIn(x, versions);
    forall i | 0 <= i < |y| ensures NormalView(y[i]) == y[i] && Distinct(y[i].subs) {
      assert y[i] in y;
      var j :| 0 <= j < |x| && x[j] == y[i];
      NormalTwice(w[j]);
    }
    assert NormalViews(y) == y;
    SortViewTwice(x, versions);
  }

  // ----- From file to file -----

  /** Every subsection holds its items one after the other, without blank lines between them. */
  predicate Compacted(subs: seq<Subsection>) {
    forall j :: 0 <= j < |subs| ==> Texts(subs[j].lines) == Flat(ItemTexts(Texts(subs[j].lines)))
  }

  function LayoutSubs(subs: seq<SubView>): seq<SubText> {
    seq(|subs|, i requires 0 <= i < |subs| => SubText(subs[i].title, Flat(subs[i].items)))
  }

  function Layout(v: seq<SectionView>): seq<SectionText> {
    seq(|v|, i requires 0 <= i < |v| => SectionText(v[i].heading, v[i].title, v[i].leading, LayoutSubs(v[i].subs)))
  }

  lemma {:induction false} CompactedTexts(subs: seq<Subsection>)
    requires Compacted(subs) && Full(subs)
    ensures SubTexts(subs) == LayoutSubs(ViewSubs(subs))
    decreases |subs|
  {
    if subs != [] {
      CompactedTexts(subs[1..]);
      var lines := Texts(subs[0].lines);
      ItemsErase(subs[0].lines);
      ItemsAreItems(lines);
      FlatHasItems(ItemTexts(lines));
      TrimTrimmed(lines);
      assert |LinesOf(Items(subs[0].lines))| == |Items(subs[0].lines)|;
      var rest := ViewSubs(subs[1..]);
      assert LayoutSubs([SubViewOf(subs[0])] + rest) == [SubText(subs[0].title, Flat(ItemTexts(lines)))] + LayoutSubs(rest);
    }
  }

  lemma {:induction false} MergedIsSnoc(done: seq<Subsection>, sub: Subsection, rest: seq<SubView>)
    requires GoodSub(sub) && Full(done) && Items(sub.lines) != []
    requires Distinct(ViewSubs(done) + ([SubViewOf(sub)] + rest))
    ensures Merged(done, sub) == done + [Subsection(sub.title, Synthetic(Compact(TrimBlank(Texts(sub.lines)))))]
  {
    CompactItems(sub);
    NotAmong(ViewSubs(done), [SubViewOf(sub)] + rest);
    TitledSeen(done, sub.title);
    FullView(done);
  }

  /** A title not seen before is put at the end, compacted. */
  lemma {:induction false} MergedAtEnd(done: seq<Subsection>, sub: Subsection, rest: seq<SubView>)
    requires GoodSub(sub) && Full(done) && Compacted(done) && Items(sub.lines) != []
    requires Distinct(ViewSubs(done) + ([SubViewOf(sub)] + rest))
    ensures Compacted(Merged(done, sub)) && ViewSubs(Merged(done, sub)) == ViewSubs(done) + [SubViewOf(sub)]
  {
    var lines := Compact(TrimBlank(Texts(sub.lines)));
    MergedIsSnoc(done, sub, rest);
    CompactItems(sub);
    CompactGood(Texts(sub.lines));
    TextsOfSynthetic(lines);
    ViewOfSnoc(done, Subsection(sub.title, Synthetic(lines)));
  }

  lemma {:induction false} MergedNothing(done: seq<Subsection>, sub: Subsection)
    requires GoodSub(sub) && Items(sub.lines) == []
    ensures Merged(done, sub) == done
  {
    CompactItems(sub);
  }

  /** Where titles are distinct, normalizing never joins, and so leaves every subsection compacted. */
  lemma {:induction false} MergedCompacted(done: seq<Subsection>, subs: seq<Subsection>)
    requires GoodSubs(done) && GoodSubs(subs) && Full(done) && Compacted(done)
    requires Distinct(ViewSubs(done) + ViewSubs(subs))
    ensures Compacted(MergedAll(done, subs))
    decreases |subs|
  {
    if subs != [] {
      var sub, rest := subs[0], ViewSubs(subs[1..]);
      if Items(sub.lines) == [] {
        MergedNothing(done, sub);
      } else {
        MergedAtEnd(done, sub, rest);
        assert ViewSubs(done) + [SubViewOf(sub)] + rest == ViewSubs(done) + ([SubViewOf(sub)] + rest);
      }
      ViewOfMerged(done, sub);
      MergedCompacted(Merged(done, sub), subs[1..]);
    }
  }

  lemma {:induction false} SameCompacted(a: seq<Subsection>, b: seq<Subsection>)
    requires multiset(a) == multiset(b) && Compacted(a)
    ensures Compacted(b)
  {
    forall j | 0 <= j < |b| ensures Texts(b[j].lines) == Flat(ItemTexts(Texts(b[j].lines))) {
      assert b[j] in multiset(b);
      assert b[j] in a;
    }
  }

  lemma {:induction false} NormalizedLayout(s: Section)
    requires GoodSubs(s.subs) && Distinct(ViewSubs(s.subs))
    ensures TextOf(Normalized(s)).subs == LayoutSubs(ViewOf(Normalized(s)).subs)
  {
    var merged := MergedAll([], s.subs);
    assert ViewSubs([]) + ViewSubs(s.subs) == ViewSubs(s.subs);
    MergedCompacted([], s.subs);
    ViewOfMergedAll([], s.subs);
    var sorted := Sort(merged, SubLe);
    SameCompacted(merged, sorted);
    SameFull(merged, sorted);
    CompactedTexts(Normalized(s).subs);
  }

  lemma {:induction false} SubsNotInTitles(subs: seq<SubView>, keys: set<Key>, title: string)
    requires forall i :: 0 <= i < |subs| ==> subs[i].title != title
    ensures forall i :: 0 <= i < |SubsNotIn(subs, keys)| ==> SubsNotIn(subs, keys)[i].title != title
    decreases |subs|
  {
    if subs != [] { SubsNotInTitles(subs[1..], keys, title); }
  }

  lemma {:induction false} DistinctCons(first: SubView, rest: seq<SubView>)
    requires Distinct(rest) && first.items != [] && forall i :: 0 <= i < |rest| ==> rest[i].title != first.title
    ensures Distinct([first] + rest)
  {
  }

  lemma {:induction false} SubsNotInDistinct(subs: seq<SubView>, keys: set<Key>)
    requires Distinct(subs)
    ensures Distinct(SubsNotIn(subs, keys))
    decreases |subs|
  {
    if subs != [] {
      SubsNotInDistinct(subs[1..], keys);
      SubsNotInTitles(subs[1..], keys, subs[0].title);
      if NotIn(subs[0].items, keys) != [] {
        DistinctCons(SubView(subs[0].title, NotIn(subs[0].items, keys)), SubsNotIn(subs[1..], keys));
      }
    }
  }

  predicate AllDistinct(v: seq<SectionView>) {
    forall i :: 0 <= i < |v| ==> Distinct(v[i].subs)
  }

  lemma {:induction false} DroppedDistinct(sections: seq<Section>, historical: set<Key>)
    requires AllDistinct(View(sections))
    ensures AllDistinct(View(Dropped(sections, historical)))
  {
    ViewOfDropped(sections, historical);
    var v := View(sections);
    var u := FirstUnreleasedView(v);
    if u < |v| { SubsNotInDistinct(v[u].subs, ReleasedSet(v) + historical); }
  }

  lemma {:induction false} SortedLayout(sections: seq<Section>, versions: Versions)
    requires Good(sections) && AllDistinct(View(sections))
    ensures var f := SortedSections(AllNormalized(sections), versions);
            SectionTexts(f) == Layout(View(f))
  {
    var normal := AllNormalized(sections);
    var f := SortedSections(normal, versions);
    SortedKeysIn(normal, versions);
    SectionTextsAt(f);
    forall i | 0 <= i < |f| ensures SectionTexts(f)[i] == Layout(View(f))[i] {
      assert f[i] in f;
      var j :| 0 <= j < |normal| && normal[j] == f[i];
      assert Distinct(View(sections)[j].subs);
      NormalizedLayout(sections[j]);
    }
  }

  /** A file whose sections have no title twice comes out of the fixer fully compacted. */
  lemma {:induction false} FixedLayout(content: seq<Line>, versions: Versions, historical: set<Key>)
    requires BulletLed(content) && AllDistinct(View(Parse(Number(content)).sections))
    ensures var f := FixedDocument(content, versions, {}, historical).sections;
            SectionTexts(f) == Layout(View(f))
  {
    var s := Parse(Number(content)).sections;
    ParsedGood(content);
    DroppedKeys(s, historical);
    DroppedDistinct(s, historical);
    NothingPromoted(Dropped(s, historical));
    assert Promoted(Dropped(s, historical), {}) == Dropped(s, historical);
    SortedLayout(Dropped(s, historical), versions);
  }

  lemma {:induction false} SortedKeysIn(sections: seq<Section>, versions: Versions)
    ensures forall s :: s in SortedSections(sections, versions) <==> s in sections
  {
    TitledIn(sections, true);
    TitledIn(sections, false);
    var released := Titled(sections, false);
    var sorted := Sort(released, SectionLe(versions));
    forall s ensures s in sorted <==> s in released {
      assert s in multiset(sorted) <==> s in multiset(released);
    }
  }

  lemma {:induction false} ViewSubsFull(subs: seq<Subsection>)
    ensures FullSubs(ViewSubs(subs))
    decreases |subs|
  {
    if subs != [] {
      ViewSubsFull(subs[1..]);
      assert |LinesOf(Items(subs[0].lines))| == |Items(subs[0].lines)|;
    }
  }

  lemma {:induction false} ViewFull(sections: seq<Section>)
    ensures AllFull(View(sections))
  {
    forall i | 0 <= i < |sections| ensures FullSubs(View(sections)[i].subs) {
      ViewSubsFull(sections[i].subs);
    }
  }

  /** What one run leaves: a bullet-led file with the fixed view, and the outline it was printed from. */
  lemma {:induction false} OneRun(content: seq<Line>, versions: Versions, historical: set<Key>)
    requires BulletLed(content)
    ensures var d := FixedDocument(content, versions, {}, historical);
            var after := Parse(Number(Render(d)));
            && BulletLed(Render(d)) && OutlineOf(after) == OutlineOf(d)
            && View(after.sections) == FixView(View(Parse(Number(content)).sections), versions, historical)
  {
    var d := FixedDocument(content, versions, {}, historical);
    var after := Parse(Number(Render(d)));
    FixedGood(content, versions, {}, historical);
    PrintedReads(d, content);
    ViewIsOutline(d.sections);
    ViewIsOutline(after.sections);
    ViewOfFixed(content, versions, historical);
    LedFromOutline(d.sections, after.sections);
  }

  predicate AllLed(subs: seq<Subsection>) {
    forall j :: 0 <= j < |subs| ==> Led(Texts(subs[j].lines))
  }

  predicate AllAtBullet(subs: seq<SubText>) {
    forall j :: 0 <= j < |subs| ==> AtBullet(subs[j].lines)
  }

  lemma {:induction false} AllLedFirst(subs: seq<Subsection>)
    requires subs != []
    ensures AllLed(subs) <==> Led(Texts(subs[0].lines)) && AllLed(subs[1..])
  {
    assert forall j :: 0 <= j < |subs[1..]| ==> subs[1..][j] == subs[j + 1];
    assert forall j :: 1 <= j < |subs| ==> subs[j] == subs[1..][j - 1];
  }

  lemma {:induction false} AllAtBulletFirst(first: SubText, rest: seq<SubText>)
    ensures AllAtBullet([first] + rest) <==> AtBullet(first.lines) && AllAtBullet(rest)
  {
    var all := [first] + rest;
    assert all[0] == first;
    assert forall j :: 0 <= j < |rest| ==> rest[j] == all[j + 1];
    assert forall j :: 1 <= j < |all| ==> all[j] == rest[j - 1];
  }

  lemma {:induction false} SubTextsLed(subs: seq<Subsection>)
    ensures AllLed(subs) <==> AllAtBullet(SubTexts(subs))
    decreases |subs|
  {
    if subs != [] {
      SubTextsLed(subs[1..]);
      AllLedFirst(subs);
      var lines := TrimBlank(Texts(subs[0].lines));
      if lines != [] {
        AllAtBulletFirst(SubText(subs[0].title, lines), SubTexts(subs[1..]));
      }
    }
  }

  lemma {:induction false} LedFromOutline(good: seq<Section>, after: seq<Section>)
    requires Good(good) && SectionTexts(good) == SectionTexts(after)
    ensures forall i :: 0 <= i < |after| ==> AllLed(after[i].subs)
  {
    SectionTextsAt(good);
    SectionTextsAt(after);
    forall i | 0 <= i < |after| ensures AllLed(after[i].subs) {
      assert GoodSubs(good[i].subs);
      SubTextsLed(good[i].subs);
      SubTextsLed(after[i].subs);
      assert TextOf(good[i]) == TextOf(after[i]);
    }
  }

  /** The third run changes nothing that the second has written. */
  lemma {:induction false} StableFromSecondRun(content: seq<Line>, versions: Versions, historical: set<Key>)
    requires BulletLed(content)
    ensures var once := Fixed(content, versions, {}, historical);
            var twice := Fixed(once, versions, {}, historical);
            Fixed(twice, versions, {}, historical) == twice
  {
    var once := Fixed(content, versions, {}, historical);
    var twice := Fixed(once, versions, {}, historical);
    var v := View(Parse(Number(content)).sections);
    OneRun(content, versions, historical);
    OneRun(once, versions, historical);
    OneRun(twice, versions, historical);
    ViewFull(Parse(Number(content)).sections);
    FixViewTwice(v, versions, historical);
    FixedLayout(once, versions, historical);
    FixedLayout(twice, versions, historical);
    ViewOfFixed(once, versions, historical);
    ViewOfFixed(twice, versions, historical);
    SamePrefix(once, versions, historical);
  }

  lemma {:induction false} SamePrefix(content: seq<Line>, versions: Versions, historical: set<Key>)
    requires BulletLed(content)
    ensures var after := Fixed(content, versions, {}, historical);
            OutlineOf(FixedDocument(after, versions, {}, historical)).prefix == OutlineOf(FixedDocument(content, versions, {}, historical)).prefix
  {
    OneRun(content, versions, historical);
  }
}
