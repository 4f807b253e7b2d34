/**
 When one run of the fixer without promotions is already enough: exactly when no section keeps
 items under one title twice, the earlier ones ending in an item of several lines. Joining such
 runs leaves a blank line, which only the next run takes out.
 */
module ChangelogStability {
  import opened Wrappers
  import opened Sorting
  import opened ChangelogText
  import opened ChangelogDocument
  import opened ChangelogFix
  import opened ChangelogRoundTrip
  import opened ChangelogConservation
  import opened ChangelogFixpoint

  // ----- The condition, on what a file holds -----

  predicate EndsLong(sub: SubView) {
    sub.items != [] && |sub.items[|sub.items| - 1]| > 1
  }

  predicate Pair(subs: seq<SubView>, i: nat, j: nat) {
    i < j < |subs| && subs[i].title == subs[j].title && EndsLong(subs[i])
  }

  /** Two subsections share a title, and the items of the earlier end in one of several lines. */
  ghost predicate Gapped(subs: seq<SubView>) {
    exists i, j :: Pair(subs, i, j)
  }

  /** Some section of the file has such subsections among the items it keeps. */
  ghost predicate LeavesGap(content: seq<Line>, historical: set<Key>) {
    var kept := DropView(View(Parse(Number(content)).sections), historical);
    exists i :: 0 <= i < |kept| && Gapped(kept[i].subs)
  }

  // ----- Where a run ends -----

  lemma {:induction false} FlatNoLonger(lines: seq<Line>)
    ensures |Flat(ItemTexts(lines))| + |LeadTexts(lines)| <= |lines|
    decreases |lines|
  {
    if lines != [] {
      FlatNoLonger(lines[1..]);
      if lines[0].Bullet? {
        var block := [lines[0]] + LeadTexts(lines[1..]);
        var lo, hi := TrimBlankIs(block);
        assert ([TrimBlank(block)] + ItemTexts(lines[1..]))[1..] == ItemTexts(lines[1..]);
      }
    }
  }

  lemma {:induction false} FlatJoin(a: seq<seq<Line>>, b: seq<seq<Line>>)
    ensures Flat(a + b) == Flat(a) + Flat(b)
    decreases |a|
  {
    if a == [] {
      assert a + b == b;
    } else {
      assert (a + b)[1..] == a[1..] + b;
      FlatJoin(a[1..], b);
    }
  }

  lemma {:induction false} NoItemsAllLead(lines: seq<Line>)
    requires ItemTexts(lines) == []
    ensures LeadTexts(lines) == lines
    decreases |lines|
  {
    if lines != [] && !lines[0].Bullet? { NoItemsAllLead(lines[1..]); }
  }

  /** The last item ends in the last line. */
  lemma {:induction false} LastItem(lines: seq<Line>)
    requires lines != [] && !lines[|lines| - 1].Blank? && ItemTexts(lines) != []
    ensures var last := ItemTexts(lines)[|ItemTexts(lines)| - 1];
            last != [] && last[|last| - 1] == lines[|lines| - 1]
    decreases |lines|
  {
    var rest := lines[1..];
    if ItemTexts(rest) != [] {
      LastItem(rest);
    } else {
      NoItemsAllLead(rest);
      assert [lines[0]] + rest == lines;
      TrimTrimmed(lines);
    }
  }

  /** A run that begins with a bullet and has no blank line at its end. */
  predicate IsRun(lines: seq<Line>) {
    lines != [] && Trimmed(lines) && AtBullet(lines)
  }

  lemma {:induction false} RunEnds(lines: seq<Line>)
    requires IsRun(lines)
    ensures ItemTexts(lines) != []
    ensures |ItemTexts(lines)[|ItemTexts(lines)| - 1]| > 1 <==> !lines[|lines| - 1].Bullet?
  {
    ItemsAreItems(lines);
    LastItem(lines);
    var last := ItemTexts(lines)[|ItemTexts(lines)| - 1];
    assert Block(last);
  }

  /** Joining two runs leaves no blank line exactly when there was none and the first ends in a bullet. */
  lemma {:induction false} JoinLeavesBlankIff(target: seq<Line>, source: seq<Line>)
    requires IsRun(target) && IsRun(source) && source == Flat(ItemTexts(source))
    ensures var all := Append(target, source);
            && IsRun(all)
            && (all == Flat(ItemTexts(all)) <==> target == Flat(ItemTexts(target)) && target[|target| - 1].Bullet?)
  {
    var flat := Flat(ItemTexts(target));
    AppendJoinsItems(target, source);
    FlatJoin(ItemTexts(target), ItemTexts(source));
    FlatNoLonger(target);
    JoinedIs(target, source);
    CancelEnd(target, flat, source);
    CancelEnd(target + [EMPTY], flat, source);
  }

  lemma {:induction false} JoinedIs(target: seq<Line>, source: seq<Line>)
    requires IsRun(target) && IsRun(source)
    ensures IsRun(Append(target, source))
    ensures Append(target, source) == (if target[|target| - 1].Bullet? then target else target + [EMPTY]) + source
  {
    TrimTrimmed(target);
    TrimTrimmed(source);
    assert target + [] == target;
  }

  // ----- Normalizing one section -----

  predicate Runs(subs: seq<Subsection>) {
    forall j :: 0 <= j < |subs| ==> IsRun(Texts(subs[j].lines))
  }

  lemma {:induction false} MergedGap(done: seq<Subsection>, sub: Subsection)
    requires GoodSubs(done) && GoodSub(sub) && Full(done) && Runs(done) && Items(sub.lines) != []
    ensures var n := FirstTitledView(ViewSubs(done), sub.title);
            && Runs(Merged(done, sub)) && |ViewSubs(done)| == |done|
            && (Compacted(Merged(done, sub)) <==> Compacted(done) && !(n < |done| && EndsLong(ViewSubs(done)[n])))
  {
    var lines := Compact(TrimBlank(Texts(sub.lines)));
    var n := FirstTitled(done, sub.title);
    CompactItems(sub);
    CompactGood(Texts(sub.lines));
    TextsOfSynthetic(lines);
    TitledSeen(done, sub.title);
    FullView(done);
    if n < |done| {
      var t := Texts(done[n].lines);
      JoinLeavesBlankIff(t, lines);
      RunEnds(t);
      ItemsErase(done[n].lines);
      TextsOfSynthetic(Append(t, lines));
      PutRun(done, n, done[n].(lines := Synthetic(Append(t, lines))), t[|t| - 1].Bullet?);
    } else {
      AddRun(done, Subsection(sub.title, Synthetic(lines)));
    }
  }

  predicate IsCompact(sub: Subsection) {
    Texts(sub.lines) == Flat(ItemTexts(Texts(sub.lines)))
  }

  lemma {:induction false} PutRun(done: seq<Subsection>, n: nat, sub: Subsection, clean: bool)
    requires Runs(done) && n < |done| && IsRun(Texts(sub.lines))
    requires IsCompact(sub) <==> IsCompact(done[n]) && clean
    ensures Runs(done[n := sub]) && (Compacted(done[n := sub]) <==> Compacted(done) && clean)
  {
    var after := done[n := sub];
    assert after[n] == sub && forall j :: 0 <= j < |done| && j != n ==> after[j] == done[j];
    if Compacted(after) {
      assert IsCompact(after[n]);
      forall j | 0 <= j < |done| ensures IsCompact(done[j]) {
        if j != n { assert after[j] == done[j]; }
      }
    }
    if Compacted(done) && clean { assert IsCompact(done[n]); }
  }

  lemma {:induction false} AddRun(done: seq<Subsection>, sub: Subsection)
    requires Runs(done) && IsRun(Texts(sub.lines)) && IsCompact(sub)
    ensures Runs(done + [sub]) && (Compacted(done + [sub]) <==> Compacted(done))
  {
    var after := done + [sub];
    assert after[|done|] == sub && forall j :: 0 <= j < |done| ==> after[j] == done[j];
  }

  /** The same decided by the views, one subsection after the other. */
  predicate GapIn(done: seq<SubView>, subs: seq<SubView>)
    decreases |subs|
  {
    subs != [] &&
    var n := FirstTitledView(done, subs[0].title);
    (n < |done| && EndsLong(done[n])) || GapIn(MergeView(done, subs[0]), subs[1..])
  }

  lemma {:induction false} MergedAllGap(done: seq<Subsection>, subs: seq<Subsection>)
    requires GoodSubs(done) && GoodSubs(subs) && Full(done) && Runs(done)
    ensures Runs(MergedAll(done, subs))
    ensures Compacted(MergedAll(done, subs)) <==> Compacted(done) && !GapIn(ViewSubs(done), ViewSubs(subs))
    decreases |subs|
  {
    if subs != [] {
      var sub, rest := subs[0], ViewSubs(subs[1..]);
      if Items(sub.lines) == [] {
        MergedNothing(done, sub);
      } else {
        MergedGap(done, sub);
        assert ([SubViewOf(sub)] + rest)[1..] == rest;
      }
      ViewOfMerged(done, sub);
      MergedAllGap(Merged(done, sub), subs[1..]);
    }
  }

  ghost predicate PairFrom(subs: seq<SubView>, k: nat) {
    exists i, j :: j >= k && Pair(subs, i, j)
  }

  /** Only the latest subsection of a title matters, and some latest one does if any does. */
  lemma {:induction false} GapInIff(done: seq<SubView>, subs: seq<SubView>)
    requires Distinct(done) && FullSubs(subs)
    ensures GapIn(done, subs) <==> PairFrom(done + subs, |done|)
    decreases |subs|
  {
    if subs == [] {
      NoPairPast(done);
      assert done + subs == done;
    } else {
      MergeKeepsDistinct(done, subs[0]);
      FullRest(subs);
      GapInIff(MergeView(done, subs[0]), subs[1..]);
      GapStep(done, subs);
    }
  }

  lemma {:induction false} FullRest(subs: seq<SubView>)
    requires FullSubs(subs) && subs != []
    ensures subs[0].items != [] && FullSubs(subs[1..])
  {
  }

  lemma {:induction false} NoPairPast(done: seq<SubView>)
    ensures !PairFrom(done, |done|)
  {
  }

  lemma {:induction false} MergeKeepsDistinct(done: seq<SubView>, sub: SubView)
    requires Distinct(done) && sub.items != []
    ensures Distinct(MergeView(done, sub))
  {
  }

  lemma {:induction false} GapStep(done: seq<SubView>, subs: seq<SubView>)
    requires Distinct(done) && subs != [] && subs[0].items != []
    ensures var n, merged := FirstTitledView(done, subs[0].title), MergeView(done, subs[0]);
            PairFrom(done + subs, |done|) <==>
              (n < |done| && EndsLong(done[n])) || PairFrom(merged + subs[1..], |merged|)
  {
    var n := FirstTitledView(done, subs[0].title);
    var all := done + subs;
    if n == |done| {
      assert done + [subs[0]] + subs[1..] == all;
      forall i: nat, j: nat | j >= |done| && Pair(all, i, j) ensures j >= |done| + 1 {}
    } else if EndsLong(done[n]) {
      assert Pair(all, n, |done|);
    } else {
      GapShifts(done, subs, n);
    }
  }

  lemma {:induction false} GapShifts(done: seq<SubView>, subs: seq<SubView>, n: nat)
    requires Distinct(done) && subs != [] && subs[0].items != []
    requires n < |done| && n == FirstTitledView(done, subs[0].title) && !EndsLong(done[n])
    ensures PairFrom(done + subs, |done|) <==> PairFrom(MergeView(done, subs[0]) + subs[1..], |done|)
  {
    var all, less := done + subs, MergeView(done, subs[0]) + subs[1..];
    assert EndsLong(less[n]) == EndsLong(subs[0]);
    if PairFrom(all, |done|) {
      var i: nat, j: nat :| j >= |done| && Pair(all, i, j);
      assert j != |done|;
      assert all[j] == less[j - 1];
      assert Pair(less, if i < |done| then i else if i == |done| then n else i - 1, j - 1);
    }
    if PairFrom(less, |done|) {
      var i: nat, j: nat :| j >= |done| && Pair(less, i, j);
      assert less[j] == all[j + 1];
      assert Pair(all, if i == n then |done| else if i < |done| then i else i + 1, j + 1);
    }
  }

  /** Whether a list of runs has blank lines between items shows in its text. */
  lemma {:induction false} CompactedIffLayout(subs: seq<Subsection>)
    requires Runs(subs) && Full(subs)
    ensures SubTexts(subs) == LayoutSubs(ViewSubs(subs)) <==> Compacted(subs)
    decreases |subs|
  {
    if subs != [] {
      CompactedRest(subs);
      CompactedIffLayout(subs[1..]);
      LayoutFirst(subs);
      SameCons(SubText(subs[0].title, Texts(subs[0].lines)), SubTexts(subs[1..]),
               SubText(subs[0].title, Flat(ItemTexts(Texts(subs[0].lines)))), LayoutSubs(ViewSubs(subs[1..])));
    }
  }

  lemma {:induction false} CompactedRest(subs: seq<Subsection>)
    requires Runs(subs) && Full(subs) && subs != []
    ensures Runs(subs[1..]) && Full(subs[1..])
    ensures Compacted(subs) <==> IsCompact(subs[0]) && Compacted(subs[1..])
  {
    assert forall j :: 0 <= j < |subs[1..]| ==> subs[1..][j] == subs[j + 1];
    assert forall j :: 1 <= j < |subs| ==> subs[j] == subs[1..][j - 1];
  }

  lemma {:induction false} LayoutFirst(subs: seq<Subsection>)
    requires subs != [] && IsRun(Texts(subs[0].lines)) && Items(subs[0].lines) != []
    ensures var lines := Texts(subs[0].lines);
            && SubTexts(subs) == [SubText(subs[0].title, lines)] + SubTexts(subs[1..])
            && LayoutSubs(ViewSubs(subs)) == [SubText(subs[0].title, Flat(ItemTexts(lines)))] + LayoutSubs(ViewSubs(subs[1..]))
  {
    TrimTrimmed(Texts(subs[0].lines));
    ItemsErase(subs[0].lines);
    var first, rest := SubViewOf(subs[0]), ViewSubs(subs[1..]);
    assert ViewSubs(subs) == [first] + rest;
    assert LayoutSubs([first] + rest) == [SubText(first.title, Flat(first.items))] + LayoutSubs(rest);
  }

  lemma {:induction false} SameCons<T>(x: T, a: seq<T>, y: T, b: seq<T>)
    ensures [x] + a == [y] + b <==> x == y && a == b
  {
    assert ([x] + a)[0] == x && ([x] + a)[1..] == a;
    assert ([y] + b)[0] == y && ([y] + b)[1..] == b;
  }

  lemma {:induction false} SameRuns(a: seq<Subsection>, b: seq<Subsection>)
    requires multiset(a) == multiset(b) && Runs(a)
    ensures Runs(b)
  {
    forall j | 0 <= j < |b| ensures IsRun(Texts(b[j].lines)) {
      assert b[j] in multiset(b);
      assert b[j] in a;
    }
  }

  lemma {:induction false} PairFromStart(subs: seq<SubView>)
    ensures Gapped(subs) <==> PairFrom(subs, 0)
  {
    if Gapped(subs) {
      var i, j :| Pair(subs, i, j);
      assert j >= 0 && Pair(subs, i, j);
    }
  }

  lemma {:induction false} SortKeepsRuns(subs: seq<Subsection>)
    requires Runs(subs) && Full(subs)
    ensures var sorted := Sort(subs, SubLe); Runs(sorted) && Full(sorted) && (Compacted(sorted) <==> Compacted(subs))
  {
    var sorted := Sort(subs, SubLe);
    SameRuns(subs, sorted);
    SameFull(subs, sorted);
    if Compacted(subs) { SameCompacted(subs, sorted); }
    if Compacted(sorted) { SameCompacted(sorted, subs); }
  }

  lemma {:induction false} MergingGap(subs: seq<Subsection>)
    requires GoodSubs(subs)
    ensures var merged := MergedAll([], subs);
            Runs(merged) && Full(merged) && (Compacted(merged) <==> !Gapped(ViewSubs(subs)))
  {
    MergedAllGap([], subs);
    ViewOfMergedAll([], subs);
    ViewSubsFull(subs);
    GapInIff([], ViewSubs(subs));
    assert ViewSubs([]) == [] && [] + ViewSubs(subs) == ViewSubs(subs);
    PairFromStart(ViewSubs(subs));
  }

  lemma {:induction false} NormalGap(s: Section)
    requires GoodSubs(s.subs)
    ensures TextOf(Normalized(s)).subs == LayoutSubs(ViewOf(Normalized(s)).subs) <==> !Gapped(ViewSubs(s.subs))
  {
    MergingGap(s.subs);
    SortKeepsRuns(MergedAll([], s.subs));
    CompactedIffLayout(Normalized(s).subs);
  }

  // ----- The whole file -----

  lemma {:induction false} FixedLayoutIff(content: seq<Line>, versions: Versions, historical: set<Key>)
    requires BulletLed(content)
    ensures var f := FixedDocument(content, versions, {}, historical).sections;
            SectionTexts(f) == Layout(View(f)) <==> !LeavesGap(content, historical)
  {
    var s := Parse(Number(content)).sections;
    var dropped := Dropped(s, historical);
    ParsedGood(content);
    DroppedKeys(s, historical);
    ViewOfDropped(s, historical);
    NothingPromoted(dropped);
    assert Promoted(dropped, {}) == dropped;
    SortedLayoutIff(dropped, versions);
  }

  lemma {:induction false} SortedLayoutIff(sections: seq<Section>, versions: Versions)
    requires Good(sections)
    ensures var f := SortedSections(AllNormalized(sections), versions);
            SectionTexts(f) == Layout(View(f)) <==> forall i :: 0 <= i < |sections| ==> !Gapped(View(sections)[i].subs)
  {
    var normal := AllNormalized(sections);
    var f := SortedSections(normal, versions);
    SortedKeysIn(normal, versions);
    SectionTextsAt(f);
    forall i | 0 <= i < |sections|
      ensures TextOf(normal[i]).subs == LayoutSubs(ViewOf(normal[i]).subs) <==> !Gapped(View(sections)[i].subs)
    {
      NormalGap(sections[i]);
    }
    if SectionTexts(f) == Layout(View(f)) {
      forall i | 0 <= i < |sections| ensures !Gapped(View(sections)[i].subs) {
        assert normal[i] in f;
        var k :| 0 <= k < |f| && f[k] == normal[i];
        assert SectionTexts(f)[k] == Layout(View(f))[k];
      }
    } else if forall i :: 0 <= i < |sections| ==> !Gapped(View(sections)[i].subs) {
      forall k | 0 <= k < |f| ensures SectionTexts(f)[k] == Layout(View(f))[k] {
        assert f[k] in f;
        var i :| 0 <= i < |normal| && normal[i] == f[k];
        assert !Gapped(View(sections)[i].subs);
      }
    }
  }

  /**
   The first run is already stable if and only if no section keeps items under one title twice,
   the earlier ending in an item of several lines.
   */
  lemma {:induction false} StableFromFirstRunIff(content: seq<Line>, versions: Versions, historical: set<Key>)
    requires BulletLed(content)
    ensures var once := Fixed(content, versions, {}, historical);
            Fixed(once, versions, {}, historical) == once <==> !LeavesGap(content, historical)
  {
    var once := Fixed(content, versions, {}, historical);
    var d, e := FixedDocument(content, versions, {}, historical), FixedDocument(once, versions, {}, historical);
    FixedLayoutIff(content, versions, historical);
    OneRun(content, versions, historical);
    OneRun(once, versions, historical);
    ViewFull(Parse(Number(content)).sections);
    FixViewTwice(View(Parse(Number(content)).sections), versions, historical);
    ViewOfFixed(content, versions, historical);
    ViewOfFixed(once, versions, historical);
    FixedLayout(once, versions, historical);
    SamePrefix(content, versions, historical);
    assert OutlineOf(e) == Outline(OutlineOf(d).prefix, Layout(View(d.sections)));
  }

  // ----- A file whose first run is not stable -----

  const A := Numbered(Bullet("- a"), 3)
  const MORE := Numbered(Text("  more"), 4)
  const B := Numbered(Bullet("- b"), 6)

  /** Two subsections of one title; the first item has a continuation line. */
  const SPLIT_FIXES: seq<Line> := [
    Release("## [1.0.0]", "1.0.0"),
    Sub("Fixed", 0), A.line, MORE.line,
    Sub("Fixed", 0), B.line
  ]

  const FIXES := [Subsection("Fixed", [A, MORE]), Subsection("Fixed", [B])]

  /** A line of an item, in front of more. */
  lemma {:induction false} ItemLine(x: Numbered, rest: seq<Numbered>)
    requires !x.line.Sub? && !x.line.Release?
    ensures BeforeSub([x] + rest) == [x] + BeforeSub(rest) && SubsOf([x] + rest) == SubsOf(rest)
    ensures BeforeRelease([x] + rest) == [x] + BeforeRelease(rest) && SectionsOf([x] + rest) == SectionsOf(rest)
  {
    assert ([x] + rest)[1..] == rest;
  }

  /** A subsection heading, in front of more. */
  lemma {:induction false} SubLine(x: Numbered, rest: seq<Numbered>)
    requires x.line.Sub?
    ensures BeforeSub([x] + rest) == [] && SubsOf([x] + rest) == [Subsection(x.line.title, BeforeSub(rest))] + SubsOf(rest)
    ensures BeforeRelease([x] + rest) == [x] + BeforeRelease(rest) && SectionsOf([x] + rest) == SectionsOf(rest)
  {
    assert ([x] + rest)[1..] == rest;
  }

  /** A release heading in front of one section. */
  lemma {:induction false} ReleaseLine(x: Numbered, rest: seq<Numbered>)
    requires x.line.Release? && BeforeRelease(rest) == rest && SectionsOf(rest) == []
    ensures Parse([x] + rest).sections == [SectionFrom(x.line, rest)]
  {
    assert ([x] + rest)[1..] == rest;
  }

  lemma {:induction false} ParseSplitFixes()
    ensures Parse(Number(SPLIT_FIXES)).sections == [Section("## [1.0.0]", "1.0.0", [], FIXES)]
  {
    var none: seq<Numbered> := [];
    var title, other := Numbered(Sub("Fixed", 0), 2), Numbered(Sub("Fixed", 0), 5);
    var heading := Numbered(Release("## [1.0.0]", "1.0.0"), 1);
    var last := [B] + none;
    var second := [other] + last;
    var more := [MORE] + second;
    var item := [A] + more;
    var body := [title] + item;
    assert BeforeSub(none) == [] && SubsOf(none) == [] && BeforeRelease(none) == [] && SectionsOf(none) == [];
    ItemLine(B, none);
    assert BeforeSub(last) == [B] && SubsOf(last) == [];
    SubLine(other, last);
    assert SubsOf(second) == [FIXES[1]] && BeforeSub(second) == [];
    ItemLine(MORE, second);
    ItemLine(A, more);
    assert BeforeSub(more) == [MORE] && BeforeSub(item) == [A, MORE] && SubsOf(item) == [FIXES[1]];
    SubLine(title, item);
    assert SubsOf(body) == [FIXES[0]] + [FIXES[1]] && BeforeSub(body) == [];
    ReleaseLine(heading, body);
    assert FIXES == [FIXES[0]] + [FIXES[1]];
    assert SectionFrom(heading.line, body) == Section("## [1.0.0]", "1.0.0", [], FIXES);
    assert Number(SPLIT_FIXES) == [heading] + body;
  }

  lemma {:induction false} ViewSplitFixes()
    ensures ViewSubs(FIXES) == [SubView("Fixed", [[A.line, MORE.line]]), SubView("Fixed", [[B.line]])]
    ensures Led(Texts(FIXES[0].lines)) && Led(Texts(FIXES[1].lines))
  {
    var first, second := [A.line, MORE.line], [B.line];
    assert Texts(FIXES[0].lines) == first && Texts(FIXES[1].lines) == second;
    OneBlock(first);
    OneBlock(second);
    ItemsErase(FIXES[0].lines);
    ItemsErase(FIXES[1].lines);
    TrimTrimmed(first);
    TrimTrimmed(second);
    assert FIXES[1..] == [FIXES[1]] && FIXES[1..][1..] == [];
    assert |LinesOf(Items(FIXES[0].lines))| == |Items(FIXES[0].lines)|;
    assert |LinesOf(Items(FIXES[1].lines))| == |Items(FIXES[1].lines)|;
    assert ViewSubs([FIXES[1]]) == [SubView("Fixed", [second])];
  }

  lemma {:induction false} OneBlock(block: seq<Line>)
    requires Block(block) && Trimmed(block)
    ensures ItemTexts(block) == [block]
  {
    BlockFirst(block, []);
    assert block + [] == block;
  }

  /** Fixing this file once leaves a blank line between its two items; fixing it again removes it. */
  lemma {:induction false} SplitFixesUnstable(versions: Versions, historical: set<Key>)
    ensures BulletLed(SPLIT_FIXES)
    ensures var once := Fixed(SPLIT_FIXES, versions, {}, historical);
            Fixed(once, versions, {}, historical) != once
  {
    var sections := Parse(Number(SPLIT_FIXES)).sections;
    ParseSplitFixes();
    ViewSplitFixes();
    assert forall j :: 0 <= j < |FIXES| ==> Led(Texts(FIXES[j].lines));
    var kept := DropView(View(sections), historical);
    assert kept == View(sections) && kept[0].subs == ViewSubs(FIXES);
    assert Pair(kept[0].subs, 0, 1);
    assert Gapped(kept[0].subs);
    StableFromFirstRunIff(SPLIT_FIXES, versions, historical);
  }
}
