/**
 Where the fixer puts each item: under which release and which heading it stands afterwards, said
 of the document it was given.
 */
module ChangelogPlacement {
  import opened Wrappers
  import opened Sorting
  import opened ChangelogText
  import opened ChangelogDocument
  import opened ChangelogFix
  import opened ChangelogConservation
  import opened ChangelogFixpoint

  predicate InSub(sub: Subsection, t: string, k: Key) {
    sub.title == t && k in KeysOf(Items(sub.lines))
  }

  /** An item with the text `k` stands under the heading `t`. */
  ghost predicate Under(subs: seq<Subsection>, t: string, k: Key) {
    exists j :: 0 <= j < |subs| && InSub(subs[j], t, k)
  }

  /** The same in some section of the release `v`. */
  ghost predicate Has(sections: seq<Section>, v: string, t: string, k: Key) {
    exists i :: 0 <= i < |sections| && sections[i].title == v && Under(sections[i].subs, t, k)
  }

  /** An item of that text, added in the lines `starts` or not. */
  ghost predicate SubWith(sub: Subsection, t: string, k: Key, starts: set<nat>, added: bool) {
    sub.title == t && exists it :: it in Items(sub.lines) && it.lines == k && (it.startLine in starts) == added
  }

  ghost predicate UnderWith(subs: seq<Subsection>, t: string, k: Key, starts: set<nat>, added: bool) {
    exists j :: 0 <= j < |subs| && SubWith(subs[j], t, k, starts, added)
  }

  ghost predicate HasWith(sections: seq<Section>, v: string, t: string, k: Key, starts: set<nat>, added: bool) {
    exists i :: 0 <= i < |sections| && sections[i].title == v && UnderWith(sections[i].subs, t, k, starts, added)
  }

  /** Some released section has an item of that text, under whatever heading. */
  ghost predicate Released(sections: seq<Section>, k: Key) {
    exists i, t :: 0 <= i < |sections| && sections[i].title != UNRELEASED && Under(sections[i].subs, t, k)
  }

  // ----- Lists -----

  lemma {:induction false} UnderJoin(a: seq<Subsection>, b: seq<Subsection>, t: string, k: Key)
    ensures Under(a + b, t, k) <==> Under(a, t, k) || Under(b, t, k)
  {
    var all := a + b;
    if j :| 0 <= j < |a| && InSub(a[j], t, k) { assert all[j] == a[j]; }
    if j :| 0 <= j < |b| && InSub(b[j], t, k) { assert all[|a| + j] == b[j]; }
    if j :| 0 <= j < |all| && InSub(all[j], t, k) { assert all[j] == if j < |a| then a[j] else b[j - |a|]; }
  }

  lemma {:induction false} UnderOne(sub: Subsection, t: string, k: Key)
    ensures Under([sub], t, k) <==> InSub(sub, t, k)
  {
    assert [sub][0] == sub;
  }

  lemma {:induction false} UnderCons(subs: seq<Subsection>, t: string, k: Key)
    requires subs != []
    ensures Under(subs, t, k) <==> InSub(subs[0], t, k) || Under(subs[1..], t, k)
  {
    assert subs == [subs[0]] + subs[1..];
    UnderJoin([subs[0]], subs[1..], t, k);
    UnderOne(subs[0], t, k);
  }

  /** A subsection of the list grows by some keys, under the title it has. */
  lemma {:induction false} UnderPut(subs: seq<Subsection>, n: nat, sub: Subsection, more: set<Key>, t: string, k: Key)
    requires n < |subs| && sub.title == subs[n].title
    requires KeysOf(Items(sub.lines)) == KeysOf(Items(subs[n].lines)) + more
    ensures Under(subs[n := sub], t, k) <==> Under(subs, t, k) || (t == sub.title && k in more)
  {
    var all := subs[n := sub];
    if j :| 0 <= j < |subs| && InSub(subs[j], t, k) { assert InSub(all[j], t, k); }
    if j :| 0 <= j < |all| && InSub(all[j], t, k) { assert j != n ==> InSub(subs[j], t, k); }
    if t == sub.title && k in more { assert InSub(all[n], t, k); }
  }

  lemma {:induction false} SubsKeysUnder(subs: seq<Subsection>, k: Key)
    ensures k in SubsKeys(subs) <==> exists t :: Under(subs, t, k)
  {
    SubsKeysIn(subs, k);
    if k in SubsKeys(subs) {
      var j :| 0 <= j < |subs| && k in KeysOf(Items(subs[j].lines));
      assert InSub(subs[j], subs[j].title, k);
      assert Under(subs, subs[j].title, k);
    }
  }

  lemma {:induction false} ReleasedKeysAre(sections: seq<Section>, k: Key)
    ensures k in ReleasedKeys(sections) <==> Released(sections, k)
    decreases |sections|
  {
    if sections != [] {
      var rest := sections[1..];
      ReleasedKeysAre(rest, k);
      SubsKeysUnder(sections[0].subs, k);
      if i, t :| 0 <= i < |rest| && rest[i].title != UNRELEASED && Under(rest[i].subs, t, k) {
        assert Under(sections[i + 1].subs, t, k);
      }
      if i, t :| 0 <= i < |sections| && sections[i].title != UNRELEASED && Under(sections[i].subs, t, k) {
        if i > 0 { assert Under(rest[i - 1].subs, t, k); }
      }
    }
  }

  // ----- Dropping -----

  lemma {:induction false} DroppedSubs(subs: seq<Subsection>, keys: set<Key>, t: string, k: Key)
    ensures Under(SubsWithout(subs, Keyed(keys)), t, k) <==> Under(subs, t, k) && k !in keys
  {
    var out := SubsWithout(subs, Keyed(keys));
    forall j | 0 <= j < |subs| ensures InSub(out[j], t, k) <==> InSub(subs[j], t, k) && k !in keys {
      KeptKeys(subs[j].lines, keys);
    }
  }

  /** Section `i` is the first Unreleased one. */
  predicate FirstOpen(sections: seq<Section>, i: nat) {
    i < |sections| && sections[i].title == UNRELEASED && forall j :: 0 <= j < i ==> sections[j].title != UNRELEASED
  }

  /** What is left under a heading of a section: the first Unreleased one gives up what is released already. */
  ghost predicate LeftUnder(sections: seq<Section>, historical: set<Key>, i: nat, t: string, k: Key)
    requires i < |sections|
  {
    Under(sections[i].subs, t, k) && (FirstOpen(sections, i) ==> k !in historical && !Released(sections, k))
  }

  lemma {:induction false} DropPlaces(sections: seq<Section>, historical: set<Key>, i: nat, t: string, k: Key)
    requires i < |sections|
    ensures |Dropped(sections, historical)| == |sections| && Dropped(sections, historical)[i].title == sections[i].title
    ensures sections[i].title != UNRELEASED ==> Dropped(sections, historical)[i] == sections[i]
    ensures Under(Dropped(sections, historical)[i].subs, t, k) <==> LeftUnder(sections, historical, i, t, k)
  {
    var u := FirstUnreleased(sections);
    ReleasedKeysAre(sections, k);
    if u < |sections| {
      DroppedSubs(sections[u].subs, ReleasedKeys(sections) + historical, t, k);
      assert FirstOpen(sections, i) <==> i == u;
    }
  }

  // ----- Promoting -----

  lemma {:induction false} StaySub(sub: Subsection, starts: set<nat>, t: string, k: Key)
    ensures InSub(sub.(lines := Kept(sub.lines, Starting(starts))), t, k) <==> SubWith(sub, t, k, starts, false)
    ensures sub.title == t && k in GroupOf(sub, starts).items <==> SubWith(sub, t, k, starts, true)
  {
    ItemsOfKept(sub.lines, Starting(starts));
    PickKeys(Items(sub.lines), Not(Starting(starts)));
    PickKeys(Items(sub.lines), Starting(starts));
    var stay, go := Pick(Items(sub.lines), Not(Starting(starts))), Pick(Items(sub.lines), Starting(starts));
    LinesOfKeys(go);
    assert k in GroupOf(sub, starts).items <==> k in SetOf(LinesOf(go));
    assert forall it :: it in stay <==> it in Items(sub.lines) && it.startLine !in starts;
    assert forall it :: it in go <==> it in Items(sub.lines) && it.startLine in starts;
  }

  lemma {:induction false} StaySubs(subs: seq<Subsection>, starts: set<nat>, t: string, k: Key)
    ensures Under(SubsWithout(subs, Starting(starts)), t, k) <==> UnderWith(subs, t, k, starts, false)
  {
    var out := SubsWithout(subs, Starting(starts));
    forall j | 0 <= j < |subs| ensures InSub(out[j], t, k) <==> SubWith(subs[j], t, k, starts, false) {
      StaySub(subs[j], starts, t, k);
    }
  }

  /** One of the groups brings the item under the heading. */
  predicate Brings(groups: seq<Group>, t: string, k: Key) {
    exists g :: 0 <= g < |groups| && groups[g].title == t && k in groups[g].items
  }

  lemma {:induction false} BringsJoin(a: seq<Group>, b: seq<Group>, t: string, k: Key)
    ensures Brings(a + b, t, k) <==> Brings(a, t, k) || Brings(b, t, k)
  {
    var all := a + b;
    if g :| 0 <= g < |a| && a[g].title == t && k in a[g].items { assert all[g] == a[g]; }
    if g :| 0 <= g < |b| && b[g].title == t && k in b[g].items { assert all[|a| + g] == b[g]; }
    if g :| 0 <= g < |all| && all[g].title == t && k in all[g].items { assert all[g] == if g < |a| then a[g] else b[g - |a|]; }
  }

  lemma {:induction false} BringsCons(groups: seq<Group>, t: string, k: Key)
    requires groups != []
    ensures Brings(groups, t, k) <==> (groups[0].title == t && k in groups[0].items) || Brings(groups[1..], t, k)
  {
    assert groups == [groups[0]] + groups[1..];
    BringsJoin([groups[0]], groups[1..], t, k);
    assert [groups[0]][0] == groups[0];
  }

  lemma {:induction false} GroupsBring(subs: seq<Subsection>, starts: set<nat>, t: string, k: Key)
    ensures Brings(GroupsOf(subs, starts), t, k) <==> UnderWith(subs, t, k, starts, true)
    decreases |subs|
  {
    if subs != [] {
      var rest := subs[1..];
      var g := GroupOf(subs[0], starts);
      GroupsBring(rest, starts, t, k);
      StaySub(subs[0], starts, t, k);
      BringsJoin([g], GroupsOf(rest, starts), t, k);
      assert [g][0] == g;
      UnderWithCons(subs, t, k, starts, true);
    }
  }

  lemma {:induction false} UnderWithCons(subs: seq<Subsection>, t: string, k: Key, starts: set<nat>, added: bool)
    requires subs != []
    ensures UnderWith(subs, t, k, starts, added) <==> SubWith(subs[0], t, k, starts, added) || UnderWith(subs[1..], t, k, starts, added)
  {
    var rest := subs[1..];
    if j :| 0 <= j < |rest| && SubWith(rest[j], t, k, starts, added) { assert SubWith(subs[j + 1], t, k, starts, added); }
    if j :| 0 <= j < |subs| && SubWith(subs[j], t, k, starts, added) {
      if j > 0 { assert SubWith(rest[j - 1], t, k, starts, added); }
    }
  }

  /** Some released section has an added item of that text under that heading. */
  ghost predicate Added(sections: seq<Section>, t: string, k: Key, starts: set<nat>) {
    exists i :: 0 <= i < |sections| && sections[i].title != UNRELEASED && UnderWith(sections[i].subs, t, k, starts, true)
  }

  lemma {:induction false} LeavingBrings(sections: seq<Section>, starts: set<nat>, t: string, k: Key)
    ensures Brings(Leaving(sections, starts), t, k) <==> Added(sections, t, k, starts)
    decreases |sections|
  {
    if sections != [] {
      var rest := sections[1..];
      LeavingBrings(rest, starts, t, k);
      GroupsBring(sections[0].subs, starts, t, k);
      BringsJoin(GroupsOf(sections[0].subs, starts), Leaving(rest, starts), t, k);
      if i :| 0 <= i < |rest| && rest[i].title != UNRELEASED && UnderWith(rest[i].subs, t, k, starts, true) {
        assert UnderWith(sections[i + 1].subs, t, k, starts, true);
      }
      if i :| 0 <= i < |sections| && sections[i].title != UNRELEASED && UnderWith(sections[i].subs, t, k, starts, true) {
        if i > 0 { assert UnderWith(rest[i - 1].subs, t, k, starts, true); }
      }
    }
  }

  lemma {:induction false} AddGroupUnder(s: Section, g: Group, t: string, k: Key)
    requires GoodSubs(s.subs) && GoodItems(g.items)
    ensures Under(AddGroup(s, g).subs, t, k) <==> Under(s.subs, t, k) || (g.title == t && k in g.items)
    ensures AddGroup(s, g).title == s.title
  {
    match LastTitled(s.subs, g.title)
    case Some(n) =>
      AddToKeys(s.subs[n], g.items);
      AddToTitle(s.subs[n], g.items);
      UnderPut(s.subs, n, AddTo(s.subs[n], g.items), SetOf(g.items), t, k);
    case None =>
      var sub := Subsection(g.title, []);
      TrimTrimmed([]);
      assert Texts([]) == [];
      AddToKeys(sub, g.items);
      AddToTitle(sub, g.items);
      UnderJoin(s.subs, [AddTo(sub, g.items)], t, k);
      UnderOne(AddTo(sub, g.items), t, k);
      assert KeysOf(Items(sub.lines)) == {};
  }

  lemma {:induction false} AddToTitle(sub: Subsection, items: seq<Key>)
    ensures AddTo(sub, items).title == sub.title
    decreases |items|
  {
    if items != [] {
      AddToTitle(sub, items[1..]);
      AddToTitle(sub.(lines := Synthetic(Append(Texts(sub.lines), items[0]))), items[1..]);
    }
  }

  lemma {:induction false} AddGroupsUnder(s: Section, groups: seq<Group>, t: string, k: Key)
    requires GoodSubs(s.subs) && GoodGroups(groups)
    ensures Under(AddGroups(s, groups).subs, t, k) <==> Under(s.subs, t, k) || Brings(groups, t, k)
    ensures AddGroups(s, groups).title == s.title
    decreases |groups|
  {
    if groups != [] {
      AddGroupKeys(s, groups[0]);
      AddGroupUnder(s, groups[0], t, k);
      AddGroupsUnder(AddGroup(s, groups[0]), groups[1..], t, k);
      BringsCons(groups, t, k);
    }
  }

  /** What stays in one section while added items leave the released ones. */
  ghost predicate StaysUnder(s: Section, t: string, k: Key, starts: set<nat>) {
    if s.title == UNRELEASED then Under(s.subs, t, k) else UnderWith(s.subs, t, k, starts, false)
  }

  lemma {:induction false} StayingPlaces(s: Section, starts: set<nat>, t: string, k: Key)
    ensures Staying(s, starts).title == s.title
    ensures Under(Staying(s, starts).subs, t, k) <==> StaysUnder(s, t, k, starts)
  {
    StaySubs(s.subs, starts, t, k);
  }

  ghost predicate Stays(sections: seq<Section>, v: string, t: string, k: Key, starts: set<nat>) {
    exists i :: 0 <= i < |sections| && sections[i].title == v && StaysUnder(sections[i], t, k, starts)
  }

  lemma {:induction false} BasePlaces(sections: seq<Section>, starts: set<nat>, v: string, t: string, k: Key)
    ensures Has(AllStaying(sections, starts), v, t, k) <==> Stays(sections, v, t, k, starts)
  {
    var base := AllStaying(sections, starts);
    forall i | 0 <= i < |sections|
      ensures base[i].title == sections[i].title && (Under(base[i].subs, t, k) <==> StaysUnder(sections[i], t, k, starts))
    {
      StayingPlaces(sections[i], starts, t, k);
    }
  }

  lemma {:induction false} PutPlaces(base: seq<Section>, u: nat, s: Section, v: string, t: string, k: Key, more: bool)
    requires u < |base| && s.title == base[u].title && (Under(s.subs, t, k) <==> Under(base[u].subs, t, k) || more)
    ensures Has(base[u := s], v, t, k) <==> Has(base, v, t, k) || (v == s.title && more)
  {
    var all := base[u := s];
    if i :| 0 <= i < |base| && base[i].title == v && Under(base[i].subs, t, k) { assert all[i].title == v && Under(all[i].subs, t, k); }
    if i :| 0 <= i < |all| && all[i].title == v && Under(all[i].subs, t, k) { assert i != u ==> base[i] == all[i]; }
    if v == s.title && more { assert all[u].title == v && Under(all[u].subs, t, k); }
  }

  lemma {:induction false} FrontPlaces(base: seq<Section>, s: Section, v: string, t: string, k: Key)
    ensures Has([s] + base, v, t, k) <==> Has(base, v, t, k) || (v == s.title && Under(s.subs, t, k))
  {
    var all := [s] + base;
    if i :| 0 <= i < |base| && base[i].title == v && Under(base[i].subs, t, k) { assert all[i + 1] == base[i]; }
    if i :| 0 <= i < |all| && all[i].title == v && Under(all[i].subs, t, k) { assert i > 0 ==> base[i - 1] == all[i]; }
    assert all[0] == s;
  }

  /** Added items leave the released sections and stand in Unreleased under the heading they had. */
  lemma {:induction false} PromotePlaces(sections: seq<Section>, starts: set<nat>, v: string, t: string, k: Key)
    requires Good(sections)
    ensures Has(Promoted(sections, starts), v, t, k) <==>
              Stays(sections, v, t, k, starts) || (v == UNRELEASED && Added(sections, t, k, starts))
  {
    var base, u, groups := AllStaying(sections, starts), FirstUnreleased(sections), Leaving(sections, starts);
    LeavingKeys(sections, starts);
    LeavingBrings(sections, starts, t, k);
    BasePlaces(sections, starts, v, t, k);
    if groups != [] {
      if u < |base| {
        AddGroupsUnder(base[u], groups, t, k);
        PutPlaces(base, u, AddGroups(base[u], groups), v, t, k, Brings(groups, t, k));
      } else {
        AddGroupsUnder(NEW_SECTION, groups, t, k);
        FrontPlaces(base, AddGroups(NEW_SECTION, groups), v, t, k);
      }
    }
  }

  lemma {:induction false} HeadingStays(s: Section, groups: seq<Group>)
    ensures AddGroups(s, groups).heading == s.heading && AddGroups(s, groups).title == s.title
    decreases |groups|
  {
    if groups != [] { HeadingStays(AddGroup(s, groups[0]), groups[1..]); }
  }

  /** Without an Unreleased section, added items get one of their own in front of all releases. */
  lemma {:induction false} NewSectionInFront(sections: seq<Section>, starts: set<nat>, t: string, k: Key)
    requires (forall i :: 0 <= i < |sections| ==> sections[i].title != "Unreleased") && Added(sections, t, k, starts)
    ensures var p := Promoted(sections, starts);
            && |p| == |sections| + 1 && p[0].heading == "## [Unreleased]" && p[0].title == "Unreleased" && p[0].leading == []
            && forall i :: 0 <= i < |sections| ==> p[i + 1].heading == sections[i].heading && p[i + 1].title == sections[i].title
  {
    LeavingBrings(sections, starts, t, k);
    var groups := Leaving(sections, starts);
    HeadingStays(NEW_SECTION, groups);
    LeadingStays(NEW_SECTION, groups);
  }

  lemma {:induction false} LeadingStays(s: Section, groups: seq<Group>)
    ensures AddGroups(s, groups).leading == s.leading
    decreases |groups|
  {
    if groups != [] { LeadingStays(AddGroup(s, groups[0]), groups[1..]); }
  }

  // ----- Normalizing and sorting -----

  lemma {:induction false} MergePlaces(done: seq<Subsection>, sub: Subsection, t: string, k: Key)
    requires GoodSubs(done) && GoodSub(sub)
    ensures Under(Merged(done, sub), t, k) <==> Under(done, t, k) || InSub(sub, t, k)
  {
    var lines := Compact(TrimBlank(Texts(sub.lines)));
    CompactGood(Texts(sub.lines));
    KeysAreTexts(sub.lines);
    var n := FirstTitled(done, sub.title);
    if lines == [] {
      assert KeysOf(Items(sub.lines)) == {};
    } else if n < |done| {
      JoinKeys(done[n], lines);
      UnderPut(done, n, done[n].(lines := Synthetic(Append(Texts(done[n].lines), lines))), SetOf(ItemTexts(lines)), t, k);
    } else {
      KeysOfSynthetic(lines);
      UnderJoin(done, [Subsection(sub.title, Synthetic(lines))], t, k);
      UnderOne(Subsection(sub.title, Synthetic(lines)), t, k);
    }
  }

  lemma {:induction false} MergeAllPlaces(done: seq<Subsection>, subs: seq<Subsection>, t: string, k: Key)
    requires GoodSubs(done) && GoodSubs(subs)
    ensures Under(MergedAll(done, subs), t, k) <==> Under(done, t, k) || Under(subs, t, k)
    decreases |subs|
  {
    if subs != [] {
      MergedKeys(done, subs[0]);
      MergePlaces(done, subs[0], t, k);
      MergeAllPlaces(Merged(done, subs[0]), subs[1..], t, k);
      UnderCons(subs, t, k);
    }
  }

  lemma {:induction false} SortedUnder(a: seq<Subsection>, b: seq<Subsection>, t: string, k: Key)
    requires multiset(a) == multiset(b)
    ensures Under(a, t, k) ==> Under(b, t, k)
  {
    if j :| 0 <= j < |a| && InSub(a[j], t, k) {
      assert a[j] in multiset(a);
      assert a[j] in b;
    }
  }

  lemma {:induction false} NormalPlaces(s: Section, t: string, k: Key)
    requires GoodSubs(s.subs)
    ensures Under(Normalized(s).subs, t, k) <==> Under(s.subs, t, k)
  {
    var merged := MergedAll([], s.subs);
    MergeAllPlaces([], s.subs, t, k);
    SortedUnder(merged, Sort(merged, SubLe), t, k);
    SortedUnder(Sort(merged, SubLe), merged, t, k);
  }

  lemma {:induction false} AllNormalPlaces(sections: seq<Section>, v: string, t: string, k: Key)
    requires Good(sections)
    ensures Has(AllNormalized(sections), v, t, k) <==> Has(sections, v, t, k)
  {
    var normal := AllNormalized(sections);
    forall i | 0 <= i < |sections|
      ensures normal[i].title == sections[i].title && (Under(normal[i].subs, t, k) <==> Under(sections[i].subs, t, k))
    {
      NormalPlaces(sections[i], t, k);
    }
  }

  lemma {:induction false} SortPlaces(sections: seq<Section>, versions: Versions, v: string, t: string, k: Key)
    ensures Has(SortedSections(sections, versions), v, t, k) <==> Has(sections, v, t, k)
  {
    SortedKeysIn(sections, versions);
    var sorted := SortedSections(sections, versions);
    if i :| 0 <= i < |sections| && sections[i].title == v && Under(sections[i].subs, t, k) { assert sections[i] in sorted; }
    if i :| 0 <= i < |sorted| && sorted[i].title == v && Under(sorted[i].subs, t, k) { assert sorted[i] in sections; }
  }

  // ----- The whole fixer -----

  /** Where an item of the fixed document comes from. */
  ghost predicate Belongs(sections: seq<Section>, starts: set<nat>, historical: set<Key>, v: string, t: string, k: Key) {
    if v != "Unreleased" then HasWith(sections, v, t, k, starts, false)
    else
      || Added(sections, t, k, starts)
      || exists i :: 0 <= i < |sections| && sections[i].title == UNRELEASED && LeftUnder(sections, historical, i, t, k)
  }

  lemma {:induction false} DropThenPromote(sections: seq<Section>, starts: set<nat>, historical: set<Key>, v: string, t: string, k: Key)
    ensures Stays(Dropped(sections, historical), v, t, k, starts)
              || (v == UNRELEASED && Added(Dropped(sections, historical), t, k, starts)) <==>
            Belongs(sections, starts, historical, v, t, k)
  {
    var d := Dropped(sections, historical);
    forall i | 0 <= i < |sections|
      ensures |d| == |sections| && d[i].title == sections[i].title && (sections[i].title != UNRELEASED ==> d[i] == sections[i])
      ensures Under(d[i].subs, t, k) <==> LeftUnder(sections, historical, i, t, k)
    {
      DropPlaces(sections, historical, i, t, k);
    }
    if sections == [] { assert d == []; }
    StaysIs(sections, d, starts, historical, v, t, k);
    AddedIs(sections, d, starts, t, k);
  }

  lemma {:induction false} AddedIs(sections: seq<Section>, d: seq<Section>, starts: set<nat>, t: string, k: Key)
    requires |d| == |sections|
    requires forall i :: 0 <= i < |sections| ==> d[i].title == sections[i].title && (sections[i].title != UNRELEASED ==> d[i] == sections[i])
    ensures Added(d, t, k, starts) <==> Added(sections, t, k, starts)
  {
  }

  lemma {:induction false} StaysIs(sections: seq<Section>, d: seq<Section>, starts: set<nat>, historical: set<Key>, v: string, t: string, k: Key)
    requires |d| == |sections|
    requires forall i :: 0 <= i < |sections| ==> d[i].title == sections[i].title && (sections[i].title != UNRELEASED ==> d[i] == sections[i])
    requires forall i :: 0 <= i < |sections| ==> (Under(d[i].subs, t, k) <==> LeftUnder(sections, historical, i, t, k))
    ensures Stays(d, v, t, k, starts) <==>
              if v != UNRELEASED then HasWith(sections, v, t, k, starts, false)
              else exists i :: 0 <= i < |sections| && sections[i].title == UNRELEASED && LeftUnder(sections, historical, i, t, k)
  {
    forall i | 0 <= i < |sections| && sections[i].title == v
      ensures StaysUnder(d[i], t, k, starts) <==>
                if v != UNRELEASED then UnderWith(sections[i].subs, t, k, starts, false) else LeftUnder(sections, historical, i, t, k)
    {
    }
  }

  /**
   In the fixed document a release holds its items that were not added, each under its heading.
   Unreleased holds the added ones of all releases under the headings they had, and its own, of
   which the first Unreleased section has lost what a release or the history holds.
   */
  lemma {:induction false} FixedPlaces(content: seq<Line>, versions: Versions, starts: set<nat>, historical: set<Key>, v: string, t: string, k: Key)
    requires BulletLed(content)
    ensures var s := Parse(Number(content)).sections;
            var f := FixedDocument(content, versions, starts, historical).sections;
            Has(f, v, t, k) <==> Belongs(s, starts, historical, v, t, k)
  {
    var s := Parse(Number(content)).sections;
    ParsedGood(content);
    DroppedKeys(s, historical);
    var d := Dropped(s, historical);
    PromotedKeys(d, starts);
    var p := Promoted(d, starts);
    DropThenPromote(s, starts, historical, v, t, k);
    PromotePlaces(d, starts, v, t, k);
    AllNormalPlaces(p, v, t, k);
    SortPlaces(AllNormalized(p), versions, v, t, k);
  }

  // ----- The fixed file -----

  ghost predicate UnderView(subs: seq<SubView>, t: string, k: Key) {
    exists j :: 0 <= j < |subs| && subs[j].title == t && k in subs[j].items
  }

  ghost predicate HasView(v: seq<SectionView>, title: string, t: string, k: Key) {
    exists i :: 0 <= i < |v| && v[i].title == title && UnderView(v[i].subs, t, k)
  }

  lemma {:induction false} UnderSeen(subs: seq<Subsection>, t: string, k: Key)
    ensures UnderView(ViewSubs(subs), t, k) <==> Under(subs, t, k)
    decreases |subs|
  {
    if subs != [] {
      var first, rest := subs[0], subs[1..];
      UnderSeen(rest, t, k);
      LinesOfKeys(Items(first.lines));
      assert subs == [first] + rest;
      UnderJoin([first], rest, t, k);
      UnderOne(first, t, k);
      assert k in LinesOf(Items(first.lines)) <==> k in SetOf(LinesOf(Items(first.lines)));
      if Items(first.lines) != [] { UnderViewCons(SubViewOf(first), ViewSubs(rest), t, k); }
    }
  }

  lemma {:induction false} UnderViewCons(first: SubView, rest: seq<SubView>, t: string, k: Key)
    ensures UnderView([first] + rest, t, k) <==> (first.title == t && k in first.items) || UnderView(rest, t, k)
  {
    var all := [first] + rest;
    assert all[0] == first;
    if j :| 0 <= j < |rest| && rest[j].title == t && k in rest[j].items { assert all[j + 1] == rest[j]; }
    if j :| 0 <= j < |all| && all[j].title == t && k in all[j].items { assert j > 0 ==> all[j] == rest[j - 1]; }
  }

  lemma {:induction false} HasSeen(sections: seq<Section>, v: string, t: string, k: Key)
    ensures HasView(View(sections), v, t, k) <==> Has(sections, v, t, k)
  {
    forall i | 0 <= i < |sections| ensures UnderView(View(sections)[i].subs, t, k) <==> Under(sections[i].subs, t, k) {
      UnderSeen(sections[i].subs, t, k);
    }
  }

  /** The fixed file, read again, has its sections as the fixed document has them. */
  lemma {:induction false} FixedFileSeen(content: seq<Line>, versions: Versions, starts: set<nat>, historical: set<Key>)
    requires BulletLed(content)
    ensures View(Parse(Number(Fixed(content, versions, starts, historical))).sections) ==
            View(FixedDocument(content, versions, starts, historical).sections)
  {
    var d := FixedDocument(content, versions, starts, historical);
    FixedGood(content, versions, starts, historical);
    PrintedReads(d, content);
    ViewIsOutline(d.sections);
    ViewIsOutline(Parse(Number(Render(d))).sections);
  }

  /** From file to file: what each release of the fixed file holds under each heading. */
  lemma {:induction false} FixedFilePlaces(content: seq<Line>, versions: Versions, starts: set<nat>, historical: set<Key>,
                                           v: string, t: string, k: Key)
    requires BulletLed(content)
    ensures Has(Parse(Number(Fixed(content, versions, starts, historical))).sections, v, t, k) <==>
            Belongs(Parse(Number(content)).sections, starts, historical, v, t, k)
  {
    FixedFileSeen(content, versions, starts, historical);
    FixedPlaces(content, versions, starts, historical, v, t, k);
    HasSeen(FixedDocument(content, versions, starts, historical).sections, v, t, k);
    HasSeen(Parse(Number(Fixed(content, versions, starts, historical))).sections, v, t, k);
  }

  // ----- The headings of a section -----

  const HEADINGS: seq<string> := ["Breaking Changes", "Added", "Changed", "Fixed", "Removed"]

  /** `a` is listed, and `b` is not listed up to it. */
  predicate ListedBefore(a: string, b: string) {
    exists p :: 0 <= p < |HEADINGS| && HEADINGS[p] == a && forall q :: 0 <= q <= p ==> HEADINGS[q] != b
  }

  lemma {:induction false} TitleOrderIs(a: string, b: string)
    ensures TitleOrder(a) < TitleOrder(b) <==> ListedBefore(a, b)
  {
    assert HEADINGS[0] == "Breaking Changes" && HEADINGS[1] == "Added" && HEADINGS[2] == "Changed"
           && HEADINGS[3] == "Fixed" && HEADINGS[4] == "Removed";
    assert TitleOrder(a) < 5 ==> HEADINGS[TitleOrder(a)] == a;
    assert TitleOrder(b) < 5 ==> HEADINGS[TitleOrder(b)] == b;
  }

  /** No heading twice and none empty; in Unreleased, in the order of the list. */
  predicate Arranged(s: SectionView) {
    && Distinct(s.subs)
    && (s.title == "Unreleased" ==> forall i, j :: 0 <= i < j < |s.subs| ==> !ListedBefore(s.subs[j].title, s.subs[i].title))
  }

  lemma {:induction false} NormalArranged(s: SectionView)
    requires forall i :: 0 <= i < |s.subs| ==> s.subs[i].items != []
    ensures Arranged(NormalView(s))
  {
    NormalTwice(s);
    ViewOrder();
    var merged := MergeViews([], s.subs);
    SortSorted(merged, ViewLe);
    var subs := NormalView(s).subs;
    if s.title == UNRELEASED {
      forall i, j | 0 <= i < j < |subs| ensures !ListedBefore(subs[j].title, subs[i].title) {
        assert ViewLe(subs[i], subs[j]);
        TitleOrderIs(subs[j].title, subs[i].title);
      }
    }
  }

  /** Every section of the fixed file is arranged. */
  lemma {:induction false} FixedFileArranged(content: seq<Line>, versions: Versions, starts: set<nat>, historical: set<Key>)
    requires BulletLed(content)
    ensures var f := View(Parse(Number(Fixed(content, versions, starts, historical))).sections);
            forall i :: 0 <= i < |f| ==> Arranged(f[i])
  {
    FixedFileSeen(content, versions, starts, historical);
    var s := Parse(Number(content)).sections;
    ParsedGood(content);
    DroppedKeys(s, historical);
    PromotedKeys(Dropped(s, historical), starts);
    var p := Promoted(Dropped(s, historical), starts);
    var sorted := SortedSections(AllNormalized(p), versions);
    SortedKeysIn(AllNormalized(p), versions);
    forall i | 0 <= i < |sorted| ensures Arranged(View(sorted)[i]) {
      assert sorted[i] in AllNormalized(p);
      var j :| 0 <= j < |p| && AllNormalized(p)[j] == sorted[i];
      ViewOfNormalized(p[j]);
      ViewSubsFull(p[j].subs);
      NormalArranged(ViewOf(p[j]));
    }
  }

  // ----- Where items stand in the file -----

  /** The item begins at the line of the file it says, counted from 1, with that line. */
  predicate StandsAt(content: seq<Line>, it: Item) {
    && 1 <= it.startLine <= |content| && content[it.startLine - 1].Bullet?
    && it.lines != [] && it.lines[0] == content[it.startLine - 1]
  }

  predicate Among(lines: seq<Numbered>, content: seq<Line>) {
    forall x :: x in lines ==> 1 <= x.number <= |content| && content[x.number - 1] == x.line
  }

  lemma {:induction false} ItemsStand(lines: seq<Numbered>, content: seq<Line>)
    requires Among(lines, content)
    ensures forall it :: it in Items(lines) ==> StandsAt(content, it)
    decreases |lines|
  {
    if lines != [] {
      ItemsStand(lines[1..], content);
      if lines[0].line.Bullet? {
        var block := BlockAt(lines);
        assert lines[0] in lines && Texts(block)[0] == lines[0].line;
        LeadIs(lines[1..]);
        BlockKeepsFirst(Texts(block));
      }
    }
  }

  lemma {:induction false} BlockKeepsFirst(block: seq<Line>)
    requires block != [] && block[0].Bullet?
    ensures TrimBlank(block) != [] && TrimBlank(block)[0] == block[0]
  {
    var lo, hi := TrimBlankIs(block);
  }

  predicate Within(subs: seq<Subsection>, lines: seq<Numbered>) {
    forall j :: 0 <= j < |subs| ==> forall x :: x in subs[j].lines ==> x in lines
  }

  lemma {:induction false} SubsWithin(lines: seq<Numbered>)
    ensures Within(SubsOf(lines), lines)
    decreases |lines|
  {
    if lines != [] {
      var rest, subs := lines[1..], SubsOf(lines);
      SubsWithin(rest);
      BeforeSubIs(rest);
      assert forall x :: x in rest ==> x in lines;
      forall j | 0 <= j < |subs| ensures forall x :: x in subs[j].lines ==> x in lines {
        if lines[0].line.Sub? {
          if j == 0 { assert subs[0].lines == BeforeSub(rest); } else { assert subs[j] == SubsOf(rest)[j - 1]; }
        } else {
          assert subs[j] == SubsOf(rest)[j];
        }
      }
    }
  }

  lemma {:induction false} SectionsWithin(lines: seq<Numbered>)
    ensures forall i :: 0 <= i < |SectionsOf(lines)| ==> Within(SectionsOf(lines)[i].subs, lines)
    decreases |lines|
  {
    if lines != [] {
      var rest, sections := lines[1..], SectionsOf(lines);
      SectionsWithin(rest);
      BeforeReleaseIs(rest);
      SubsWithin(BeforeRelease(rest));
      assert forall x :: x in rest ==> x in lines;
      assert forall x :: x in BeforeRelease(rest) ==> x in rest;
      forall i | 0 <= i < |sections| ensures Within(sections[i].subs, lines) {
        if lines[0].line.Release? {
          if i == 0 { assert sections[0].subs == SubsOf(BeforeRelease(rest)); } else { assert sections[i] == SectionsOf(rest)[i - 1]; }
        } else {
          assert sections[i] == SectionsOf(rest)[i];
        }
      }
    }
  }

  /** Every item of a parsed file begins at the line of the file that it names. */
  lemma {:induction false} ItemsStandAtTheirLines(content: seq<Line>, i: nat, j: nat)
    requires var s := Parse(Number(content)).sections; i < |s| && j < |s[i].subs|
    ensures forall it :: it in Items(Parse(Number(content)).sections[i].subs[j].lines) ==> StandsAt(content, it)
  {
    SectionsWithin(Number(content));
    var lines := Parse(Number(content)).sections[i].subs[j].lines;
    forall x | x in lines ensures 1 <= x.number <= |content| && content[x.number - 1] == x.line {
      assert x in Number(content);
    }
    ItemsStand(lines, content);
  }
}
