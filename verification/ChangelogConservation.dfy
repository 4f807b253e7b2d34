/** The fixer loses no item and invents none, where every subsection begins with a bullet. */
module ChangelogConservation {
  import opened Wrappers
  import opened Sorting
  import opened ChangelogText
  import opened ChangelogDocument
  import opened ChangelogFix
  import opened ChangelogRoundTrip

  function SetOf(items: seq<Key>): set<Key> {
    set k | k in items
  }

  function AllKeys(sections: seq<Section>): set<Key> {
    if sections == [] then {} else SubsKeys(sections[0].subs) + AllKeys(sections[1..])
  }

  /** The keys outside the first Unreleased section, and those inside it. */
  function OtherKeys(sections: seq<Section>): set<Key> {
    var u := FirstUnreleased(sections);
    AllKeys(sections[..u]) + (if u < |sections| then AllKeys(sections[u + 1..]) else {})
  }

  function UnreleasedKeys(sections: seq<Section>): set<Key> {
    var u := FirstUnreleased(sections);
    if u < |sections| then SubsKeys(sections[u].subs) else {}
  }

  /** Headings never stand inside a part. */
  predicate Plain(lines: seq<Line>) {
    NoRelease(lines) && NoSub(lines)
  }

  /** What the passes keep of a subsection: it begins with a bullet, and holds no heading. */
  predicate GoodSub(sub: Subsection) {
    Led(Texts(sub.lines)) && Plain(Texts(sub.lines))
  }

  predicate GoodSubs(subs: seq<Subsection>) {
    forall j :: 0 <= j < |subs| ==> GoodSub(subs[j])
  }

  predicate Good(sections: seq<Section>) {
    forall i :: 0 <= i < |sections| ==> GoodSubs(sections[i].subs) && Plain(Texts(sections[i].leading))
  }

  // ----- Keys of lines -----

  lemma {:induction false} LinesOfKeys(items: seq<Item>)
    ensures SetOf(LinesOf(items)) == KeysOf(items)
  {
    forall k ensures k in LinesOf(items) <==> k in KeysOf(items) {
      if k in LinesOf(items) {
        var i :| 0 <= i < |items| && LinesOf(items)[i] == k;
        assert items[i] in items;
      }
      if k in KeysOf(items) {
        var it :| it in items && it.lines == k;
        var i :| 0 <= i < |items| && items[i] == it;
        assert LinesOf(items)[i] == k;
      }
    }
  }

  lemma {:induction false} KeysAreTexts(lines: seq<Numbered>)
    ensures KeysOf(Items(lines)) == SetOf(ItemTexts(Texts(lines)))
  {
    ItemsErase(lines);
    LinesOfKeys(Items(lines));
  }

  lemma {:induction false} KeysOfSynthetic(lines: seq<Line>)
    ensures KeysOf(Items(Synthetic(lines))) == SetOf(ItemTexts(lines))
  {
    KeysAreTexts(Synthetic(lines));
    TextsOfSynthetic(lines);
  }

  lemma {:induction false} PickKeys(items: seq<Item>, choice: Choice)
    ensures forall it :: it in Pick(items, choice) <==> it in items && choice.Takes(it)
    decreases |items|
  {
    if items != [] { PickKeys(items[1..], choice); }
  }

  lemma {:induction false} KeptKeys(lines: seq<Numbered>, keys: set<Key>)
    ensures KeysOf(Items(Kept(lines, Keyed(keys)))) == KeysOf(Items(lines)) - keys
  {
    ItemsOfKept(lines, Keyed(keys));
    PickKeys(Items(lines), Not(Keyed(keys)));
    var kept := Pick(Items(lines), Not(Keyed(keys)));
    forall k ensures k in KeysOf(kept) <==> k in KeysOf(Items(lines)) - keys {
      if k in KeysOf(kept) {
        var it :| it in kept && it.lines == k;
        assert Not(Keyed(keys)).Takes(it) && !Keyed(keys).Takes(it);
      }
      if k in KeysOf(Items(lines)) - keys {
        var it :| it in Items(lines) && it.lines == k;
        assert !Keyed(keys).Takes(it);
        assert it in kept;
      }
    }
  }

  lemma {:induction false} SplitKeys(lines: seq<Numbered>, starts: set<nat>)
    ensures KeysOf(Items(lines)) ==
            KeysOf(Items(Kept(lines, Starting(starts)))) + SetOf(LinesOf(Pick(Items(lines), Starting(starts))))
  {
    ItemsOfKept(lines, Starting(starts));
    PickKeys(Items(lines), Not(Starting(starts)));
    PickKeys(Items(lines), Starting(starts));
    LinesOfKeys(Pick(Items(lines), Starting(starts)));
  }

  // ----- What is kept of a subsection stays good -----

  lemma {:induction false} KeptWithin(lines: seq<Numbered>, out: Choice)
    ensures forall x :: x in Kept(lines, out) ==> x in lines
    decreases |lines|
  {
    if lines != [] {
      if lines[0].line.Bullet? {
        var block := BlockAt(lines);
        BlockIs(lines);
        KeptBlock(lines, out);
        KeptWithin(lines[|block|..], out);
      } else {
        KeptWithin(lines[1..], out);
      }
    }
  }

  lemma {:induction false} KeptPlain(lines: seq<Numbered>, out: Choice)
    requires Plain(Texts(lines))
    ensures Plain(Texts(Kept(lines, out)))
  {
    KeptWithin(lines, out);
    var kept := Kept(lines, out);
    forall i | 0 <= i < |kept| ensures !Texts(kept)[i].Release? && !Texts(kept)[i].Sub? {
      assert kept[i] in lines;
      var j :| 0 <= j < |lines| && lines[j] == kept[i];
      assert Texts(lines)[j] == kept[i].line;
    }
  }

  lemma {:induction false} KeptLed(lines: seq<Numbered>, out: Choice)
    requires Led(Texts(lines))
    ensures Led(Texts(Kept(lines, out)))
  {
    LedIs(Texts(lines));
    LedIs(Texts(Kept(lines, out)));
    ItemsOfKept(lines, out);
    LeadErase(lines);
    LeadErase(Kept(lines, out));
  }

  lemma {:induction false} TrimPlain(lines: seq<Line>)
    requires Plain(lines)
    ensures Plain(TrimBlank(lines))
  {
    TrimTidy(lines);
  }

  lemma {:induction false} AppendPlain(target: seq<Line>, source: seq<Line>)
    requires Plain(target) && Plain(source)
    ensures Plain(Append(target, source))
  {
    TrimPlain(target);
    TrimPlain(source);
  }

  lemma {:induction false} ItemsPlain(lines: seq<Line>)
    requires Plain(lines)
    ensures forall i :: 0 <= i < |ItemTexts(lines)| ==> Plain(ItemTexts(lines)[i])
    decreases |lines|
  {
    if lines != [] {
      assert forall i :: 0 <= i < |lines[1..]| ==> lines[1..][i] == lines[i + 1];
      ItemsPlain(lines[1..]);
      if lines[0].Bullet? {
        LeadHasNoBullet(lines[1..]);
        TrimPlain([lines[0]] + LeadTexts(lines[1..]));
      }
    }
  }

  lemma {:induction false} FlatPlain(items: seq<seq<Line>>)
    requires forall i :: 0 <= i < |items| ==> Plain(items[i])
    ensures Plain(Flat(items))
    decreases |items|
  {
    if items != [] { FlatPlain(items[1..]); }
  }

  /** Compacting a good run keeps its items, and it stays good. */
  lemma {:induction false} CompactGood(lines: seq<Line>)
    requires Led(lines) && Plain(lines)
    ensures var c := Compact(TrimBlank(lines));
            && c == Flat(ItemTexts(lines)) && ItemTexts(c) == ItemTexts(lines) && Led(c) && Plain(c) && Trimmed(c)
            && (c == [] <==> ItemTexts(lines) == [])
  {
    TrimTwice(lines);
    CompactIs(TrimBlank(lines));
    TrimKeepsItems(lines);
    ItemsAreItems(lines);
    FlatHasItems(ItemTexts(lines));
    ItemsPlain(lines);
    FlatPlain(ItemTexts(lines));
    TrimTrimmed(Flat(ItemTexts(lines)));
  }

  /** Appending changes nothing but the last item's neighbour exactly when the source is led by a bullet. */
  lemma {:induction false} AppendKeepsItemsIff(target: seq<Line>, source: seq<Line>)
    ensures ItemTexts(Append(target, source)) == ItemTexts(target) + ItemTexts(source) <==>
            Led(source) || ItemTexts(target) == []
  {
    if Led(source) {
      AppendJoinsItems(target, source);
    } else {
      UnledAppend(target, source);
    }
  }

  /** Text in front of the first bullet of `s` goes to the last item of `t`. */
  lemma {:induction false} TextJoinsLast(t: seq<Line>, s: seq<Line>)
    requires s != [] && !s[0].Bullet? && !s[0].Blank?
    ensures ItemTexts(t + s) == ItemTexts(t) + ItemTexts(s) <==> ItemTexts(t) == []
  {
    var lead := LeadTexts(s);
    LeadHasNoBullet(s);
    LeadOfNoBullet(lead);
    var rest := s[|lead|..];
    assert s == lead + rest && t + s == (t + lead) + rest;
    ItemsJoin(t + lead, rest);
    ItemsJoin(lead, rest);
    if ItemTexts(t) == [] {
      NoItems(t, lead);
    } else {
      assert lead[0] == s[0];
      LastItemGrows(t, lead);
      CancelEnd(ItemTexts(t + lead), ItemTexts(t), ItemTexts(rest));
    }
  }

  lemma {:induction false} UnledAppend(target: seq<Line>, source: seq<Line>)
    requires !Led(source)
    ensures ItemTexts(Append(target, source)) == ItemTexts(target) + ItemTexts(source) <==> ItemTexts(target) == []
  {
    var s, t := TrimBlank(source), TrimBlank(target);
    TrimTwice(source);
    TrimKeepsItems(source);
    TrimKeepsItems(target);
    if t != [] {
      ItemsThenBlank(t, [EMPTY]);
      TextJoinsLast(t + [EMPTY], s);
    }
  }

  lemma {:induction false} NoItems(lines: seq<Line>, more: seq<Line>)
    requires ItemTexts(lines) == [] && forall i :: 0 <= i < |more| ==> !more[i].Bullet?
    ensures ItemTexts(lines + more) == []
    decreases |lines|
  {
    if lines == [] {
      assert lines + more == more;
      LeadOfNoBullet(more);
    } else {
      assert (lines + more)[1..] == lines[1..] + more;
      NoItems(lines[1..], more);
    }
  }

  lemma {:induction false} LeadStays(lines: seq<Line>, more: seq<Line>)
    requires ItemTexts(lines) != []
    ensures LeadTexts(lines + more) == LeadTexts(lines)
    decreases |lines|
  {
    assert (lines + more)[1..] == lines[1..] + more;
    if !lines[0].Bullet? { LeadStays(lines[1..], more); }
  }

  lemma {:induction false} LastItemGrows(lines: seq<Line>, more: seq<Line>)
    requires ItemTexts(lines) != [] && NonBlank(more) != []
    ensures ItemTexts(lines + more) != ItemTexts(lines)
  {
    FlatKeepsText(lines);
    FlatKeepsText(lines + more);
    LeadStays(lines, more);
    NonBlankJoin(lines, more);
  }

  // ----- Keys of lists of subsections and sections -----

  lemma {:induction false} SubsKeysIn(subs: seq<Subsection>, k: Key)
    ensures k in SubsKeys(subs) <==> exists j :: 0 <= j < |subs| && k in KeysOf(Items(subs[j].lines))
    decreases |subs|
  {
    if subs != [] {
      SubsKeysIn(subs[1..], k);
      if k in SubsKeys(subs[1..]) {
        var j :| 0 <= j < |subs[1..]| && k in KeysOf(Items(subs[1..][j].lines));
        assert k in KeysOf(Items(subs[j + 1].lines));
      }
    }
  }

  lemma {:induction false} AllKeysIn(sections: seq<Section>, k: Key)
    ensures k in AllKeys(sections) <==> exists i :: 0 <= i < |sections| && k in SubsKeys(sections[i].subs)
    decreases |sections|
  {
    if sections != [] {
      AllKeysIn(sections[1..], k);
      if k in AllKeys(sections[1..]) {
        var i :| 0 <= i < |sections[1..]| && k in SubsKeys(sections[1..][i].subs);
        assert k in SubsKeys(sections[i + 1].subs);
      }
    }
  }

  lemma {:induction false} AllKeysJoin(a: seq<Section>, b: seq<Section>)
    ensures AllKeys(a + b) == AllKeys(a) + AllKeys(b)
    decreases |a|
  {
    if a == [] {
      assert a + b == b;
    } else {
      assert (a + b)[1..] == a[1..] + b;
      AllKeysJoin(a[1..], b);
    }
  }

  lemma {:induction false} SubsKeysJoin(a: seq<Subsection>, b: seq<Subsection>)
    ensures SubsKeys(a + b) == SubsKeys(a) + SubsKeys(b)
    decreases |a|
  {
    if a == [] {
      assert a + b == b;
    } else {
      assert (a + b)[1..] == a[1..] + b;
      SubsKeysJoin(a[1..], b);
    }
  }

  /** One subsection of a list grows. */
  lemma {:induction false} SubsKeysPut(subs: seq<Subsection>, n: nat, sub: Subsection, more: set<Key>)
    requires n < |subs| && KeysOf(Items(sub.lines)) == KeysOf(Items(subs[n].lines)) + more
    ensures SubsKeys(subs[n := sub]) == SubsKeys(subs) + more
  {
    assert subs == subs[..n] + ([subs[n]] + subs[n + 1..]);
    assert subs[n := sub] == subs[..n] + ([sub] + subs[n + 1..]);
    SubsKeysJoin(subs[..n], [subs[n]] + subs[n + 1..]);
    SubsKeysJoin(subs[..n], [sub] + subs[n + 1..]);
    assert ([subs[n]] + subs[n + 1..])[1..] == subs[n + 1..] == ([sub] + subs[n + 1..])[1..];
  }

  lemma {:induction false} AllKeysPut(sections: seq<Section>, u: nat, s: Section)
    requires u < |sections|
    ensures AllKeys(sections[u := s]) == AllKeys(sections[..u]) + SubsKeys(s.subs) + AllKeys(sections[u + 1..])
  {
    assert sections[u := s] == sections[..u] + ([s] + sections[u + 1..]);
    AllKeysJoin(sections[..u], [s] + sections[u + 1..]);
    assert ([s] + sections[u + 1..])[1..] == sections[u + 1..];
  }

  lemma {:induction false} SameSubs(a: seq<Subsection>, b: seq<Subsection>)
    requires multiset(a) == multiset(b)
    ensures SubsKeys(a) == SubsKeys(b) && (GoodSubs(a) ==> GoodSubs(b))
  {
    forall j | 0 <= j < |b| ensures b[j] in a {
      assert b[j] in multiset(b);
    }
    forall i | 0 <= i < |a| ensures a[i] in b {
      assert a[i] in multiset(a);
    }
    forall k ensures k in SubsKeys(a) <==> k in SubsKeys(b) {
      SubsKeysIn(a, k);
      SubsKeysIn(b, k);
    }
  }

  lemma {:induction false} SameSections(a: seq<Section>, b: seq<Section>)
    requires forall s :: s in a <==> s in b
    ensures AllKeys(a) == AllKeys(b) && (Good(a) ==> Good(b))
  {
    forall j | 0 <= j < |b| ensures b[j] in a {
      assert b[j] in b;
    }
    forall i | 0 <= i < |a| ensures a[i] in b {
      assert a[i] in a;
    }
    forall k ensures k in AllKeys(a) <==> k in AllKeys(b) {
      AllKeysIn(a, k);
      AllKeysIn(b, k);
    }
  }

  // ----- Dropping -----

  lemma {:induction false} SubsWithoutKeys(subs: seq<Subsection>, keys: set<Key>)
    ensures SubsKeys(SubsWithout(subs, Keyed(keys))) == SubsKeys(subs) - keys
    decreases |subs|
  {
    if subs != [] {
      KeptKeys(subs[0].lines, keys);
      SubsWithoutKeys(subs[1..], keys);
      assert SubsWithout(subs, Keyed(keys))[1..] == SubsWithout(subs[1..], Keyed(keys));
    }
  }

  lemma {:induction false} SubsWithoutGood(subs: seq<Subsection>, out: Choice)
    requires GoodSubs(subs)
    ensures GoodSubs(SubsWithout(subs, out))
  {
    forall j | 0 <= j < |subs| ensures GoodSub(SubsWithout(subs, out)[j]) {
      KeptLed(subs[j].lines, out);
      KeptPlain(subs[j].lines, out);
    }
  }

  lemma {:induction false} ReleasedWithin(sections: seq<Section>)
    ensures ReleasedKeys(sections) <= AllKeys(sections)
    decreases |sections|
  {
    if sections != [] { ReleasedWithin(sections[1..]); }
  }

  lemma {:induction false} ReleasedElsewhere(sections: seq<Section>)
    ensures ReleasedKeys(sections) <= OtherKeys(sections)
    decreases |sections|
  {
    if sections != [] {
      var rest := sections[1..];
      if sections[0].title == UNRELEASED {
        ReleasedWithin(rest);
      } else {
        ReleasedElsewhere(rest);
        var u := FirstUnreleased(sections);
        assert sections[..u][1..] == rest[..u - 1];
        if u < |sections| { assert sections[u + 1..] == rest[u..]; }
      }
    }
  }

  lemma {:induction false} DroppedKeys(sections: seq<Section>, historical: set<Key>)
    requires Good(sections)
    ensures AllKeys(Dropped(sections, historical)) == OtherKeys(sections) + (UnreleasedKeys(sections) - historical)
    ensures Good(Dropped(sections, historical))
  {
    var u := FirstUnreleased(sections);
    if u < |sections| {
      var keys := ReleasedKeys(sections) + historical;
      ReleasedElsewhere(sections);
      SubsWithoutKeys(sections[u].subs, keys);
      SubsWithoutGood(sections[u].subs, Keyed(keys));
      AllKeysPut(sections, u, sections[u].(subs := SubsWithout(sections[u].subs, Keyed(keys))));
    } else {
      assert sections[..u] == sections;
    }
  }

  // ----- Promoting -----

  /** A trimmed item without headings in it. */
  predicate GoodItem(item: Key) {
    Block(item) && Trimmed(item) && Plain(item)
  }

  predicate GoodGroups(groups: seq<Group>) {
    forall i :: 0 <= i < |groups| ==> GoodItems(groups[i].items)
  }

  predicate GoodItems(items: seq<Key>) {
    forall i :: 0 <= i < |items| ==> GoodItem(items[i])
  }

  function GroupKeys(groups: seq<Group>): set<Key> {
    if groups == [] then {} else SetOf(groups[0].items) + GroupKeys(groups[1..])
  }

  lemma {:induction false} OneItem(item: Key)
    requires GoodItem(item)
    ensures ItemTexts(item) == [item] && Led(item)
  {
    BlockFirst(item, []);
    assert item + [] == item;
    TrimTrimmed(item);
  }

  lemma {:induction false} AppendItem(lines: seq<Numbered>, item: Key)
    requires GoodItem(item) && Led(Texts(lines)) && Plain(Texts(lines))
    ensures var after := Synthetic(Append(Texts(lines), item));
            KeysOf(Items(after)) == KeysOf(Items(lines)) + {item} && Led(Texts(after)) && Plain(Texts(after))
  {
    var after := Append(Texts(lines), item);
    OneItem(item);
    AppendJoinsItems(Texts(lines), item);
    AppendPlain(Texts(lines), item);
    KeysAreTexts(lines);
    KeysOfSynthetic(after);
    TextsOfSynthetic(after);
    assert SetOf(ItemTexts(Texts(lines)) + [item]) == SetOf(ItemTexts(Texts(lines))) + {item};
  }

  lemma {:induction false} AddToKeys(sub: Subsection, items: seq<Key>)
    requires GoodSub(sub) && GoodItems(items)
    ensures KeysOf(Items(AddTo(sub, items).lines)) == KeysOf(Items(sub.lines)) + SetOf(items)
    ensures GoodSub(AddTo(sub, items))
    decreases |items|
  {
    if items != [] {
      assert items == [items[0]] + items[1..];
      assert SetOf(items) == {items[0]} + SetOf(items[1..]);
      if items[0] in KeysOf(Items(sub.lines)) {
        AddToKeys(sub, items[1..]);
      } else {
        AppendItem(sub.lines, items[0]);
        AddToKeys(sub.(lines := Synthetic(Append(Texts(sub.lines), items[0]))), items[1..]);
      }
    }
  }

  lemma {:induction false} AddGroupKeys(s: Section, g: Group)
    requires GoodSubs(s.subs) && GoodItems(g.items)
    ensures SubsKeys(AddGroup(s, g).subs) == SubsKeys(s.subs) + SetOf(g.items)
    ensures GoodSubs(AddGroup(s, g).subs) && AddGroup(s, g).leading == s.leading
  {
    match LastTitled(s.subs, g.title)
    case Some(k) =>
      AddToKeys(s.subs[k], g.items);
      SubsKeysPut(s.subs, k, AddTo(s.subs[k], g.items), SetOf(g.items));
    case None =>
      var sub := Subsection(g.title, []);
      TrimTrimmed([]);
      assert Texts([]) == [];
      AddToKeys(sub, g.items);
      SubsKeysJoin(s.subs, [AddTo(sub, g.items)]);
  }

  lemma {:induction false} AddGroupsKeys(s: Section, groups: seq<Group>)
    requires GoodSubs(s.subs) && GoodGroups(groups)
    ensures SubsKeys(AddGroups(s, groups).subs) == SubsKeys(s.subs) + GroupKeys(groups)
    ensures GoodSubs(AddGroups(s, groups).subs) && AddGroups(s, groups).leading == s.leading
    decreases |groups|
  {
    if groups != [] {
      AddGroupKeys(s, groups[0]);
      AddGroupsKeys(AddGroup(s, groups[0]), groups[1..]);
    }
  }

  lemma {:induction false} GroupKeysJoin(a: seq<Group>, b: seq<Group>)
    ensures GroupKeys(a + b) == GroupKeys(a) + GroupKeys(b)
    decreases |a|
  {
    if a == [] {
      assert a + b == b;
    } else {
      assert (a + b)[1..] == a[1..] + b;
      GroupKeysJoin(a[1..], b);
    }
  }

  lemma {:induction false} GroupGood(sub: Subsection, starts: set<nat>)
    requires GoodSub(sub)
    ensures GoodItems(GroupOf(sub, starts).items)
    ensures KeysOf(Items(sub.lines)) == KeysOf(Items(Kept(sub.lines, Starting(starts)))) + SetOf(GroupOf(sub, starts).items)
  {
    SplitKeys(sub.lines, starts);
    ItemsErase(sub.lines);
    ItemsAreItems(Texts(sub.lines));
    ItemsPlain(Texts(sub.lines));
    PickKeys(Items(sub.lines), Starting(starts));
    var picked := Pick(Items(sub.lines), Starting(starts));
    forall i | 0 <= i < |picked| ensures GoodItem(picked[i].lines) {
      assert picked[i] in picked;
      var j :| 0 <= j < |Items(sub.lines)| && Items(sub.lines)[j] == picked[i];
      assert LinesOf(Items(sub.lines))[j] == picked[i].lines;
    }
  }

  lemma {:induction false} GroupsOfKeys(subs: seq<Subsection>, starts: set<nat>)
    requires GoodSubs(subs)
    ensures SubsKeys(subs) == SubsKeys(SubsWithout(subs, Starting(starts))) + GroupKeys(GroupsOf(subs, starts))
    ensures GoodGroups(GroupsOf(subs, starts))
    decreases |subs|
  {
    if subs != [] {
      var s, rest := subs[0], subs[1..];
      assert subs == [s] + rest;
      GroupGood(s, starts);
      GroupsOfKeys(rest, starts);
      GroupsCons(s, rest, starts);
      Regroup(SubsKeys(SubsWithout([s], Starting(starts))), SetOf(GroupOf(s, starts).items), SubsKeys(SubsWithout(rest, Starting(starts))), GroupKeys(GroupsOf(rest, starts)));
    }
  }

  lemma {:induction false} GroupsCons(s: Subsection, rest: seq<Subsection>, starts: set<nat>)
    ensures SubsKeys([s] + rest) == SubsKeys([s]) + SubsKeys(rest)
    ensures SubsKeys(SubsWithout([s] + rest, Starting(starts))) == SubsKeys(SubsWithout([s], Starting(starts))) + SubsKeys(SubsWithout(rest, Starting(starts)))
    ensures GroupKeys(GroupsOf([s] + rest, starts)) == SetOf(GroupOf(s, starts).items) + GroupKeys(GroupsOf(rest, starts))
    ensures GroupsOf([s] + rest, starts) == (if GroupOf(s, starts).items == [] then [] else [GroupOf(s, starts)]) + GroupsOf(rest, starts)
  {
    assert ([s] + rest)[1..] == rest && [s][1..] == [];
    assert SubsWithout([s] + rest, Starting(starts))[1..] == SubsWithout(rest, Starting(starts));
    assert SubsWithout([s], Starting(starts))[1..] == [];
    assert ([GroupOf(s, starts)] + GroupsOf(rest, starts))[1..] == GroupsOf(rest, starts);
  }

  lemma {:induction false} LeavingKeys(sections: seq<Section>, starts: set<nat>)
    requires Good(sections)
    ensures AllKeys(sections) == AllKeys(AllStaying(sections, starts)) + GroupKeys(Leaving(sections, starts))
    ensures GoodGroups(Leaving(sections, starts)) && Good(AllStaying(sections, starts))
    decreases |sections|
  {
    if sections != [] {
      var s, rest := sections[0], sections[1..];
      assert sections == [s] + rest;
      LeavingKeys(rest, starts);
      LeavesOne(s, starts);
      StayingCons(s, rest, starts);
      GroupKeysJoin(LeavingOne(s, starts), Leaving(rest, starts));
      Regroup(SubsKeys(Staying(s, starts).subs), GroupKeys(LeavingOne(s, starts)), AllKeys(AllStaying(rest, starts)), GroupKeys(Leaving(rest, starts)));
    }
  }

  lemma {:induction false} Regroup(a: set<Key>, b: set<Key>, c: set<Key>, d: set<Key>)
    ensures (a + b) + (c + d) == (a + c) + (b + d)
  {
  }

  function LeavingOne(s: Section, starts: set<nat>): seq<Group> {
    if s.title == UNRELEASED then [] else GroupsOf(s.subs, starts)
  }

  /** What leaves one section, and what stays of it. */
  lemma {:induction false} LeavesOne(s: Section, starts: set<nat>)
    requires GoodSubs(s.subs)
    ensures SubsKeys(s.subs) == SubsKeys(Staying(s, starts).subs) + GroupKeys(LeavingOne(s, starts))
    ensures GoodGroups(LeavingOne(s, starts)) && GoodSubs(Staying(s, starts).subs)
  {
    if s.title != UNRELEASED {
      GroupsOfKeys(s.subs, starts);
      SubsWithoutGood(s.subs, Starting(starts));
    }
  }

  lemma {:induction false} StayingCons(s: Section, rest: seq<Section>, starts: set<nat>)
    ensures AllStaying([s] + rest, starts) == [Staying(s, starts)] + AllStaying(rest, starts)
    ensures AllKeys(AllStaying([s] + rest, starts)) == SubsKeys(Staying(s, starts).subs) + AllKeys(AllStaying(rest, starts))
    ensures AllKeys([s] + rest) == SubsKeys(s.subs) + AllKeys(rest)
    ensures Leaving([s] + rest, starts) == LeavingOne(s, starts) + Leaving(rest, starts)
  {
    assert ([s] + rest)[1..] == rest;
    assert ([Staying(s, starts)] + AllStaying(rest, starts))[1..] == AllStaying(rest, starts);
  }

  lemma {:induction false} PutKeys(base: seq<Section>, u: nat, groups: seq<Group>)
    requires Good(base) && u < |base| && GoodGroups(groups)
    ensures var after := base[u := AddGroups(base[u], groups)];
            AllKeys(after) == AllKeys(base) + GroupKeys(groups) && Good(after)
  {
    AddGroupsKeys(base[u], groups);
    AllKeysPut(base, u, AddGroups(base[u], groups));
    AllKeysPut(base, u, base[u]);
    assert base[u := base[u]] == base;
  }

  lemma {:induction false} FrontKeys(base: seq<Section>, groups: seq<Group>)
    requires Good(base) && GoodGroups(groups)
    ensures var after := [AddGroups(NEW_SECTION, groups)] + base;
            AllKeys(after) == AllKeys(base) + GroupKeys(groups) && Good(after)
  {
    AddGroupsKeys(NEW_SECTION, groups);
    var first := AddGroups(NEW_SECTION, groups);
    assert ([first] + base)[1..] == base;
  }

  lemma {:induction false} PromotedKeys(sections: seq<Section>, starts: set<nat>)
    requires Good(sections)
    ensures AllKeys(Promoted(sections, starts)) == AllKeys(sections) && Good(Promoted(sections, starts))
  {
    var base, u, groups := AllStaying(sections, starts), FirstUnreleased(sections), Leaving(sections, starts);
    LeavingKeys(sections, starts);
    if groups != [] {
      if u < |base| { PutKeys(base, u, groups); } else { FrontKeys(base, groups); }
    }
  }

  // ----- Normalizing and sorting -----

  /** A compacted run joins a subsection that holds items already. */
  lemma {:induction false} JoinKeys(sub: Subsection, lines: seq<Line>)
    requires GoodSub(sub) && Led(lines) && Plain(lines)
    ensures var after := sub.(lines := Synthetic(Append(Texts(sub.lines), lines)));
            GoodSub(after) && KeysOf(Items(after.lines)) == KeysOf(Items(sub.lines)) + SetOf(ItemTexts(lines))
  {
    var was := Texts(sub.lines);
    var after := Append(was, lines);
    AppendJoinsItems(was, lines);
    AppendPlain(was, lines);
    KeysOfSynthetic(after);
    TextsOfSynthetic(after);
    KeysAreTexts(sub.lines);
    assert SetOf(ItemTexts(was) + ItemTexts(lines)) == SetOf(ItemTexts(was)) + SetOf(ItemTexts(lines));
  }

  lemma {:induction false} MergedKeys(done: seq<Subsection>, sub: Subsection)
    requires GoodSubs(done) && GoodSub(sub)
    ensures SubsKeys(Merged(done, sub)) == SubsKeys(done) + KeysOf(Items(sub.lines))
    ensures GoodSubs(Merged(done, sub))
  {
    var lines := Compact(TrimBlank(Texts(sub.lines)));
    CompactGood(Texts(sub.lines));
    KeysAreTexts(sub.lines);
    var n := FirstTitled(done, sub.title);
    if lines != [] {
      if n < |done| {
        JoinKeys(done[n], lines);
        SubsKeysPut(done, n, done[n].(lines := Synthetic(Append(Texts(done[n].lines), lines))), SetOf(ItemTexts(lines)));
      } else {
        KeysOfSynthetic(lines);
        TextsOfSynthetic(lines);
        SubsKeysJoin(done, [Subsection(sub.title, Synthetic(lines))]);
      }
    }
  }

  lemma {:induction false} MergedAllKeys(done: seq<Subsection>, subs: seq<Subsection>)
    requires GoodSubs(done) && GoodSubs(subs)
    ensures SubsKeys(MergedAll(done, subs)) == SubsKeys(done) + SubsKeys(subs)
    ensures GoodSubs(MergedAll(done, subs))
    decreases |subs|
  {
    if subs != [] {
      MergedKeys(done, subs[0]);
      MergedAllKeys(Merged(done, subs[0]), subs[1..]);
    }
  }

  lemma {:induction false} NormalizedKeys(s: Section)
    requires GoodSubs(s.subs) && Plain(Texts(s.leading))
    ensures SubsKeys(Normalized(s).subs) == SubsKeys(s.subs) && GoodSubs(Normalized(s).subs)
    ensures Plain(Texts(Normalized(s).leading))
  {
    MergedAllKeys([], s.subs);
    var merged := MergedAll([], s.subs);
    SameSubs(merged, Sort(merged, SubLe));
    TrimPlain(Texts(s.leading));
    TextsOfSynthetic(TrimBlank(Texts(s.leading)));
  }

  lemma {:induction false} AllNormalizedKeys(sections: seq<Section>)
    requires Good(sections)
    ensures AllKeys(AllNormalized(sections)) == AllKeys(sections) && Good(AllNormalized(sections))
    decreases |sections|
  {
    if sections != [] {
      NormalizedKeys(sections[0]);
      AllNormalizedKeys(sections[1..]);
      assert AllNormalized(sections)[1..] == AllNormalized(sections[1..]);
      forall i | 0 <= i < |sections|
        ensures GoodSubs(AllNormalized(sections)[i].subs) && Plain(Texts(AllNormalized(sections)[i].leading))
      {
        NormalizedKeys(sections[i]);
      }
    }
  }

  lemma {:induction false} TitledIn(sections: seq<Section>, unreleased: bool)
    ensures forall s :: s in Titled(sections, unreleased) <==> s in sections && (s.title == UNRELEASED) == unreleased
    decreases |sections|
  {
    if sections != [] { TitledIn(sections[1..], unreleased); }
  }

  lemma {:induction false} SortedKeys(sections: seq<Section>, versions: Versions)
    ensures AllKeys(SortedSections(sections, versions)) == AllKeys(sections)
    ensures Good(sections) ==> Good(SortedSections(sections, versions))
  {
    TitledIn(sections, true);
    TitledIn(sections, false);
    var released := Titled(sections, false);
    var sorted := Sort(released, SectionLe(versions));
    forall s ensures s in sorted <==> s in released {
      assert s in multiset(sorted) <==> s in multiset(released);
    }
    SameSections(sections, SortedSections(sections, versions));
  }

  // ----- From file to file -----

  function TextKeys(subs: seq<SubText>): set<Key> {
    if subs == [] then {} else SetOf(ItemTexts(subs[0].lines)) + TextKeys(subs[1..])
  }

  function OutlineKeys(sections: seq<SectionText>): set<Key> {
    if sections == [] then {} else TextKeys(sections[0].subs) + OutlineKeys(sections[1..])
  }

  lemma {:induction false} SubTextsKeys(subs: seq<Subsection>)
    ensures SubsKeys(subs) == TextKeys(SubTexts(subs))
    decreases |subs|
  {
    if subs != [] {
      SubTextsKeys(subs[1..]);
      KeysAreTexts(subs[0].lines);
      TrimKeepsItems(Texts(subs[0].lines));
    }
  }

  lemma {:induction false} SectionTextsKeys(sections: seq<Section>)
    ensures AllKeys(sections) == OutlineKeys(SectionTexts(sections))
    decreases |sections|
  {
    if sections != [] {
      SubTextsKeys(sections[0].subs);
      SectionTextsKeys(sections[1..]);
    }
  }

  lemma {:induction false} SubTextsTidy(subs: seq<Subsection>)
    requires GoodSubs(subs)
    ensures forall i :: 0 <= i < |SubTexts(subs)| ==> TidySub(SubTexts(subs)[i])
    decreases |subs|
  {
    if subs != [] {
      SubTextsTidy(subs[1..]);
      assert GoodSub(subs[0]);
      TrimTidy(Texts(subs[0].lines));
    }
  }

  lemma {:induction false} SectionTextsTidy(sections: seq<Section>)
    requires Good(sections)
    ensures forall i :: 0 <= i < |SectionTexts(sections)| ==> TidySection(SectionTexts(sections)[i])
    decreases |sections|
  {
    if sections != [] {
      SectionTextsTidy(sections[1..]);
      SubTextsTidy(sections[0].subs);
      TrimTidy(Texts(sections[0].leading));
    }
  }

  /** The subsections of a file begin with a bullet. */
  predicate BulletLed(content: seq<Line>) {
    var sections := Parse(Number(content)).sections;
    forall i, j :: 0 <= i < |sections| && 0 <= j < |sections[i].subs| ==> Led(Texts(sections[i].subs[j].lines))
  }

  lemma {:induction false} BeforeSubPlain(lines: seq<Numbered>)
    requires NoRelease(Texts(lines))
    ensures Plain(Texts(BeforeSub(lines)))
  {
    LeadSubErase(lines);
    LeadSubTidy(Texts(lines));
  }

  lemma {:induction false} SubsPlain(lines: seq<Numbered>)
    requires NoRelease(Texts(lines))
    ensures forall j :: 0 <= j < |SubsOf(lines)| ==> Plain(Texts(SubsOf(lines)[j].lines))
    decreases |lines|
  {
    if lines != [] {
      assert Texts(lines[1..]) == Texts(lines)[1..];
      SubsPlain(lines[1..]);
      BeforeSubPlain(lines[1..]);
    }
  }

  predicate PlainSection(s: Section) {
    Plain(Texts(s.leading)) && forall j :: 0 <= j < |s.subs| ==> Plain(Texts(s.subs[j].lines))
  }

  lemma {:induction false} SectionsPlain(lines: seq<Numbered>)
    ensures forall i :: 0 <= i < |SectionsOf(lines)| ==> PlainSection(SectionsOf(lines)[i])
    decreases |lines|
  {
    if lines != [] {
      SectionsPlain(lines[1..]);
      var body := BeforeRelease(lines[1..]);
      LeadReleaseErase(lines[1..]);
      LeadReleaseTidy(Texts(lines[1..]));
      BeforeSubPlain(body);
      SubsPlain(body);
    }
  }

  lemma {:induction false} ParsedGood(content: seq<Line>)
    requires BulletLed(content)
    ensures Good(Parse(Number(content)).sections)
  {
    SectionsPlain(Number(content));
    var sections := Parse(Number(content)).sections;
    forall i | 0 <= i < |sections| ensures GoodSubs(sections[i].subs) && Plain(Texts(sections[i].leading)) {
      assert PlainSection(sections[i]);
    }
  }

  lemma {:induction false} FixedGood(content: seq<Line>, versions: Versions, starts: set<nat>, historical: set<Key>)
    requires BulletLed(content)
    ensures var s := Parse(Number(content)).sections;
            var f := FixedDocument(content, versions, starts, historical).sections;
            Good(f) && AllKeys(f) == OtherKeys(s) + (UnreleasedKeys(s) - historical)
  {
    var s := Parse(Number(content)).sections;
    ParsedGood(content);
    DroppedKeys(s, historical);
    PromotedKeys(Dropped(s, historical), starts);
    AllNormalizedKeys(Promoted(Dropped(s, historical), starts));
    SortedKeys(AllNormalized(Promoted(Dropped(s, historical), starts)), versions);
  }

  /** Reading back a printed document of good sections gives the same outline. */
  lemma {:induction false} PrintedReads(d: Document, content: seq<Line>)
    requires Good(d.sections) && d.prefix == Parse(Number(content)).prefix
    ensures OutlineOf(Parse(Number(Render(d)))) == OutlineOf(d)
  {
    SectionTextsTidy(d.sections);
    LeadReleaseErase(Number(content));
    LeadReleaseTidy(Texts(Number(content)));
    TrimTidy(Texts(d.prefix));
    ReadPrinted(OutlineOf(d));
    ParseReads(Number(Render(d)));
    assert Texts(Number(Render(d))) == Render(d);
  }

  /**
   The items of the fixed file are those of the file, less items of the first Unreleased section
   that were released historically and stand nowhere else.
   */
  lemma {:induction false} ItemsConserved(content: seq<Line>, versions: Versions, starts: set<nat>, historical: set<Key>)
    requires BulletLed(content)
    ensures var s := Parse(Number(content)).sections;
            AllKeys(Parse(Number(Fixed(content, versions, starts, historical))).sections) ==
            OtherKeys(s) + (UnreleasedKeys(s) - historical)
  {
    var d := FixedDocument(content, versions, starts, historical);
    FixedGood(content, versions, starts, historical);
    PrintedReads(d, content);
    SectionTextsKeys(d.sections);
    SectionTextsKeys(Parse(Number(Render(d))).sections);
  }
}
