/** The fixer's passes as it runs them: in place, over the list of sections of one document. */
module ChangelogPasses {
  import opened Wrappers
  import opened Sorting
  import opened ChangelogText
  import opened ChangelogDocument
  import opened ChangelogFix

  // ----- Taking items out of a subsection -----

  lemma {:induction false} WithoutRising(lines: seq<Numbered>, numbers: set<nat>)
    requires Rising(lines)
    ensures Rising(Without(lines, numbers))
    ensures Without(lines, numbers) != [] ==> Without(lines, numbers)[0].number >= lines[0].number
    decreases |lines|
  {
    if lines != [] {
      WithoutRising(lines[1..], numbers);
      var rest := Without(lines[1..], numbers);
      assert rest != [] ==> lines[0].number < lines[1..][0].number <= rest[0].number;
      assert forall i :: 0 < i < |rest| ==> rest[0].number < rest[i].number;
    }
  }

  lemma {:induction false} KeptRising(lines: seq<Numbered>, out: Choice)
    requires Rising(lines)
    ensures Rising(Kept(lines, out))
  {
    WithoutIsKept(lines, out);
    WithoutRising(lines, LineRangeSet(Pick(Items(lines), out)));
  }

  lemma {:induction false} KeepsAll(lines: seq<Numbered>, out: Choice)
    requires Rising(lines) && Pick(Items(lines), out) == []
    ensures Kept(lines, out) == lines
  {
    WithoutIsKept(lines, out);
    WithoutNone(lines, {});
  }

  lemma {:induction false} PickNone(items: seq<Item>, out: Choice)
    ensures Pick(Pick(items, Not(out)), out) == []
    decreases |items|
  {
    if items != [] {
      PickNone(items[1..], out);
      if !out.Takes(items[0]) {
        PickFirst(items[0], Pick(items[1..], Not(out)), out);
      }
    }
  }

  /** A second pass over a subsection finds nothing left to take. */
  lemma {:induction false} KeptTwice(lines: seq<Numbered>, out: Choice)
    requires Rising(lines)
    ensures Pick(Items(Kept(lines, out)), out) == [] && Kept(Kept(lines, out), out) == Kept(lines, out)
  {
    KeptRising(lines, out);
    ItemsOfKept(lines, out);
    PickNone(Items(lines), out);
    KeepsAll(Kept(lines, out), out);
  }

  method TakeOut(lines: seq<Numbered>, out: Choice) returns (left: seq<Numbered>, taken: seq<Item>)
    requires Rising(lines)
    ensures left == Kept(lines, out) && taken == Pick(Items(lines), out)
  {
    var items := ParseItems(lines);
    taken := Pick(items, out);
    if taken == [] {
      KeepsAll(lines, out);
      return lines, taken;
    }
    WithoutIsKept(lines, out);
    left := Without(lines, LineRangeSet(taken));
  }

  method CollectSubsKeys(subs: seq<Subsection>) returns (keys: set<Key>)
    ensures keys == SubsKeys(subs)
  {
    keys := {};
    var j := 0;
    assert subs[0..] == subs;
    while j < |subs|
      invariant j <= |subs| && SubsKeys(subs) == keys + SubsKeys(subs[j..])
    {
      assert subs[j..][1..] == subs[j + 1..];
      var items := ParseItems(subs[j].lines);
      keys := keys + KeysOf(items);
      j := j + 1;
    }
  }

  method CollectReleasedItemKeys(sections: seq<Section>) returns (keys: set<Key>)
    ensures keys == ReleasedKeys(sections)
  {
    keys := {};
    var i := 0;
    assert sections[0..] == sections;
    while i < |sections|
      invariant i <= |sections| && ReleasedKeys(sections) == keys + ReleasedKeys(sections[i..])
    {
      assert sections[i..][1..] == sections[i + 1..];
      if sections[i].title != UNRELEASED {
        var more := CollectSubsKeys(sections[i].subs);
        keys := keys + more;
      }
      i := i + 1;
    }
  }

  // ----- Appending to a subsection -----

  method AddItems(s: Section, title: string, items: seq<Key>) returns (r: Section)
    ensures r == AddGroup(s, Group(title, items))
  {
    var subs := s.subs;
    var target := LastTitled(subs, title);
    if target.None? {
      subs := subs + [Subsection(title, [])];
      target := Some(|subs| - 1);
    }
    var sub := subs[target.value];
    ghost var whole := AddTo(sub, items);
    var i := 0;
    assert items[0..] == items;
    while i < |items|
      invariant i <= |items| && AddTo(sub, items[i..]) == whole
    {
      assert items[i..][1..] == items[i + 1..];
      if items[i] !in KeysOf(Items(sub.lines)) {
        sub := sub.(lines := Synthetic(Append(Texts(sub.lines), items[i])));
      }
      i := i + 1;
    }
    assert items[|items|..] == [];
    r := s.(subs := subs[target.value := sub]);
  }

  // ----- Where things are while the released sections are walked -----

  /** The index of the section that receives items, once there is one. */
  function Receiver(base: seq<Section>, u: nat, groups: seq<Group>): Option<nat> {
    if u < |base| then Some(u) else if groups != [] then Some(0) else None
  }

  /** How far the original sections have been pushed back. */
  function Shift(base: seq<Section>, u: nat, groups: seq<Group>): nat {
    if u < |base| || groups == [] then 0 else 1
  }

  lemma {:induction false} ReceivedPut(base: seq<Section>, u: nat, groups: seq<Group>, q: nat, s: Section)
    requires u <= |base| && q < |base| && q != u
    ensures var at := q + Shift(base, u, groups);
            && at < |Received(base, u, groups)| && Received(base, u, groups)[at] == base[q]
            && Received(base[q := s], u, groups) == Received(base, u, groups)[at := s]
  {
  }

  lemma {:induction false} AddGroupsSnoc(s: Section, groups: seq<Group>, g: Group)
    ensures AddGroups(s, groups + [g]) == AddGroup(AddGroups(s, groups), g)
    decreases |groups|
  {
    if groups == [] {
      assert ([g])[1..] == [] && groups + [g] == [g];
    } else {
      assert (groups + [g])[1..] == groups[1..] + [g];
      AddGroupsSnoc(AddGroup(s, groups[0]), groups[1..], g);
    }
  }

  lemma {:induction false} ReceivedMore(base: seq<Section>, u: nat, groups: seq<Group>, g: Group)
    requires u <= |base| && (u < |base| || groups != [])
    ensures var r := if u < |base| then u else 0;
            && r < |Received(base, u, groups)| && Receiver(base, u, groups + [g]) == Some(r)
            && Received(base, u, groups + [g]) == Received(base, u, groups)[r := AddGroup(Received(base, u, groups)[r], g)]
  {
    if u < |base| {
      AddGroupsSnoc(base[u], groups, g);
    } else {
      AddGroupsSnoc(NEW_SECTION, groups, g);
    }
  }

  lemma {:induction false} ReceivedFirst(base: seq<Section>, u: nat, g: Group)
    requires u == |base|
    ensures Receiver(base, u, [g]) == Some(0) && Received(base, u, [g]) == [AddGroup(NEW_SECTION, g)] + base
  {
    assert ([g])[1..] == [];
    assert AddGroups(AddGroup(NEW_SECTION, g), []) == AddGroup(NEW_SECTION, g);
  }

  /** A section whose first `j` subsections have been gone through. */
  function SomeKept(s: Section, out: Choice, j: nat): Section
    requires j <= |s.subs|
  {
    s.(subs := SubsWithout(s.subs[..j], out) + s.subs[j..])
  }

  lemma {:induction false} SomeKeptEnds(s: Section, out: Choice)
    ensures SomeKept(s, out, 0) == s
    ensures SomeKept(s, out, |s.subs|) == s.(subs := SubsWithout(s.subs, out))
  {
    assert SubsWithout(s.subs[..0], out) + s.subs[0..] == s.subs;
    assert s.subs[..|s.subs|] == s.subs;
    assert SubsWithout(s.subs, out) + [] == SubsWithout(s.subs, out);
  }

  lemma {:induction false} SomeKeptNext(s: Section, out: Choice, j: nat)
    requires j < |s.subs|
    ensures |SomeKept(s, out, j).subs| == |s.subs| && SomeKept(s, out, j).subs[j] == s.subs[j]
    ensures SomeKept(s, out, j + 1) ==
            SomeKept(s, out, j).(subs := SomeKept(s, out, j).subs[j := s.subs[j].(lines := Kept(s.subs[j].lines, out))])
  {
    var now, next := SomeKept(s, out, j).subs, SomeKept(s, out, j + 1).subs;
    assert next == now[j := s.subs[j].(lines := Kept(s.subs[j].lines, out))];
  }

  lemma {:induction false} GroupsSnoc(subs: seq<Subsection>, sub: Subsection, starts: set<nat>)
    ensures GroupsOf(subs + [sub], starts) ==
            GroupsOf(subs, starts) + (if GroupOf(sub, starts).items == [] then [] else [GroupOf(sub, starts)])
    decreases |subs|
  {
    if subs == [] {
      assert subs + [sub] == [sub];
    } else {
      assert (subs + [sub])[1..] == subs[1..] + [sub];
      GroupsSnoc(subs[1..], sub, starts);
    }
  }

  lemma {:induction false} GroupsNext(subs: seq<Subsection>, j: nat, starts: set<nat>, groups: seq<Group>, now: seq<Group>)
    requires j < |subs| && now == groups + GroupsOf(subs[..j], starts)
    ensures var g := GroupOf(subs[j], starts);
            groups + GroupsOf(subs[..j + 1], starts) == if g.items == [] then now else now + [g]
  {
    assert subs[..j + 1] == subs[..j] + [subs[j]];
    GroupsSnoc(subs[..j], subs[j], starts);
  }

  function SubPut(sections: seq<Section>, at: nat, j: nat, lines: seq<Numbered>): seq<Section>
    requires at < |sections| && j < |sections[at].subs|
  {
    sections[at := sections[at].(subs := sections[at].subs[j := sections[at].subs[j].(lines := lines)])]
  }

  /** One subsection gone through: the sections, the receiver, and where the section now is. */
  function SubPromoted(sections: seq<Section>, at: nat, j: nat, unreleased: Option<nat>, starts: set<nat>)
    : (seq<Section>, Option<nat>, nat)
    requires at < |sections| && j < |sections[at].subs|
    requires unreleased.Some? ==> unreleased.value < |sections|
  {
    var g := GroupOf(sections[at].subs[j], starts);
    var put := SubPut(sections, at, j, Kept(sections[at].subs[j].lines, Starting(starts)));
    if g.items == [] then (sections, unreleased, at)
    else if unreleased.Some? then (put[unreleased.value := AddGroup(put[unreleased.value], g)], unreleased, at)
    else ([AddGroup(NEW_SECTION, g)] + put, Some(0), at + 1)
  }

  /** Where the walk of section `q` stands after `j` of its subsections. */
  ghost predicate Walked(base: seq<Section>, u: nat, q: nat, groups: seq<Group>, starts: set<nat>, j: nat,
                         sections: seq<Section>, unreleased: Option<nat>, at: nat)
  {
    && q < |base| && u <= |base| && q != u && j <= |base[q].subs|
    && var b := base[q := SomeKept(base[q], Starting(starts), j)];
    var g := groups + GroupsOf(base[q].subs[..j], starts);
    && sections == Received(b, u, g) && unreleased == Receiver(b, u, g) && at == q + Shift(b, u, g)
  }

  lemma {:induction false} WalkedAt(base: seq<Section>, u: nat, q: nat, groups: seq<Group>, starts: set<nat>, j: nat,
                 sections: seq<Section>, unreleased: Option<nat>, at: nat)
    requires Walked(base, u, q, groups, starts, j, sections, unreleased, at)
    ensures at < |sections| && sections[at] == SomeKept(base[q], Starting(starts), j)
    ensures unreleased.Some? ==> unreleased.value < |sections| && unreleased.value != at
  {
    var b := base[q := SomeKept(base[q], Starting(starts), j)];
    var g := groups + GroupsOf(base[q].subs[..j], starts);
    ReceivedPut(b, u, g, q, b[q]);
  }

  lemma {:induction false} WalkedNext(base: seq<Section>, u: nat, q: nat, groups: seq<Group>, starts: set<nat>, j: nat,
                   sections: seq<Section>, unreleased: Option<nat>, at: nat)
    requires Walked(base, u, q, groups, starts, j, sections, unreleased, at) && j < |base[q].subs|
    requires Rising(base[q].subs[j].lines)
    ensures at < |sections| && j < |sections[at].subs| && sections[at].subs[j] == base[q].subs[j]
    ensures unreleased.Some? ==> unreleased.value < |sections| && unreleased.value != at
    ensures var (after, now, here) := SubPromoted(sections, at, j, unreleased, starts);
            Walked(base, u, q, groups, starts, j + 1, after, now, here)
  {
    WalkedAt(base, u, q, groups, starts, j, sections, unreleased, at);
    var s, out := base[q], Starting(starts);
    var sub := s.subs[j];
    SomeKeptNext(s, out, j);
    var b, next := base[q := SomeKept(s, out, j)], base[q := SomeKept(s, out, j + 1)];
    var g := groups + GroupsOf(s.subs[..j], starts);
    GroupsNext(s.subs, j, starts, groups, g);
    if GroupOf(sub, starts).items == [] {
      assert Pick(Items(sub.lines), out) == [];
      KeepsAll(sub.lines, out);
      assert SomeKept(s, out, j).subs[j := sub] == SomeKept(s, out, j).subs;
      assert next == b;
    } else {
      ReceivedPut(b, u, g, q, SomeKept(s, out, j + 1));
      assert next == b[q := SomeKept(s, out, j + 1)];
      if unreleased.Some? {
        ReceivedMore(next, u, g, GroupOf(sub, starts));
      } else {
        ReceivedFirst(next, u, GroupOf(sub, starts));
        assert g + [GroupOf(sub, starts)] == [GroupOf(sub, starts)];
      }
    }
  }

  // ----- Where the walk over all sections stands -----

  /** The first `p` sections have been gone through, the others not. */
  function PassedBase(was: seq<Section>, starts: set<nat>, p: nat): seq<Section>
    requires p <= |was|
  {
    AllStaying(was[..p], starts) + was[p..]
  }

  function Passed(was: seq<Section>, starts: set<nat>, p: nat): seq<Section>
    requires p <= |was|
  {
    Received(PassedBase(was, starts, p), FirstUnreleased(was), Leaving(was[..p], starts))
  }

  function PassedReceiver(was: seq<Section>, starts: set<nat>, p: nat): Option<nat>
    requires p <= |was|
  {
    Receiver(PassedBase(was, starts, p), FirstUnreleased(was), Leaving(was[..p], starts))
  }

  function PassedShift(was: seq<Section>, starts: set<nat>, p: nat): nat
    requires p <= |was|
  {
    Shift(PassedBase(was, starts, p), FirstUnreleased(was), Leaving(was[..p], starts))
  }

  lemma {:induction false} PassedNone(was: seq<Section>, starts: set<nat>)
    ensures Passed(was, starts, 0) == was
    ensures PassedReceiver(was, starts, 0) == if FirstUnreleased(was) < |was| then Some(FirstUnreleased(was)) else None
    ensures PassedShift(was, starts, 0) == 0
  {
    assert PassedBase(was, starts, 0) == was;
    assert was[..0] == [];
  }

  lemma {:induction false} PassedAll(was: seq<Section>, starts: set<nat>)
    ensures Passed(was, starts, |was|) == Promoted(was, starts)
  {
    assert was[..|was|] == was;
    assert PassedBase(was, starts, |was|) == AllStaying(was, starts);
  }

  lemma {:induction false} AddGroupsTitle(s: Section, groups: seq<Group>)
    ensures AddGroups(s, groups).title == s.title
    decreases |groups|
  {
    if groups != [] { AddGroupsTitle(AddGroup(s, groups[0]), groups[1..]); }
  }

  lemma {:induction false} LeavingSnoc(sections: seq<Section>, s: Section, starts: set<nat>)
    ensures Leaving(sections + [s], starts) ==
            Leaving(sections, starts) + (if s.title == UNRELEASED then [] else GroupsOf(s.subs, starts))
    decreases |sections|
  {
    if sections == [] {
      assert sections + [s] == [s];
    } else {
      assert (sections + [s])[1..] == sections[1..] + [s];
      LeavingSnoc(sections[1..], s, starts);
    }
  }

  lemma {:induction false} LeavingNext(was: seq<Section>, starts: set<nat>, p: nat)
    requires p < |was|
    ensures Leaving(was[..p + 1], starts) ==
            Leaving(was[..p], starts) + (if was[p].title == UNRELEASED then [] else GroupsOf(was[p].subs, starts))
  {
    assert was[..p + 1] == was[..p] + [was[p]];
    LeavingSnoc(was[..p], was[p], starts);
  }

  lemma {:induction false} PassedBaseNext(was: seq<Section>, starts: set<nat>, p: nat)
    requires p < |was|
    ensures PassedBase(was, starts, p)[p] == was[p]
    ensures PassedBase(was, starts, p + 1) == PassedBase(was, starts, p)[p := Staying(was[p], starts)]
  {
  }

  /** The section met next is the original one, or the receiver. */
  lemma {:induction false} PassedMeets(was: seq<Section>, starts: set<nat>, p: nat)
    requires p < |was|
    ensures var at := p + PassedShift(was, starts, p);
            && at < |Passed(was, starts, p)|
            && (Passed(was, starts, p)[at].title == UNRELEASED <==> was[p].title == UNRELEASED)
  {
    var u, base, groups := FirstUnreleased(was), PassedBase(was, starts, p), Leaving(was[..p], starts);
    PassedBaseNext(was, starts, p);
    if p == u {
      AddGroupsTitle(base[u], groups);
    } else {
      ReceivedPut(base, u, groups, p, base[p]);
    }
  }

  /** What the walk holds after `p` sections. */
  ghost predicate Stands(was: seq<Section>, starts: set<nat>, p: nat, sections: seq<Section>, unreleased: Option<nat>) {
    p <= |was| && sections == Passed(was, starts, p) && unreleased == PassedReceiver(was, starts, p)
  }

  lemma {:induction false} WalkStarts(base: seq<Section>, u: nat, q: nat, groups: seq<Group>, starts: set<nat>)
    requires q < |base| && u <= |base| && q != u
    ensures Walked(base, u, q, groups, starts, 0, Received(base, u, groups), Receiver(base, u, groups), q + Shift(base, u, groups))
  {
    SomeKeptEnds(base[q], Starting(starts));
    assert base[q := base[q]] == base;
    assert base[q].subs[..0] == [];
    assert groups + [] == groups;
  }

  lemma {:induction false} WalkEnds(base: seq<Section>, u: nat, q: nat, groups: seq<Group>, starts: set<nat>,
                 sections: seq<Section>, unreleased: Option<nat>, here: nat)
    requires q < |base| && base[q].title != UNRELEASED
    requires Walked(base, u, q, groups, starts, |base[q].subs|, sections, unreleased, here)
    ensures sections == Received(base[q := Staying(base[q], starts)], u, groups + GroupsOf(base[q].subs, starts))
    ensures unreleased == Receiver(base[q := Staying(base[q], starts)], u, groups + GroupsOf(base[q].subs, starts))
  {
    SomeKeptEnds(base[q], Starting(starts));
    assert base[q].subs[..|base[q].subs|] == base[q].subs;
  }

  lemma {:induction false} PassedWalks(was: seq<Section>, starts: set<nat>, p: nat, sections: seq<Section>, unreleased: Option<nat>, at: nat)
    requires Ordered(was) && p < |was| && was[p].title != UNRELEASED
    requires Stands(was, starts, p, sections, unreleased) && at == p + PassedShift(was, starts, p)
    ensures var base := PassedBase(was, starts, p);
            && Walked(base, FirstUnreleased(was), p, Leaving(was[..p], starts), starts, 0, sections, unreleased, at)
            && base[p] == was[p]
  {
    PassedBaseNext(was, starts, p);
    WalkStarts(PassedBase(was, starts, p), FirstUnreleased(was), p, Leaving(was[..p], starts), starts);
  }

  lemma {:induction false} WalkedPasses(was: seq<Section>, starts: set<nat>, p: nat, sections: seq<Section>, unreleased: Option<nat>, here: nat)
    requires p < |was| && was[p].title != UNRELEASED && PassedBase(was, starts, p)[p] == was[p]
    requires Walked(PassedBase(was, starts, p), FirstUnreleased(was), p, Leaving(was[..p], starts), starts, |was[p].subs|,
                    sections, unreleased, here)
    ensures Stands(was, starts, p + 1, sections, unreleased)
  {
    WalkEnds(PassedBase(was, starts, p), FirstUnreleased(was), p, Leaving(was[..p], starts), starts, sections, unreleased, here);
    PassedBaseNext(was, starts, p);
    LeavingNext(was, starts, p);
  }

  lemma {:induction false} PassesUnreleased(was: seq<Section>, starts: set<nat>, p: nat, sections: seq<Section>, unreleased: Option<nat>)
    requires p < |was| && was[p].title == UNRELEASED && Stands(was, starts, p, sections, unreleased)
    ensures Stands(was, starts, p + 1, sections, unreleased)
    ensures PassedShift(was, starts, p + 1) == PassedShift(was, starts, p)
  {
    PassedBaseNext(was, starts, p);
    LeavingNext(was, starts, p);
    var base, groups := PassedBase(was, starts, p), Leaving(was[..p], starts);
    assert base[p := was[p]] == base;
    assert groups + [] == groups;
  }

  lemma {:induction false} GroupsNone(subs: seq<Subsection>, starts: set<nat>)
    requires RisingSubs(subs)
    ensures GroupsOf(SubsWithout(subs, Starting(starts)), starts) == []
    decreases |subs|
  {
    if subs != [] {
      KeptTwice(subs[0].lines, Starting(starts));
      assert SubsWithout(subs, Starting(starts))[1..] == SubsWithout(subs[1..], Starting(starts));
      GroupsNone(subs[1..], starts);
    }
  }

  lemma {:induction false} SubsWithoutTwice(subs: seq<Subsection>, out: Choice)
    requires RisingSubs(subs)
    ensures SubsWithout(SubsWithout(subs, out), out) == SubsWithout(subs, out)
    ensures RisingSubs(SubsWithout(subs, out))
  {
    forall j | 0 <= j < |subs|
      ensures SubsWithout(SubsWithout(subs, out), out)[j] == SubsWithout(subs, out)[j]
      ensures Rising(SubsWithout(subs, out)[j].lines)
    {
      KeptTwice(subs[j].lines, out);
      KeptRising(subs[j].lines, out);
    }
  }

  /** After a new first section was put in, the walk meets the section it was in once more. */
  lemma {:induction false} PassedWalksAgain(was: seq<Section>, starts: set<nat>, p: nat, sections: seq<Section>, unreleased: Option<nat>)
    requires Ordered(was) && 0 < p <= |was| && PassedShift(was, starts, p) == 1
    requires Stands(was, starts, p, sections, unreleased)
    ensures var base := PassedBase(was, starts, p);
            && Walked(base, FirstUnreleased(was), p - 1, Leaving(was[..p], starts), starts, 0, sections, unreleased, p)
            && base[p - 1] == Staying(was[p - 1], starts)
            && was[p - 1].title != UNRELEASED
            && RisingSubs(base[p - 1].subs)
  {
    SubsWithoutTwice(was[p - 1].subs, Starting(starts));
    WalkStarts(PassedBase(was, starts, p), FirstUnreleased(was), p - 1, Leaving(was[..p], starts), starts);
  }

  /** Walking a section that has given everything already changes nothing. */
  lemma {:induction false} WalkedInVain(base: seq<Section>, u: nat, q: nat, groups: seq<Group>, starts: set<nat>, was: Section,
                     sections: seq<Section>, unreleased: Option<nat>, here: nat)
    requires q < |base| && was.title != UNRELEASED && base[q] == Staying(was, starts) && RisingSubs(was.subs)
    requires Walked(base, u, q, groups, starts, |base[q].subs|, sections, unreleased, here)
    ensures sections == Received(base, u, groups) && unreleased == Receiver(base, u, groups)
  {
    WalkEnds(base, u, q, groups, starts, sections, unreleased, here);
    SubsWithoutTwice(was.subs, Starting(starts));
    GroupsNone(was.subs, starts);
    assert base[q := base[q]] == base;
    assert groups + [] == groups;
  }

  lemma {:induction false} WalkedAgain(was: seq<Section>, starts: set<nat>, p: nat, sections: seq<Section>, unreleased: Option<nat>, here: nat)
    requires Ordered(was) && 0 < p <= |was| && was[p - 1].title != UNRELEASED
    requires PassedBase(was, starts, p)[p - 1] == Staying(was[p - 1], starts)
    requires Walked(PassedBase(was, starts, p), FirstUnreleased(was), p - 1, Leaving(was[..p], starts), starts, |was[p - 1].subs|,
                    sections, unreleased, here)
    ensures Stands(was, starts, p, sections, unreleased)
  {
    WalkedInVain(PassedBase(was, starts, p), FirstUnreleased(was), p - 1, Leaving(was[..p], starts), starts, was[p - 1],
                 sections, unreleased, here);
  }

  lemma {:induction false} SomeKeptTurn(was: seq<Section>, u: nat, out: Choice, j: nat, sections: seq<Section>, lines: seq<Numbered>)
    requires u < |was| && j < |was[u].subs| && sections == was[u := SomeKept(was[u], out, j)]
    requires lines == Kept(was[u].subs[j].lines, out)
    ensures |sections[u].subs| == |was[u].subs| && sections[u].subs[j] == was[u].subs[j]
    ensures SubPut(sections, u, j, lines) == was[u := SomeKept(was[u], out, j + 1)]
  {
    SomeKeptNext(was[u], out, j);
  }

  /** The walk is at the next section, or back at the last one after the list has grown. */
  ghost predicate Meets(was: seq<Section>, starts: set<nat>, p: nat, at: nat)
    requires p <= |was|
  {
    if Again(was, starts, p, at) then p > 0 && at == p else p < |was| && at == p + PassedShift(was, starts, p)
  }

  ghost predicate Again(was: seq<Section>, starts: set<nat>, p: nat, at: nat)
    requires p <= |was|
  {
    at == p && PassedShift(was, starts, p) == 1
  }

  lemma {:induction false} ShiftGrows(was: seq<Section>, starts: set<nat>, p: nat)
    requires p < |was|
    ensures PassedShift(was, starts, p) <= PassedShift(was, starts, p + 1) <= 1
    ensures PassedReceiver(was, starts, p).Some? ==>
              PassedReceiver(was, starts, p + 1).Some? && PassedShift(was, starts, p) == PassedShift(was, starts, p + 1)
    ensures PassedReceiver(was, starts, p + 1).None? ==> PassedShift(was, starts, p + 1) == 0
  {
    LeavingNext(was, starts, p);
  }

  /** Between two turns of the walk over a list of `n` sections. */
  ghost predicate Walking(was: seq<Section>, starts: set<nat>, p: nat, at: nat, n: nat) {
    && p <= |was| && n == |was| + PassedShift(was, starts, p)
    && (if at < n then Meets(was, starts, p, at) else p == |was|)
  }

  lemma {:induction false} WalkingNext(was: seq<Section>, starts: set<nat>, p: nat, at: nat)
    requires p <= |was| && at < |was| + PassedShift(was, starts, p)
    requires Walking(was, starts, p, at, |was| + PassedShift(was, starts, p))
    ensures var next := if Again(was, starts, p, at) then p else p + 1;
            && next <= |was| && Walking(was, starts, next, at + 1, |was| + PassedShift(was, starts, next))
            && (PassedReceiver(was, starts, p).Some? ==>
                  PassedReceiver(was, starts, next).Some? && PassedShift(was, starts, next) == PassedShift(was, starts, p))
            && (PassedReceiver(was, starts, next).None? ==> PassedShift(was, starts, next) == PassedShift(was, starts, p))
  {
    if !Again(was, starts, p, at) { ShiftGrows(was, starts, p); }
  }

  lemma {:induction false} PassedLength(was: seq<Section>, starts: set<nat>, p: nat)
    requires p <= |was|
    ensures |Passed(was, starts, p)| == |was| + PassedShift(was, starts, p)
  {
  }

  // ----- The passes -----

  class Draft {
    var sections: seq<Section>

    constructor (sections: seq<Section>)
      ensures this.sections == sections
    {
      this.sections := sections;
    }

    method DropItems(u: nat, keys: set<Key>)
      requires u < |sections| && RisingSubs(sections[u].subs)
      modifies this
      ensures sections == old(sections)[u := old(sections)[u].(subs := SubsWithout(old(sections)[u].subs, Keyed(keys)))]
    {
      ghost var was := sections;
      SomeKeptEnds(was[u], Keyed(keys));
      var j := 0;
      while j < |sections[u].subs|
        invariant j <= |was[u].subs| && sections == was[u := SomeKept(was[u], Keyed(keys), j)]
        decreases |was[u].subs| - j
      {
        assert sections[u].subs[j] == was[u].subs[j];
        var lines, _ := TakeOut(sections[u].subs[j].lines, Keyed(keys));
        SomeKeptTurn(was, u, Keyed(keys), j, sections, lines);
        sections := SubPut(sections, u, j, lines);
        j := j + 1;
      }
    }

    method DropReleased(historical: set<Key>)
      requires Ordered(sections)
      modifies this
      ensures sections == Dropped(old(sections), historical)
    {
      var u := FirstUnreleased(sections);
      if u == |sections| { return; }
      var keys := CollectReleasedItemKeys(sections);
      DropItems(u, keys + historical);
    }

    method PromoteSub(at: nat, j: nat, unreleased: Option<nat>, starts: set<nat>) returns (now: Option<nat>, here: nat)
      requires at < |sections| && j < |sections[at].subs| && Rising(sections[at].subs[j].lines)
      requires unreleased.Some? ==> unreleased.value < |sections| && unreleased.value != at
      modifies this
      ensures (sections, now, here) == SubPromoted(old(sections), at, j, unreleased, starts)
    {
      now, here := unreleased, at;
      var sub := sections[here].subs[j];
      var lines, taken := TakeOut(sub.lines, Starting(starts));
      ghost var g := GroupOf(sub, starts);
      assert g == Group(sub.title, LinesOf(taken)) && |g.items| == |taken|;
      if taken != [] {
        sections := SubPut(sections, here, j, lines);
        ghost var put := sections;
        if now.None? {
          sections := [NEW_SECTION] + sections;
          now := Some(0);
          here := here + 1;
        }
        var received := AddItems(sections[now.value], sub.title, LinesOf(taken));
        sections := sections[now.value := received];
        if unreleased.None? { assert sections == [AddGroup(NEW_SECTION, g)] + put; }
      }
    }

    /**
     The items one released section gives up. The receiving section may be put in front of the
     list while this section is being read, which moves it one place back.
     */
    method PromoteSection(at: nat, unreleased: Option<nat>, starts: set<nat>,
                          ghost base: seq<Section>, ghost u: nat, ghost q: nat, ghost groups: seq<Group>)
      returns (now: Option<nat>, ghost last: nat)
      requires Walked(base, u, q, groups, starts, 0, sections, unreleased, at)
      requires RisingSubs(base[q].subs)
      modifies this
      ensures Walked(base, u, q, groups, starts, |base[q].subs|, sections, now, last)
    {
      var here: nat := at;
      now := unreleased;
      var j := 0;
      WalkedAt(base, u, q, groups, starts, 0, sections, now, here);
      while j < |sections[here].subs|
        invariant j <= |base[q].subs| && Walked(base, u, q, groups, starts, j, sections, now, here)
        invariant here < |sections| && |sections[here].subs| == |base[q].subs|
        decreases |base[q].subs| - j
      {
        WalkedNext(base, u, q, groups, starts, j, sections, now, here);
        now, here := PromoteSub(here, j, now, starts);
        j := j + 1;
        WalkedAt(base, u, q, groups, starts, j, sections, now, here);
      }
      last := here;
    }

    /** The section at one position, met for the first time or, after the list has grown, again. */
    method PromoteAt(at: nat, unreleased: Option<nat>, starts: set<nat>, ghost was: seq<Section>, ghost p: nat)
      returns (now: Option<nat>)
      requires Ordered(was) && at < |sections|
      requires Stands(was, starts, p, sections, unreleased) && Meets(was, starts, p, at)
      modifies this
      ensures Stands(was, starts, if Again(was, starts, p, at) then p else p + 1, sections, now)
    {
      now := unreleased;
      ghost var again := Again(was, starts, p, at);
      if again {
        PassedWalksAgain(was, starts, p, sections, unreleased);
        WalkedAt(PassedBase(was, starts, p), FirstUnreleased(was), p - 1, Leaving(was[..p], starts), starts, 0, sections, now, at);
      } else {
        PassedMeets(was, starts, p);
      }
      if sections[at].title != UNRELEASED {
        if !again { PassedWalks(was, starts, p, sections, unreleased, at); }
        ghost var here: nat;
        now, here := PromoteSection(at, unreleased, starts, PassedBase(was, starts, p), FirstUnreleased(was),
                                    if again then p - 1 else p, Leaving(was[..p], starts));
        if again {
          WalkedAgain(was, starts, p, sections, now, here);
        } else {
          WalkedPasses(was, starts, p, sections, now, here);
        }
      } else {
        PassesUnreleased(was, starts, p, sections, unreleased);
      }
    }

    /**
     Walks the sections by position. After a new section was put in front, the walk meets the
     section it was in once more; by then that section has nothing left to give.
     */
    method Promote(starts: set<nat>)
      requires Ordered(sections)
      modifies this
      ensures sections == Promoted(old(sections), starts)
    {
      ghost var was := sections;
      var unreleased: Option<nat> := if FirstUnreleased(sections) < |sections| then Some(FirstUnreleased(sections)) else None;
      var at := 0;
      ghost var p := 0;
      PassedNone(was, starts);
      while at < |sections|
        invariant Stands(was, starts, p, sections, unreleased) && Walking(was, starts, p, at, |sections|)
        decreases if unreleased.None? then 1 else 0, |sections| - at
      {
        WalkingNext(was, starts, p, at);
        ghost var next := if Again(was, starts, p, at) then p else p + 1;
        unreleased := PromoteAt(at, unreleased, starts, was, p);
        PassedLength(was, starts, next);
        p := next;
        at := at + 1;
      }
      PassedAll(was, starts);
    }

    method Normalize()
      modifies this
      ensures sections == AllNormalized(old(sections))
    {
      ghost var was := sections;
      var i := 0;
      while i < |sections|
        invariant i <= |sections| == |was|
        invariant forall k :: 0 <= k < |was| ==> sections[k] == if k < i then Normalized(was[k]) else was[k]
      {
        var s := NormalizeSection(sections[i]);
        sections := sections[i := s];
        i := i + 1;
      }
    }

    method SortReleases(versions: Versions)
      modifies this
      ensures sections == SortedSections(old(sections), versions)
    {
      sections := Titled(sections, true) + Sort(Titled(sections, false), SectionLe(versions));
    }
  }

  method NormalizeSection(s: Section) returns (r: Section)
    ensures r == Normalized(s)
  {
    var done: seq<Subsection> := [];
    ghost var all := MergedAll([], s.subs);
    var i := 0;
    assert s.subs[0..] == s.subs;
    while i < |s.subs|
      invariant i <= |s.subs| && MergedAll(done, s.subs[i..]) == all
    {
      assert s.subs[i..][1..] == s.subs[i + 1..];
      done := MergeSub(done, s.subs[i]);
      i := i + 1;
    }
    if s.title == UNRELEASED { done := Sort(done, SubLe); }
    r := s.(leading := Synthetic(TrimBlank(Texts(s.leading))), subs := done);
  }

  method MergeSub(done: seq<Subsection>, sub: Subsection) returns (r: seq<Subsection>)
    ensures r == Merged(done, sub)
  {
    var lines := Compact(TrimBlank(Texts(sub.lines)));
    if lines == [] { return done; }
    var n := FirstTitled(done, sub.title);
    if n < |done| {
      return done[n := done[n].(lines := Synthetic(Append(Texts(done[n].lines), lines)))];
    }
    return done + [Subsection(sub.title, Synthetic(lines))];
  }

  // ----- From file to file -----

  lemma {:induction false} BeforeSubRising(lines: seq<Numbered>)
    requires Rising(lines)
    ensures Rising(BeforeSub(lines))
  {
    BeforeSubIs(lines);
  }

  lemma {:induction false} SubsRising(lines: seq<Numbered>)
    requires Rising(lines)
    ensures RisingSubs(SubsOf(lines))
    decreases |lines|
  {
    if lines != [] {
      SubsRising(lines[1..]);
      BeforeSubRising(lines[1..]);
    }
  }

  lemma {:induction false} SectionsRising(lines: seq<Numbered>)
    requires Rising(lines)
    ensures Ordered(SectionsOf(lines))
    decreases |lines|
  {
    if lines != [] {
      SectionsRising(lines[1..]);
      BeforeReleaseIs(lines[1..]);
      SubsRising(BeforeRelease(lines[1..]));
    }
  }

  lemma {:induction false} DroppedOrdered(sections: seq<Section>, historical: set<Key>)
    requires Ordered(sections)
    ensures Ordered(Dropped(sections, historical))
  {
    var u := FirstUnreleased(sections);
    if u < |sections| {
      SubsWithoutTwice(sections[u].subs, Keyed(ReleasedKeys(sections) + historical));
    }
  }

  method FixChangelogContent(content: seq<Line>, versions: Versions, starts: set<nat>, historical: set<Key>)
    returns (out: seq<Line>)
    ensures out == Fixed(content, versions, starts, historical)
  {
    var document := ParseChangelog(content);
    var draft := new Draft(document.sections);
    SectionsRising(Number(content));
    draft.DropReleased(historical);
    DroppedOrdered(document.sections, historical);
    draft.Promote(starts);
    draft.Normalize();
    draft.SortReleases(versions);
    out := RenderChangelog(document.(sections := draft.sections));
  }
}
