/**
 The passes of the changelog fixer over a parsed document: drop what was already released,
 promote what was added to a released section, normalize the sections, sort them.
 */
module ChangelogFix {
  import opened Wrappers
  import opened Sorting
  import opened ChangelogText
  import opened ChangelogDocument

  const UNRELEASED := "Unreleased"
  const NEW_SECTION := Section("## [Unreleased]", UNRELEASED, [], [])

  type Key = seq<Line>

  /** An item already holds its lines trimmed, so they are its key. */
  function KeysOf(items: seq<Item>): set<Key> {
    set item | item in items :: item.lines
  }

  function SubsKeys(subs: seq<Subsection>): set<Key> {
    if subs == [] then {} else KeysOf(Items(subs[0].lines)) + SubsKeys(subs[1..])
  }

  function FirstUnreleased(sections: seq<Section>): (n: nat)
    ensures n <= |sections|
    ensures n < |sections| ==> sections[n].title == UNRELEASED
    ensures forall i :: 0 <= i < n ==> sections[i].title != UNRELEASED
  {
    if sections == [] || sections[0].title == UNRELEASED then 0 else 1 + FirstUnreleased(sections[1..])
  }

  predicate RisingSubs(subs: seq<Subsection>) {
    forall j :: 0 <= j < |subs| ==> Rising(subs[j].lines)
  }

  /** Line numbers rise within every subsection, as the parser leaves them. */
  predicate Ordered(sections: seq<Section>) {
    forall i :: 0 <= i < |sections| ==> RisingSubs(sections[i].subs)
  }

  // ----- Dropping released duplicates -----

  function ReleasedKeys(sections: seq<Section>): set<Key> {
    if sections == [] then {}
    else if sections[0].title == UNRELEASED then ReleasedKeys(sections[1..])
    else SubsKeys(sections[0].subs) + ReleasedKeys(sections[1..])
  }

  function SubsWithout(subs: seq<Subsection>, out: Choice): seq<Subsection> {
    seq(|subs|, i requires 0 <= i < |subs| => subs[i].(lines := Kept(subs[i].lines, out)))
  }

  function Dropped(sections: seq<Section>, historical: set<Key>): seq<Section> {
    var u := FirstUnreleased(sections);
    if u == |sections| then sections
    else
      var keys := ReleasedKeys(sections) + historical;
      sections[u := sections[u].(subs := SubsWithout(sections[u].subs, Keyed(keys)))]
  }

  // ----- Promoting added items -----

  /** Items taken out of one subsection, to go under the same title. */
  datatype Group = Group(title: string, items: seq<Key>)

  function LastTitled(subs: seq<Subsection>, title: string): (r: Option<nat>)
    ensures r.Some? ==> r.value < |subs| && subs[r.value].title == title
    ensures forall i :: (if r.Some? then r.value else -1) < i < |subs| ==> subs[i].title != title
    decreases |subs|
  {
    if subs == [] then None
    else if subs[|subs| - 1].title == title then Some(|subs| - 1)
    else LastTitled(subs[..|subs| - 1], title)
  }

  function AddTo(sub: Subsection, items: seq<Key>): Subsection
    decreases |items|
  {
    if items == [] then sub
    else if items[0] in KeysOf(Items(sub.lines)) then AddTo(sub, items[1..])
    else AddTo(sub.(lines := Synthetic(Append(Texts(sub.lines), items[0]))), items[1..])
  }

  function AddGroup(s: Section, g: Group): Section {
    match LastTitled(s.subs, g.title)
    case Some(k) => if k < |s.subs| then s.(subs := s.subs[k := AddTo(s.subs[k], g.items)]) else s
    case None => s.(subs := s.subs + [AddTo(Subsection(g.title, []), g.items)])
  }

  function AddGroups(s: Section, groups: seq<Group>): Section
    decreases |groups|
  {
    if groups == [] then s else AddGroups(AddGroup(s, groups[0]), groups[1..])
  }

  function GroupOf(sub: Subsection, starts: set<nat>): Group {
    Group(sub.title, LinesOf(Pick(Items(sub.lines), Starting(starts))))
  }

  function GroupsOf(subs: seq<Subsection>, starts: set<nat>): seq<Group> {
    if subs == [] then []
    else if GroupOf(subs[0], starts).items == [] then GroupsOf(subs[1..], starts)
    else [GroupOf(subs[0], starts)] + GroupsOf(subs[1..], starts)
  }

  /** What leaves the released sections, in order. */
  function Leaving(sections: seq<Section>, starts: set<nat>): seq<Group> {
    if sections == [] then []
    else if sections[0].title == UNRELEASED then Leaving(sections[1..], starts)
    else GroupsOf(sections[0].subs, starts) + Leaving(sections[1..], starts)
  }

  function Staying(s: Section, starts: set<nat>): Section {
    if s.title == UNRELEASED then s else s.(subs := SubsWithout(s.subs, Starting(starts)))
  }

  function AllStaying(sections: seq<Section>, starts: set<nat>): seq<Section> {
    seq(|sections|, i requires 0 <= i < |sections| => Staying(sections[i], starts))
  }

  /** `base` with the groups put into section `u`, or into a new first section if there is none. */
  function Received(base: seq<Section>, u: nat, groups: seq<Group>): seq<Section> {
    if groups == [] then base
    else if u < |base| then base[u := AddGroups(base[u], groups)]
    else [AddGroups(NEW_SECTION, groups)] + base
  }

  function Promoted(sections: seq<Section>, starts: set<nat>): seq<Section> {
    Received(AllStaying(sections, starts), FirstUnreleased(sections), Leaving(sections, starts))
  }

  // ----- Normalizing -----

  function FirstTitled(subs: seq<Subsection>, title: string): (n: nat)
    ensures n <= |subs|
    ensures n < |subs| ==> subs[n].title == title
    ensures forall i :: 0 <= i < n ==> subs[i].title != title
  {
    if subs == [] || subs[0].title == title then 0 else 1 + FirstTitled(subs[1..], title)
  }

  /** One subsection joins those already normalized. */
  function Merged(done: seq<Subsection>, sub: Subsection): seq<Subsection> {
    var lines := Compact(TrimBlank(Texts(sub.lines)));
    var n := FirstTitled(done, sub.title);
    if lines == [] then done
    else if n < |done| then done[n := done[n].(lines := Synthetic(Append(Texts(done[n].lines), lines)))]
    else done + [Subsection(sub.title, Synthetic(lines))]
  }

  function MergedAll(done: seq<Subsection>, subs: seq<Subsection>): seq<Subsection>
    decreases |subs|
  {
    if subs == [] then done else MergedAll(Merged(done, subs[0]), subs[1..])
  }

  function TitleOrder(title: string): nat {
    if title == "Breaking Changes" then 0
    else if title == "Added" then 1
    else if title == "Changed" then 2
    else if title == "Fixed" then 3
    else if title == "Removed" then 4
    else 5
  }

  predicate SubLe(a: Subsection, b: Subsection) {
    TitleOrder(a.title) <= TitleOrder(b.title)
  }

  function Normalized(s: Section): Section {
    var merged := MergedAll([], s.subs);
    s.(leading := Synthetic(TrimBlank(Texts(s.leading))),
       subs := if s.title == UNRELEASED then Sort(merged, SubLe) else merged)
  }

  function AllNormalized(sections: seq<Section>): seq<Section> {
    seq(|sections|, i requires 0 <= i < |sections| => Normalized(sections[i]))
  }

  // ----- Sorting sections -----

  /** The numeric parts of a version title. */
  type Versions = string -> seq<int>

  function Part(version: seq<int>, i: nat): int {
    if i < |version| then version[i] else 0
  }

  /** The difference that decides, from part `i` on; positive when `right` is the later version. */
  function CompareFrom(left: seq<int>, right: seq<int>, i: nat, limit: nat): int
    requires i <= limit
    decreases limit - i
  {
    if i == limit then 0
    else if Part(right, i) != Part(left, i) then Part(right, i) - Part(left, i)
    else CompareFrom(left, right, i + 1, limit)
  }

  function CompareVersionsDesc(left: seq<int>, right: seq<int>): int {
    CompareFrom(left, right, 0, if |left| < |right| then |right| else |left|)
  }

  function SectionLe(versions: Versions): (Section, Section) -> bool {
    (a: Section, b: Section) => CompareVersionsDesc(versions(a.title), versions(b.title)) <= 0
  }

  function Titled(sections: seq<Section>, unreleased: bool): seq<Section> {
    if sections == [] then []
    else if (sections[0].title == UNRELEASED) == unreleased then [sections[0]] + Titled(sections[1..], unreleased)
    else Titled(sections[1..], unreleased)
  }

  function SortedSections(sections: seq<Section>, versions: Versions): seq<Section> {
    Titled(sections, true) + Sort(Titled(sections, false), SectionLe(versions))
  }

  /** The whole fixer, from file to file. */
  function FixedDocument(content: seq<Line>, versions: Versions, starts: set<nat>, historical: set<Key>): Document {
    var d := Parse(Number(content));
    d.(sections := SortedSections(AllNormalized(Promoted(Dropped(d.sections, historical), starts)), versions))
  }

  function Fixed(content: seq<Line>, versions: Versions, starts: set<nat>, historical: set<Key>): seq<Line> {
    Render(FixedDocument(content, versions, starts, historical))
  }
}
