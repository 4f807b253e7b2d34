/**
 Changelog files as documents: what the parser reads, what the printer writes, and that the
 two undo each other up to blank lines around each part.
 */
module ChangelogDocument {
  import opened ChangelogText

  datatype Subsection = Subsection(title: string, lines: seq<Numbered>)

  datatype Section = Section(heading: string, title: string, leading: seq<Numbered>, subs: seq<Subsection>)

  datatype Document = Document(prefix: seq<Numbered>, sections: seq<Section>)

  // ----- Parsing -----

  function BeforeSub(lines: seq<Numbered>): (r: seq<Numbered>)
    ensures |r| <= |lines|
  {
    if lines == [] || lines[0].line.Sub? then [] else [lines[0]] + BeforeSub(lines[1..])
  }

  function SubsOf(lines: seq<Numbered>): seq<Subsection> {
    if lines == [] then []
    else if lines[0].line.Sub? then [Subsection(lines[0].line.title, BeforeSub(lines[1..]))] + SubsOf(lines[1..])
    else SubsOf(lines[1..])
  }

  function BeforeRelease(lines: seq<Numbered>): (r: seq<Numbered>)
    ensures |r| <= |lines|
  {
    if lines == [] || lines[0].line.Release? then [] else [lines[0]] + BeforeRelease(lines[1..])
  }

  function SectionFrom(heading: Line, body: seq<Numbered>): Section
    requires heading.Release?
  {
    Section(heading.heading, heading.title, BeforeSub(body), SubsOf(body))
  }

  function SectionsOf(lines: seq<Numbered>): seq<Section> {
    if lines == [] then []
    else if lines[0].line.Release? then [SectionFrom(lines[0].line, BeforeRelease(lines[1..]))] + SectionsOf(lines[1..])
    else SectionsOf(lines[1..])
  }

  function Parse(lines: seq<Numbered>): Document {
    Document(BeforeRelease(lines), SectionsOf(lines))
  }

  /** The lines of a file, numbered from 1. */
  function Number(lines: seq<Line>): seq<Numbered> {
    seq(|lines|, i requires 0 <= i < |lines| => Numbered(lines[i], i + 1))
  }

  lemma {:induction false} SubsSkip(lines: seq<Numbered>)
    ensures SubsOf(lines[|BeforeSub(lines)|..]) == SubsOf(lines)
    decreases |lines|
  {
    if lines != [] && !lines[0].line.Sub? {
      SubsSkip(lines[1..]);
      assert lines[|BeforeSub(lines)|..] == lines[1..][|BeforeSub(lines[1..])|..];
    }
  }

  lemma {:induction false} SectionsSkip(lines: seq<Numbered>)
    ensures SectionsOf(lines[|BeforeRelease(lines)|..]) == SectionsOf(lines)
    ensures |BeforeRelease(lines)| < |lines| ==> lines[|BeforeRelease(lines)|].line.Release?
    decreases |lines|
  {
    if lines != [] && !lines[0].line.Release? {
      SectionsSkip(lines[1..]);
      assert lines[|BeforeRelease(lines)|..] == lines[1..][|BeforeRelease(lines[1..])|..];
    }
  }

  lemma {:induction false} SubsEnd(lines: seq<Numbered>)
    ensures |BeforeSub(lines)| < |lines| ==> lines[|BeforeSub(lines)|].line.Sub?
    decreases |lines|
  {
    if lines != [] && !lines[0].line.Sub? { SubsEnd(lines[1..]); }
  }

  lemma {:induction false} BeforeSubIs(lines: seq<Numbered>)
    ensures BeforeSub(lines) == lines[..|BeforeSub(lines)|]
    decreases |lines|
  {
    if lines != [] && !lines[0].line.Sub? {
      BeforeSubIs(lines[1..]);
    }
  }

  method TakeBeforeSub(lines: seq<Numbered>, start: nat) returns (taken: seq<Numbered>, index: nat)
    requires start <= |lines|
    ensures taken == BeforeSub(lines[start..]) && index == start + |taken| && index <= |lines|
  {
    taken, index := [], start;
    ghost var size := |BeforeSub(lines[start..])|;
    while index < |lines| && !lines[index].line.Sub?
      invariant start <= index <= |lines| && taken == lines[start..index]
      invariant start + size == index + |BeforeSub(lines[index..])|
    {
      assert lines[index..][1..] == lines[index + 1..];
      taken := taken + [lines[index]];
      index := index + 1;
    }
    BeforeSubIs(lines[start..]);
  }

  lemma {:induction false} BeforeReleaseIs(lines: seq<Numbered>)
    ensures BeforeRelease(lines) == lines[..|BeforeRelease(lines)|]
    decreases |lines|
  {
    if lines != [] && !lines[0].line.Release? {
      BeforeReleaseIs(lines[1..]);
    }
  }

  method TakeBeforeRelease(lines: seq<Numbered>, start: nat) returns (taken: seq<Numbered>, index: nat)
    requires start <= |lines|
    ensures taken == BeforeRelease(lines[start..]) && index == start + |taken| && index <= |lines|
  {
    taken, index := [], start;
    ghost var size := |BeforeRelease(lines[start..])|;
    while index < |lines| && !lines[index].line.Release?
      invariant start <= index <= |lines| && taken == lines[start..index]
      invariant start + size == index + |BeforeRelease(lines[index..])|
    {
      assert lines[index..][1..] == lines[index + 1..];
      taken := taken + [lines[index]];
      index := index + 1;
    }
    BeforeReleaseIs(lines[start..]);
  }

  lemma {:induction false} SubsFrom(lines: seq<Numbered>, index: nat)
    requires index < |lines| && lines[index].line.Sub?
    ensures var next := index + 1 + |BeforeSub(lines[index + 1..])|;
            && next <= |lines| && (next < |lines| ==> lines[next].line.Sub?)
            && SubsOf(lines[index..]) ==
               [Subsection(lines[index].line.title, BeforeSub(lines[index + 1..]))] + SubsOf(lines[next..])
  {
    var body := BeforeSub(lines[index + 1..]);
    assert lines[index..][1..] == lines[index + 1..];
    SubsSkip(lines[index + 1..]);
    SubsEnd(lines[index + 1..]);
    assert lines[index + 1..][|body|..] == lines[index + 1 + |body|..];
  }

  lemma {:induction false} SubsTurn(lines: seq<Numbered>, index: nat, body: seq<Numbered>, next: nat, subs: seq<Subsection>, all: seq<Subsection>)
    requires index < |lines| && lines[index].line.Sub? && all == subs + SubsOf(lines[index..])
    requires body == BeforeSub(lines[index + 1..]) && next == index + 1 + |body|
    ensures next <= |lines| && (next < |lines| ==> lines[next].line.Sub?)
    ensures all == subs + [Subsection(lines[index].line.title, body)] + SubsOf(lines[next..])
  {
    SubsFrom(lines, index);
  }

  method ParseReleaseSection(heading: Line, body: seq<Numbered>) returns (s: Section)
    requires heading.Release?
    ensures s == SectionFrom(heading, body)
  {
    assert body[0..] == body;
    var leading, index := TakeBeforeSub(body, 0);
    SubsSkip(body);
    SubsEnd(body);
    var subs: seq<Subsection> := [];
    ghost var all := SubsOf(body);
    while index < |body|
      invariant index <= |body| && (index < |body| ==> body[index].line.Sub?)
      invariant all == subs + SubsOf(body[index..])
    {
      var lines, next := TakeBeforeSub(body, index + 1);
      SubsTurn(body, index, lines, next, subs, all);
      subs := subs + [Subsection(body[index].line.title, lines)];
      index := next;
    }
    assert body[|body|..] == [];
    s := Section(heading.heading, heading.title, leading, subs);
  }

  lemma {:induction false} SectionsFrom(lines: seq<Numbered>, index: nat)
    requires index < |lines| && lines[index].line.Release?
    ensures var next := index + 1 + |BeforeRelease(lines[index + 1..])|;
            && next <= |lines| && (next < |lines| ==> lines[next].line.Release?)
            && SectionsOf(lines[index..]) ==
               [SectionFrom(lines[index].line, BeforeRelease(lines[index + 1..]))] + SectionsOf(lines[next..])
  {
    var body := BeforeRelease(lines[index + 1..]);
    assert lines[index..][1..] == lines[index + 1..];
    SectionsSkip(lines[index + 1..]);
    assert lines[index + 1..][|body|..] == lines[index + 1 + |body|..];
  }

  lemma {:induction false} SectionsTurn(lines: seq<Numbered>, index: nat, body: seq<Numbered>, next: nat, sections: seq<Section>, all: seq<Section>)
    requires index < |lines| && lines[index].line.Release? && all == sections + SectionsOf(lines[index..])
    requires body == BeforeRelease(lines[index + 1..]) && next == index + 1 + |body|
    ensures next <= |lines| && (next < |lines| ==> lines[next].line.Release?)
    ensures all == sections + [SectionFrom(lines[index].line, body)] + SectionsOf(lines[next..])
  {
    SectionsFrom(lines, index);
  }

  method ParseChangelog(content: seq<Line>) returns (d: Document)
    ensures d == Parse(Number(content))
  {
    var lines := Number(content);
    assert lines[0..] == lines;
    var prefix, index := TakeBeforeRelease(lines, 0);
    SectionsSkip(lines);
    var sections: seq<Section> := [];
    ghost var all := SectionsOf(lines);
    while index < |lines|
      invariant index <= |lines| && (index < |lines| ==> lines[index].line.Release?)
      invariant all == sections + SectionsOf(lines[index..])
    {
      var body, next := TakeBeforeRelease(lines, index + 1);
      SectionsTurn(lines, index, body, next, sections, all);
      var section := ParseReleaseSection(lines[index].line, body);
      sections := sections + [section];
      index := next;
    }
    assert lines[|lines|..] == [];
    d := Document(prefix, sections);
  }

  // ----- What a file says, spacing aside -----

  datatype SubText = SubText(title: string, lines: seq<Line>)

  datatype SectionText = SectionText(heading: string, title: string, leading: seq<Line>, subs: seq<SubText>)

  datatype Outline = Outline(prefix: seq<Line>, sections: seq<SectionText>)

  function SubTexts(subs: seq<Subsection>): seq<SubText> {
    if subs == [] then []
    else
      var lines := TrimBlank(Texts(subs[0].lines));
      if lines == [] then SubTexts(subs[1..]) else [SubText(subs[0].title, lines)] + SubTexts(subs[1..])
  }

  function TextOf(s: Section): SectionText {
    SectionText(s.heading, s.title, TrimBlank(Texts(s.leading)), SubTexts(s.subs))
  }

  function SectionTexts(sections: seq<Section>): seq<SectionText> {
    if sections == [] then [] else [TextOf(sections[0])] + SectionTexts(sections[1..])
  }

  /** A document without line numbers, outer blank lines and empty subsections. */
  function OutlineOf(d: Document): Outline {
    Outline(TrimBlank(Texts(d.prefix)), SectionTexts(d.sections))
  }

  // ----- Printing -----

  function PrintSubs(subs: seq<SubText>): seq<Line> {
    if subs == [] then [] else [EMPTY, Heading(subs[0].title), EMPTY] + subs[0].lines + PrintSubs(subs[1..])
  }

  function PrintSection(s: SectionText): seq<Line> {
    [Release(s.heading, s.title)] + (if s.leading == [] then [] else [EMPTY] + s.leading) + PrintSubs(s.subs) + [EMPTY]
  }

  function PrintSections(sections: seq<SectionText>): seq<Line> {
    if sections == [] then [] else PrintSection(sections[0]) + PrintSections(sections[1..])
  }

  function PopEmpty(lines: seq<Line>): seq<Line> {
    if lines != [] && lines[|lines| - 1] == EMPTY then PopEmpty(lines[..|lines| - 1]) else lines
  }

  /** The lines of the printed file; a file of nothing but a line break has one empty line. */
  function Print(o: Outline): seq<Line> {
    var out := PopEmpty((if o.prefix == [] then [] else o.prefix + [EMPTY]) + PrintSections(o.sections));
    if out == [] then [EMPTY] else out
  }

  function Render(d: Document): seq<Line> {
    Print(OutlineOf(d))
  }

  lemma {:induction false} PrintSubsEnd(subs: seq<SubText>, more: seq<SubText>)
    ensures PrintSubs(subs + more) == PrintSubs(subs) + PrintSubs(more)
    decreases |subs|
  {
    if subs == [] {
      assert subs + more == more;
    } else {
      assert (subs + more)[1..] == subs[1..] + more;
      PrintSubsEnd(subs[1..], more);
    }
  }

  lemma {:induction false} SubsPrintFrom(subs: seq<Subsection>, i: nat, lines: seq<Line>)
    requires i < |subs| && lines == TrimBlank(Texts(subs[i].lines))
    ensures PrintSubs(SubTexts(subs[i..])) ==
            (if lines == [] then [] else [EMPTY, Heading(subs[i].title), EMPTY] + lines) + PrintSubs(SubTexts(subs[i + 1..]))
  {
    assert subs[i..][1..] == subs[i + 1..];
    var rest := SubTexts(subs[i + 1..]);
    if lines != [] {
      assert ([SubText(subs[i].title, lines)] + rest)[1..] == rest;
    } else {
      assert [] + PrintSubs(rest) == PrintSubs(rest);
    }
  }

  lemma {:induction false} SubsPrintTurn(subs: seq<Subsection>, i: nat, lines: seq<Line>, out: seq<Line>, next: seq<Line>, all: seq<Line>)
    requires i < |subs| && lines == TrimBlank(Texts(subs[i].lines))
    requires all == out + PrintSubs(SubTexts(subs[i..]))
    requires next == if lines == [] then out else out + ([EMPTY, Heading(subs[i].title), EMPTY] + lines)
    ensures all == next + PrintSubs(SubTexts(subs[i + 1..]))
  {
    SubsPrintFrom(subs, i, lines);
  }

  method RenderSubs(subs: seq<Subsection>) returns (out: seq<Line>)
    ensures out == PrintSubs(SubTexts(subs))
  {
    out := [];
    var i := 0;
    ghost var all := PrintSubs(SubTexts(subs));
    assert subs[0..] == subs;
    while i < |subs|
      invariant i <= |subs| && all == out + PrintSubs(SubTexts(subs[i..]))
    {
      var lines := TrimBlankLines(Texts(subs[i].lines));
      ghost var before := out;
      if lines != [] {
        out := out + ([EMPTY, Heading(subs[i].title), EMPTY] + lines);
      }
      SubsPrintTurn(subs, i, lines, before, out, all);
      i := i + 1;
    }
    assert subs[|subs|..] == [];
  }

  method RenderSection(s: Section) returns (out: seq<Line>)
    ensures out == PrintSection(TextOf(s))
  {
    out := [Release(s.heading, s.title)];
    var leading := TrimBlankLines(Texts(s.leading));
    if leading != [] {
      out := out + ([EMPTY] + leading);
    } else {
      assert out == out + [];
    }
    var subs := RenderSubs(s.subs);
    out := out + subs + [EMPTY];
  }

  method RenderChangelog(d: Document) returns (out: seq<Line>)
    ensures out == Render(d)
  {
    out := [];
    var prefix := TrimBlankLines(Texts(d.prefix));
    if prefix != [] { out := prefix + [EMPTY]; }
    ghost var top := out;
    ghost var all := PrintSections(SectionTexts(d.sections));
    var i := 0;
    assert d.sections[0..] == d.sections;
    while i < |d.sections|
      invariant i <= |d.sections| && top + all == out + PrintSections(SectionTexts(d.sections[i..]))
    {
      var s := RenderSection(d.sections[i]);
      SectionsPrintTurn(d.sections, i, s, out, top + all);
      out := out + s;
      i := i + 1;
    }
    assert d.sections[|d.sections|..] == [];
    assert out == top + all;
    while |out| > 0 && out[|out| - 1] == EMPTY
      invariant PopEmpty(out) == PopEmpty(top + all)
    {
      out := out[..|out| - 1];
    }
    if out == [] { out := [EMPTY]; }
  }

  lemma {:induction false} SectionsPrintTurn(sections: seq<Section>, i: nat, s: seq<Line>, out: seq<Line>, all: seq<Line>)
    requires i < |sections| && s == PrintSection(TextOf(sections[i]))
    requires all == out + PrintSections(SectionTexts(sections[i..]))
    ensures all == out + s + PrintSections(SectionTexts(sections[i + 1..]))
  {
    assert sections[i..][1..] == sections[i + 1..];
    var rest := SectionTexts(sections[i + 1..]);
    assert ([TextOf(sections[i])] + rest)[1..] == rest;
  }
}
