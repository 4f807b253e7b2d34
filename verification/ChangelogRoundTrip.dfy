/** Printing and parsing a changelog undo each other up to blank lines at the ends of each part. */
module ChangelogRoundTrip {
  import opened ChangelogText
  import opened ChangelogDocument

  // ----- Reading without line numbers -----

  function LeadSub(lines: seq<Line>): seq<Line> {
    if lines == [] || lines[0].Sub? then [] else [lines[0]] + LeadSub(lines[1..])
  }

  function ReadSubs(lines: seq<Line>): seq<SubText> {
    if lines == [] then []
    else if !lines[0].Sub? then ReadSubs(lines[1..])
    else
      var body := TrimBlank(LeadSub(lines[1..]));
      if body == [] then ReadSubs(lines[1..]) else [SubText(lines[0].title, body)] + ReadSubs(lines[1..])
  }

  function LeadRelease(lines: seq<Line>): seq<Line> {
    if lines == [] || lines[0].Release? then [] else [lines[0]] + LeadRelease(lines[1..])
  }

  function ReadSection(heading: Line, body: seq<Line>): SectionText
    requires heading.Release?
  {
    SectionText(heading.heading, heading.title, TrimBlank(LeadSub(body)), ReadSubs(body))
  }

  function ReadSections(lines: seq<Line>): seq<SectionText> {
    if lines == [] then []
    else if lines[0].Release? then [ReadSection(lines[0], LeadRelease(lines[1..]))] + ReadSections(lines[1..])
    else ReadSections(lines[1..])
  }

  function Read(lines: seq<Line>): Outline {
    Outline(TrimBlank(LeadRelease(lines)), ReadSections(lines))
  }

  lemma {:induction false} LeadSubErase(lines: seq<Numbered>)
    ensures Texts(BeforeSub(lines)) == LeadSub(Texts(lines))
    decreases |lines|
  {
    if lines != [] {
      assert Texts(lines)[1..] == Texts(lines[1..]);
      LeadSubErase(lines[1..]);
    }
  }

  lemma {:induction false} SubsErase(lines: seq<Numbered>)
    ensures SubTexts(SubsOf(lines)) == ReadSubs(Texts(lines))
    decreases |lines|
  {
    if lines != [] {
      assert Texts(lines)[1..] == Texts(lines[1..]);
      SubsErase(lines[1..]);
      LeadSubErase(lines[1..]);
      if lines[0].line.Sub? {
        var first := Subsection(lines[0].line.title, BeforeSub(lines[1..]));
        assert ([first] + SubsOf(lines[1..]))[1..] == SubsOf(lines[1..]);
      }
    }
  }

  lemma {:induction false} LeadReleaseErase(lines: seq<Numbered>)
    ensures Texts(BeforeRelease(lines)) == LeadRelease(Texts(lines))
    decreases |lines|
  {
    if lines != [] {
      assert Texts(lines)[1..] == Texts(lines[1..]);
      LeadReleaseErase(lines[1..]);
    }
  }

  lemma {:induction false} SectionsErase(lines: seq<Numbered>)
    ensures SectionTexts(SectionsOf(lines)) == ReadSections(Texts(lines))
    decreases |lines|
  {
    if lines != [] {
      assert Texts(lines)[1..] == Texts(lines[1..]);
      SectionsErase(lines[1..]);
      if lines[0].line.Release? {
        var body := BeforeRelease(lines[1..]);
        LeadReleaseErase(lines[1..]);
        LeadSubErase(body);
        SubsErase(body);
        var first := SectionFrom(lines[0].line, body);
        assert ([first] + SectionsOf(lines[1..]))[1..] == SectionsOf(lines[1..]);
      }
    }
  }

  /** Line numbers do not change what is read. */
  lemma {:induction false} ParseReads(lines: seq<Numbered>)
    ensures OutlineOf(Parse(lines)) == Read(Texts(lines))
  {
    LeadReleaseErase(lines);
    SectionsErase(lines);
  }

  // ----- A blank line at the end -----

  /** The run itself, or the run with one more blank line. */
  predicate Longer(a: seq<Line>, b: seq<Line>) {
    b == a || b == a + [EMPTY]
  }

  lemma {:induction false} LeadSubLonger(lines: seq<Line>)
    ensures Longer(LeadSub(lines), LeadSub(lines + [EMPTY]))
    decreases |lines|
  {
    if lines != [] && !lines[0].Sub? {
      assert (lines + [EMPTY])[1..] == lines[1..] + [EMPTY];
      LeadSubLonger(lines[1..]);
    }
  }

  lemma {:induction false} TrimLonger(a: seq<Line>, b: seq<Line>)
    requires Longer(a, b)
    ensures TrimBlank(a) == TrimBlank(b)
  {
    TrimAround([], a, [EMPTY]);
    assert [] + a + [EMPTY] == a + [EMPTY];
  }

  lemma {:induction false} ReadSubsLonger(a: seq<Line>, b: seq<Line>)
    requires Longer(a, b)
    ensures ReadSubs(a) == ReadSubs(b)
    decreases |a|
  {
    if b != a && a != [] {
      assert b[1..] == a[1..] + [EMPTY];
      ReadSubsLonger(a[1..], b[1..]);
      LeadSubLonger(a[1..]);
      TrimLonger(LeadSub(a[1..]), LeadSub(b[1..]));
    }
  }

  lemma {:induction false} LeadReleaseLonger(lines: seq<Line>)
    ensures Longer(LeadRelease(lines), LeadRelease(lines + [EMPTY]))
    decreases |lines|
  {
    if lines != [] && !lines[0].Release? {
      assert (lines + [EMPTY])[1..] == lines[1..] + [EMPTY];
      LeadReleaseLonger(lines[1..]);
    }
  }

  lemma {:induction false} ReadSectionsLonger(lines: seq<Line>)
    ensures ReadSections(lines + [EMPTY]) == ReadSections(lines)
    decreases |lines|
  {
    if lines != [] {
      assert (lines + [EMPTY])[1..] == lines[1..] + [EMPTY];
      ReadSectionsLonger(lines[1..]);
      LeadReleaseLonger(lines[1..]);
      var a, b := LeadRelease(lines[1..]), LeadRelease(lines[1..] + [EMPTY]);
      ReadSubsLonger(a, b);
      if b != a { LeadSubLonger(a); }
      TrimLonger(LeadSub(a), LeadSub(b));
    }
  }

  lemma {:induction false} ReadLonger(lines: seq<Line>)
    ensures Read(lines + [EMPTY]) == Read(lines)
  {
    LeadReleaseLonger(lines);
    TrimLonger(LeadRelease(lines), LeadRelease(lines + [EMPTY]));
    ReadSectionsLonger(lines);
  }

  lemma {:induction false} ReadPopped(lines: seq<Line>)
    ensures Read(PopEmpty(lines)) == Read(lines)
    decreases |lines|
  {
    if lines != [] && lines[|lines| - 1] == EMPTY {
      var init := lines[..|lines| - 1];
      assert lines == init + [EMPTY];
      ReadPopped(init);
      ReadLonger(init);
    }
  }

  // ----- Reading what was printed -----

  predicate NoRelease(lines: seq<Line>) {
    forall i :: 0 <= i < |lines| ==> !lines[i].Release?
  }

  predicate NoSub(lines: seq<Line>) {
    forall i :: 0 <= i < |lines| ==> !lines[i].Sub?
  }

  predicate TidySub(s: SubText) {
    s.lines != [] && Trimmed(s.lines) && NoRelease(s.lines) && NoSub(s.lines)
  }

  predicate TidySection(s: SectionText) {
    && Trimmed(s.leading) && NoRelease(s.leading) && NoSub(s.leading)
    && forall i :: 0 <= i < |s.subs| ==> TidySub(s.subs[i])
  }

  /** What the parser can produce: trimmed parts without headings in them. */
  predicate Tidy(o: Outline) {
    && Trimmed(o.prefix) && NoRelease(o.prefix)
    && forall i :: 0 <= i < |o.sections| ==> TidySection(o.sections[i])
  }

  predicate AtSub(lines: seq<Line>) {
    lines == [] || lines[0].Sub?
  }

  predicate AtRelease(lines: seq<Line>) {
    lines == [] || lines[0].Release?
  }

  lemma {:induction false} SubFollows(pre: seq<Line>, rest: seq<Line>)
    requires NoSub(pre) && AtSub(rest)
    ensures LeadSub(pre + rest) == pre && ReadSubs(pre + rest) == ReadSubs(rest)
    decreases |pre|
  {
    if pre == [] {
      assert pre + rest == rest;
    } else {
      assert (pre + rest)[1..] == pre[1..] + rest;
      SubFollows(pre[1..], rest);
    }
  }

  lemma {:induction false} ReleaseFollows(pre: seq<Line>, rest: seq<Line>)
    requires NoRelease(pre) && AtRelease(rest)
    ensures LeadRelease(pre + rest) == pre && ReadSections(pre + rest) == ReadSections(rest)
    decreases |pre|
  {
    if pre == [] {
      assert pre + rest == rest;
    } else {
      assert (pre + rest)[1..] == pre[1..] + rest;
      ReleaseFollows(pre[1..], rest);
    }
  }

  /** The subsections of a section from the first heading on, with the closing blank line. */
  function SubTail(subs: seq<SubText>): seq<Line> {
    if subs == [] then [] else [Heading(subs[0].title)] + ([EMPTY] + subs[0].lines + [EMPTY]) + SubTail(subs[1..])
  }

  lemma {:induction false} PrintSubsIsTail(subs: seq<SubText>)
    ensures PrintSubs(subs) + [EMPTY] == [EMPTY] + SubTail(subs)
    decreases |subs|
  {
    if subs != [] {
      PrintSubsIsTail(subs[1..]);
      var first := [EMPTY, Heading(subs[0].title), EMPTY] + subs[0].lines;
      assert PrintSubs(subs) + [EMPTY] == first + (PrintSubs(subs[1..]) + [EMPTY]);
      assert first + ([EMPTY] + SubTail(subs[1..])) ==
             [EMPTY] + ([Heading(subs[0].title)] + ([EMPTY] + subs[0].lines + [EMPTY]) + SubTail(subs[1..]));
    }
  }

  lemma {:induction false} ReadOneSub(s: SubText, rest: seq<Line>)
    requires TidySub(s) && AtSub(rest)
    ensures ReadSubs([Heading(s.title)] + ([EMPTY] + s.lines + [EMPTY]) + rest) == [s] + ReadSubs(rest)
  {
    var body := [EMPTY] + s.lines + [EMPTY];
    SubFollows(body, rest);
    TrimAround([EMPTY], s.lines, [EMPTY]);
    TrimTrimmed(s.lines);
    assert ([Heading(s.title)] + body + rest)[1..] == body + rest;
  }

  lemma {:induction false} ReadSubTail(subs: seq<SubText>)
    requires forall i :: 0 <= i < |subs| ==> TidySub(subs[i])
    ensures ReadSubs(SubTail(subs)) == subs && AtSub(SubTail(subs))
    decreases |subs|
  {
    if subs != [] {
      ReadSubTail(subs[1..]);
      ReadOneSub(subs[0], SubTail(subs[1..]));
    }
  }

  lemma {:induction false} SubTailPlain(subs: seq<SubText>)
    requires forall i :: 0 <= i < |subs| ==> TidySub(subs[i])
    ensures NoRelease(SubTail(subs))
    decreases |subs|
  {
    if subs != [] { SubTailPlain(subs[1..]); }
  }

  function SectionBody(s: SectionText): seq<Line> {
    (if s.leading == [] then [] else [EMPTY] + s.leading) + [EMPTY] + SubTail(s.subs)
  }

  lemma {:induction false} SectionPrints(s: SectionText)
    ensures PrintSection(s) == [Release(s.heading, s.title)] + SectionBody(s)
  {
    PrintSubsIsTail(s.subs);
    var top := if s.leading == [] then [] else [EMPTY] + s.leading;
    assert PrintSection(s) == [Release(s.heading, s.title)] + top + (PrintSubs(s.subs) + [EMPTY]);
  }

  lemma {:induction false} ReadSectionBody(s: SectionText)
    requires TidySection(s)
    ensures ReadSection(Release(s.heading, s.title), SectionBody(s)) == s && NoRelease(SectionBody(s))
  {
    ReadSubTail(s.subs);
    SubTailPlain(s.subs);
    var pre := (if s.leading == [] then [] else [EMPTY] + s.leading) + [EMPTY];
    SubFollows(pre, SubTail(s.subs));
    TrimTrimmed(s.leading);
    if s.leading == [] {
      TrimAround([], [], [EMPTY]);
      assert pre == [] + [] + [EMPTY];
    } else {
      TrimAround([EMPTY], s.leading, [EMPTY]);
    }
  }

  lemma {:induction false} ReadOneSection(s: SectionText, rest: seq<Line>)
    requires TidySection(s) && AtRelease(rest)
    ensures ReadSections(PrintSection(s) + rest) == [s] + ReadSections(rest)
  {
    SectionPrints(s);
    ReadSectionBody(s);
    ReleaseFollows(SectionBody(s), rest);
    assert (PrintSection(s) + rest)[1..] == SectionBody(s) + rest;
  }

  lemma {:induction false} ReadPrintedSections(sections: seq<SectionText>)
    requires forall i :: 0 <= i < |sections| ==> TidySection(sections[i])
    ensures ReadSections(PrintSections(sections)) == sections && AtRelease(PrintSections(sections))
    decreases |sections|
  {
    if sections != [] {
      ReadPrintedSections(sections[1..]);
      ReadOneSection(sections[0], PrintSections(sections[1..]));
    }
  }

  /** The parser reads back every tidy outline from what the printer makes of it. */
  lemma {:induction false} ReadPrinted(o: Outline)
    requires Tidy(o)
    ensures Read(Print(o)) == o
  {
    var pre := if o.prefix == [] then [] else o.prefix + [EMPTY];
    var rest := PrintSections(o.sections);
    ReadPrintedSections(o.sections);
    ReleaseFollows(pre, rest);
    TrimTrimmed(o.prefix);
    if o.prefix != [] {
      TrimAround([], o.prefix, [EMPTY]);
      assert [] + o.prefix + [EMPTY] == pre;
    }
    ReadPopped(pre + rest);
    if PopEmpty(pre + rest) == [] {
      ReadLonger([]);
      assert [] + [EMPTY] == [EMPTY];
    }
  }

  // ----- Parsed files are tidy -----

  lemma {:induction false} LeadSubTidy(lines: seq<Line>)
    ensures NoSub(LeadSub(lines)) && (NoRelease(lines) ==> NoRelease(LeadSub(lines)))
    decreases |lines|
  {
    if lines != [] && !lines[0].Sub? { LeadSubTidy(lines[1..]); }
  }

  lemma {:induction false} TrimTidy(lines: seq<Line>)
    ensures Trimmed(TrimBlank(lines))
    ensures NoSub(lines) ==> NoSub(TrimBlank(lines))
    ensures NoRelease(lines) ==> NoRelease(TrimBlank(lines))
  {
    var lo, hi := TrimBlankIs(lines);
  }

  lemma {:induction false} ReadSubsTidy(lines: seq<Line>)
    requires NoRelease(lines)
    ensures forall i :: 0 <= i < |ReadSubs(lines)| ==> TidySub(ReadSubs(lines)[i])
    decreases |lines|
  {
    if lines != [] {
      ReadSubsTidy(lines[1..]);
      LeadSubTidy(lines[1..]);
      TrimTidy(LeadSub(lines[1..]));
    }
  }

  lemma {:induction false} LeadReleaseTidy(lines: seq<Line>)
    ensures NoRelease(LeadRelease(lines))
    decreases |lines|
  {
    if lines != [] && !lines[0].Release? { LeadReleaseTidy(lines[1..]); }
  }

  lemma {:induction false} ReadSectionsTidy(lines: seq<Line>)
    ensures forall i :: 0 <= i < |ReadSections(lines)| ==> TidySection(ReadSections(lines)[i])
    decreases |lines|
  {
    if lines != [] {
      ReadSectionsTidy(lines[1..]);
      var body := LeadRelease(lines[1..]);
      LeadReleaseTidy(lines[1..]);
      LeadSubTidy(body);
      TrimTidy(LeadSub(body));
      ReadSubsTidy(body);
    }
  }

  lemma {:induction false} ReadTidy(lines: seq<Line>)
    ensures Tidy(Read(lines))
  {
    LeadReleaseTidy(lines);
    TrimTidy(LeadRelease(lines));
    ReadSectionsTidy(lines);
  }

  /** Printing a parsed file loses nothing but blank lines, and printing it again changes nothing. */
  lemma {:induction false} ParseRenderParse(content: seq<Line>)
    ensures OutlineOf(Parse(Number(Render(Parse(Number(content)))))) == OutlineOf(Parse(Number(content)))
    ensures Render(Parse(Number(Render(Parse(Number(content)))))) == Render(Parse(Number(content)))
  {
    ParseReads(Number(content));
    assert Texts(Number(content)) == content;
    ReadTidy(content);
    ReadPrinted(Read(content));
    var printed := Render(Parse(Number(content)));
    ParseReads(Number(printed));
    assert Texts(Number(printed)) == printed;
  }
}
