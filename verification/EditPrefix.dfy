/**
 Recognising how much of an edit input is a complete sequence of edit sections. A line is what
 the patterns say about it, and its length with the line break; the text is its lines.
 */
module EditPrefix {
  import opened Wrappers

  datatype Format = Hashline | Legacy | Codex

  datatype RangeOp = Replace(inline: bool) | Delete

  /** What each pattern makes of a line; `mark` and `sigil` tell how it begins. */
  datatype Line = Line(
    length: nat,
    blank: bool,
    begin: bool,
    end: bool,
    header: Option<Format>,
    insert: Option<bool>,
    range: Option<RangeOp>,
    mark: bool,
    sigil: bool,
    oldInsert: bool,
    oldReplace: bool)

  /** The loop's variables; `done` counts the lines up to the boundary, `end` their characters. */
  datatype State = State(
    sections: nat,
    format: Format,
    done: nat,
    end: nat,
    needsPayload: bool,
    payloadAllowed: bool,
    sawPayload: bool,
    seenContent: bool)

  const START := State(0, Hashline, 0, 0, false, false, false, false)

  predicate Dangling(s: State) {
    s.needsPayload && !s.sawPayload
  }

  /** One line, `n` lines and `at` characters in; nothing when the line does not belong to an edit. */
  function Step(s: State, l: Line, n: nat, at: nat): Option<State> {
    var past := s.(done := n + 1, end := at + l.length);
    if !s.seenContent && l.blank then Some(past)
    else
      var seen, moved := s.(seenContent := true), past.(seenContent := true);
      if l.begin || l.end then
        if Dangling(s) then None else Some(moved.(payloadAllowed := false))
      else if l.header.Some? then
        if Dangling(s) then None
        else Some(moved.(sections := s.sections + 1, format := l.header.value,
                         needsPayload := false, payloadAllowed := false, sawPayload := false))
      else if s.sections == 0 then None
      else if s.format == Hashline then HashlineStep(s, moved, l)
      else LegacyStep(s, seen, moved, l)
  }

  function HashlineStep(s: State, moved: State, l: Line): Option<State> {
    if s.payloadAllowed && !l.mark && l.insert.None? && l.range.None? then Some(moved)
    else if l.blank then Some(moved.(payloadAllowed := false))
    else if l.insert.Some? then Some(moved.(payloadAllowed := true))
    else if l.range.Some? then Some(moved.(payloadAllowed := l.range.value.Replace?))
    else None
  }

  function LegacyStep(s: State, seen: State, moved: State, l: Line): Option<State> {
    if s.payloadAllowed && !l.sigil then Some(moved.(needsPayload := false, sawPayload := true))
    else if Dangling(s) then None
    else if l.blank then Some(moved.(payloadAllowed := false, needsPayload := false, sawPayload := false))
    else if l.oldInsert then Some(seen.(needsPayload := true, payloadAllowed := true, sawPayload := false))
    else if l.oldReplace then Some(moved.(needsPayload := false, payloadAllowed := true, sawPayload := false))
    else None
  }

  function Length(lines: seq<Line>): nat {
    if lines == [] then 0 else Length(lines[..|lines| - 1]) + lines[|lines| - 1].length
  }

  /** The loop: `stopped` once a line did not belong. */
  datatype Scan = Scan(state: State, stopped: bool)

  function Parse(lines: seq<Line>): (r: Scan)
    ensures r.state.done <= |lines|
  {
    if lines == [] then Scan(START, false)
    else
      var init := lines[..|lines| - 1];
      var before := Parse(init);
      if before.stopped then before
      else
        var next := Step(before.state, lines[|lines| - 1], |init|, Length(init));
        if next.None? then Scan(before.state.(seenContent := true), true) else Scan(next.value, false)
  }

  datatype Boundary = Boundary(ok: bool, parsedEnd: nat, missingPayload: bool)

  function BoundaryOf(s: State): Boundary {
    Boundary(s.end > 0 && s.sections > 0, s.end, Dangling(s))
  }

  lemma {:induction false} ParseNext(lines: seq<Line>, n: nat)
    requires n < |lines| && !Parse(lines[..n]).stopped
    ensures var next := Step(Parse(lines[..n]).state, lines[n], n, Length(lines[..n]));
            Parse(lines[..n + 1]) == if next.None? then Scan(Parse(lines[..n]).state.(seenContent := true), true) else Scan(next.value, false)
    ensures Length(lines[..n + 1]) == Length(lines[..n]) + lines[n].length
  {
    assert lines[..n + 1][..n] == lines[..n];
  }

  /** The line loop over its own variables. */
  method ParseEditBoundary(lines: seq<Line>) returns (b: Boundary)
    ensures b == BoundaryOf(Parse(lines).state)
  {
    var s := START;
    var n, at := 0, 0;
    var stopped := false;
    while n < |lines| && !stopped
      invariant n <= |lines| && at == Length(lines[..n]) && Parse(lines[..n]) == Scan(s, stopped)
      decreases |lines| - n, if stopped then 0 else 1
    {
      ParseNext(lines, n);
      var next := Step(s, lines[n], n, at);
      if next.None? {
        s := s.(seenContent := true);
        stopped := true;
      } else {
        s := next.value;
      }
      at := at + lines[n].length;
      n := n + 1;
    }
    if stopped { StoppedStays(lines, n); }
    assert lines[..|lines|] == lines;
    b := BoundaryOf(s);
  }

  lemma {:induction false} StoppedStays(lines: seq<Line>, n: nat)
    requires n <= |lines| && Parse(lines[..n]).stopped
    ensures Parse(lines) == Parse(lines[..n])
    decreases |lines|
  {
    if n == |lines| {
      assert lines[..n] == lines;
    } else {
      var init := lines[..|lines| - 1];
      assert init[..n] == lines[..n];
      StoppedStays(init, n);
    }
  }

  // ----- Stability -----

  /** A bare insert is open only in a section of the old format. */
  predicate Tracked(s: State) {
    Dangling(s) ==> s.seenContent && s.sections > 0 && s.format != Hashline
  }

  /** A step moves the boundary to the end of its line, or leaves it; never past a bare insert. */
  lemma {:induction false} StepMoves(s: State, l: Line, n: nat, at: nat)
    requires Tracked(s) && Step(s, l, n, at).Some?
    ensures var next := Step(s, l, n, at).value;
            && Tracked(next)
            && ((next.done == n + 1 && next.end == at + l.length && !Dangling(next))
                || (next.done == s.done && next.end == s.end && next.sections == s.sections))
  {
  }

  /** What the last line did to the scan. */
  lemma {:induction false} LastLine(lines: seq<Line>)
    requires lines != [] && Tracked(Parse(lines[..|lines| - 1]).state)
    ensures var before, after := Parse(lines[..|lines| - 1]), Parse(lines);
            && Tracked(after.state)
            && ((!after.stopped && after.state.done == |lines| && after.state.end == Length(lines) && !Dangling(after.state))
                || (after.state.done == before.state.done && after.state.end == before.state.end
                    && after.state.sections == before.state.sections))
  {
    var init := lines[..|lines| - 1];
    var before := Parse(init);
    if !before.stopped && Step(before.state, lines[|lines| - 1], |init|, Length(init)).Some? {
      StepMoves(before.state, lines[|lines| - 1], |init|, Length(init));
    }
  }

  /** The boundary counts the characters of the lines before it. */
  lemma {:induction false} ParseSound(lines: seq<Line>)
    ensures Tracked(Parse(lines).state) && Parse(lines).state.end == Length(lines[..Parse(lines).state.done])
    decreases |lines|
  {
    if lines != [] {
      var init := lines[..|lines| - 1];
      ParseSound(init);
      LastLine(lines);
      var d := Parse(init).state.done;
      assert lines[..d] == init[..d];
      assert lines[..|lines|] == lines;
    }
  }

  /** Parsing the recognised prefix again recognises all of it. */
  lemma {:induction false} PrefixIsStable(lines: seq<Line>)
    ensures var s, again := Parse(lines).state, Parse(lines[..Parse(lines).state.done]);
            && again.state.done == s.done && again.state.end == s.end && !again.stopped
            && again.state.sections == s.sections && !Dangling(again.state)
    decreases |lines|
  {
    var s := Parse(lines).state;
    if lines == [] {
      assert lines[..0] == lines;
    } else {
      var init := lines[..|lines| - 1];
      ParseSound(init);
      LastLine(lines);
      if !Parse(lines).stopped && s.done == |lines| && !Dangling(s) {
        assert lines[..|lines|] == lines;
      } else {
        PrefixIsStable(init);
        assert init[..s.done] == lines[..s.done];
      }
    }
  }

  lemma {:induction false} OneMoreKeeps(lines: seq<Line>)
    requires lines != []
    ensures Parse(lines).state.done >= Parse(lines[..|lines| - 1]).state.done
    ensures Parse(lines).state.end >= Parse(lines[..|lines| - 1]).state.end
  {
    var init := lines[..|lines| - 1];
    ParseSound(init);
    LastLine(lines);
    LengthGrows(init, Parse(init).state.done);
  }

  /** More lines never move the boundary back. */
  lemma {:induction false} AppendingKeeps(lines: seq<Line>, more: seq<Line>)
    ensures Parse(lines + more).state.done >= Parse(lines).state.done
    ensures Parse(lines + more).state.end >= Parse(lines).state.end
    decreases |more|
  {
    if more == [] {
      assert lines + more == lines;
    } else {
      var all := lines + more;
      assert all[..|all| - 1] == lines + more[..|more| - 1];
      AppendingKeeps(lines, more[..|more| - 1]);
      OneMoreKeeps(all);
    }
  }

  lemma {:induction false} LengthGrows(lines: seq<Line>, n: nat)
    requires n <= |lines|
    ensures Length(lines[..n]) <= Length(lines)
    decreases |lines|
  {
    if n < |lines| {
      var init := lines[..|lines| - 1];
      assert init[..n] == lines[..n];
      LengthGrows(init, n);
    } else {
      assert lines[..n] == lines;
    }
  }

  /** A text is a complete edit when the recogniser takes all of it. */
  predicate CompleteEdit(lines: seq<Line>) {
    Parse(lines).state.done == |lines|
  }

  /** The boundary is the end of the longest prefix of whole lines that is a complete edit. */
  lemma {:induction false} LongestCompletePrefix(lines: seq<Line>, n: nat)
    requires n <= |lines|
    ensures CompleteEdit(lines[..Parse(lines).state.done])
    ensures CompleteEdit(lines[..n]) ==> n <= Parse(lines).state.done
  {
    PrefixIsStable(lines);
    var head, tail := lines[..n], lines[n..];
    assert head + tail == lines;
    AppendingKeeps(head, tail);
  }

  // ----- What is done about a contaminated call -----

  datatype Action = Allow | SanitizeTail | AbortReplay

  function ActionFor(isEdit: bool, signals: seq<nat>, boundary: Option<Boundary>): Action {
    if signals == [] then Allow
    else if isEdit && boundary.Some? && boundary.value.ok then
      if forall i :: 0 <= i < |signals| ==> signals[i] >= boundary.value.parsedEnd then SanitizeTail else AbortReplay
    else AbortReplay
  }

  /** Signals that start within the first `end` characters. */
  function Before(signals: seq<nat>, end: nat): seq<nat> {
    if signals == [] then []
    else if signals[0] < end then [signals[0]] + Before(signals[1..], end)
    else Before(signals[1..], end)
  }

  lemma {:induction false} NoneBefore(signals: seq<nat>, end: nat)
    ensures Before(signals, end) == [] <==> forall i :: 0 <= i < |signals| ==> signals[i] >= end
    decreases |signals|
  {
    if signals != [] { NoneBefore(signals[1..], end); }
  }

  /** What is left after the cut is a complete edit of the same length, with nothing found in it. */
  lemma {:induction false} SanitizedIsClean(lines: seq<Line>, signals: seq<nat>)
    requires ActionFor(true, signals, Some(BoundaryOf(Parse(lines).state))) == SanitizeTail
    ensures var cut := lines[..Parse(lines).state.done];
            var b := BoundaryOf(Parse(cut).state);
            && CompleteEdit(cut) && b == Boundary(true, Length(cut), false)
            && b.parsedEnd == BoundaryOf(Parse(lines).state).parsedEnd
            && ActionFor(true, Before(signals, Length(cut)), Some(b)) == Allow
  {
    PrefixIsStable(lines);
    ParseSound(lines);
    NoneBefore(signals, Parse(lines).state.end);
  }
}
