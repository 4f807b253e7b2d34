/**
 What a complete edit is, line by line: which headers, operations and payload lines may stand
 where. The recogniser accepts exactly that.
 */
module EditGrammar {
  import opened Wrappers
  import opened EditPrefix

  predicate AllBlank(lines: seq<Line>) {
    forall k :: 0 <= k < |lines| ==> lines[k].blank
  }

  /** A line that begins or ends a patch. */
  predicate Marker(l: Line) {
    l.begin || l.end
  }

  /** A line with a format of its own below the blank lines a text may begin with. */
  predicate HeaderAfter(before: seq<Line>, l: Line) {
    !(AllBlank(before) && l.blank) && !Marker(l) && l.header.Some?
  }

  /** The last header of the lines. */
  function HeadOf(lines: seq<Line>): (h: Option<nat>)
    ensures h.Some? ==> h.value < |lines| && lines[h.value].header.Some?
  {
    if lines == [] then None
    else
      var n := |lines| - 1;
      if HeaderAfter(lines[..n], lines[n]) then Some(n) else HeadOf(lines[..n])
  }

  lemma {:induction false} HeadOfIs(lines: seq<Line>)
    ensures HeadOf(lines).Some? ==> HeaderAfter(lines[..HeadOf(lines).value], lines[HeadOf(lines).value])
    ensures forall k: nat :: (if HeadOf(lines).Some? then HeadOf(lines).value else -1) < k < |lines| ==> !HeaderAfter(lines[..k], lines[k])
    decreases |lines|
  {
    if lines != [] {
      var n := |lines| - 1;
      var init := lines[..n];
      HeadOfIs(init);
      forall k: nat | k < n ensures init[..k] == lines[..k] && init[k] == lines[k] {
      }
    }
  }

  // ----- Operations and their payload -----

  predicate HashlineOpens(l: Line) {
    !Marker(l) && !l.blank && (l.insert.Some? || (l.range.Some? && l.range.value.Replace?))
  }

  predicate HashlinePayload(l: Line) {
    !Marker(l) && l.header.None? && !l.mark && l.insert.None? && l.range.None?
  }

  predicate LegacyOpens(l: Line) {
    !Marker(l) && !l.blank && (l.oldInsert || l.oldReplace)
  }

  predicate LegacyPayload(l: Line) {
    !Marker(l) && l.header.None? && !l.sigil
  }

  /** Below header `h`, nothing but payload has followed some operation that takes payload. */
  predicate HashlineRun(lines: seq<Line>, h: nat) {
    exists j :: h < j < |lines| && HashlineOpens(lines[j]) && forall k :: j < k < |lines| ==> HashlinePayload(lines[k])
  }

  predicate LegacyRun(lines: seq<Line>, h: nat) {
    exists j :: h < j < |lines| && LegacyOpens(lines[j]) && forall k :: j < k < |lines| ==> LegacyPayload(lines[k])
  }

  /** A line of a section in the current format: an operation, payload of one, or blank. */
  predicate HashlineSits(before: seq<Line>, h: nat, l: Line) {
    l.blank || l.insert.Some? || l.range.Some? || (HashlineRun(before, h) && HashlinePayload(l))
  }

  /** A line of a section in an older format. */
  predicate LegacySits(before: seq<Line>, h: nat, l: Line) {
    l.blank || l.oldInsert || l.oldReplace || (LegacyRun(before, h) && LegacyPayload(l))
  }

  /** The lines a text begins with may be blank; then come markers, and sections below their headers. */
  predicate Sits(before: seq<Line>, l: Line) {
    || (AllBlank(before) && l.blank)
    || Marker(l)
    || l.header.Some?
    || (HeadOf(before).Some? &&
        var h := HeadOf(before).value;
        if before[h].header.value == Hashline then HashlineSits(before, h, l) else LegacySits(before, h, l))
  }

  /** An insert of an older format, which must have payload in the line below it. */
  predicate BareInsert(before: seq<Line>, l: Line) {
    && HeadOf(before).Some? && before[HeadOf(before).value].header.value != Hashline
    && !Marker(l) && l.header.None? && !l.blank && l.oldInsert
    && !(LegacyRun(before, HeadOf(before).value) && LegacyPayload(l))
  }

  predicate EndsBare(lines: seq<Line>) {
    lines != [] && BareInsert(lines[..|lines| - 1], lines[|lines| - 1])
  }

  predicate SitsAt(lines: seq<Line>, i: nat)
    requires i < |lines|
  {
    Sits(lines[..i], lines[i])
  }

  /** A bare insert has its payload in the line below. */
  predicate AnsweredAt(lines: seq<Line>, i: nat)
    requires i < |lines|
  {
    BareInsert(lines[..i], lines[i]) ==> i + 1 < |lines| && LegacyPayload(lines[i + 1])
  }

  /** Every line stands where it may, and every bare insert has its payload. */
  predicate WellFormed(lines: seq<Line>) {
    forall i :: 0 <= i < |lines| ==> SitsAt(lines, i) && AnsweredAt(lines, i)
  }

  // ----- The recogniser's state -----

  predicate TakesPayload(lines: seq<Line>) {
    HeadOf(lines).Some? &&
    var h := HeadOf(lines).value;
    if lines[h].header.value == Hashline then HashlineRun(lines, h) else LegacyRun(lines, h)
  }

  predicate StateTold(lines: seq<Line>, s: State) {
    && (s.seenContent <==> !AllBlank(lines))
    && (s.sections > 0 <==> HeadOf(lines).Some?)
    && (HeadOf(lines).Some? ==> s.format == lines[HeadOf(lines).value].header.value)
    && (s.payloadAllowed <==> TakesPayload(lines))
    && (Dangling(s) <==> EndsBare(lines))
    && s.done == (if Dangling(s) then |lines| - 1 else |lines|)
  }

  lemma {:induction false} OneMoreLine(before: seq<Line>, l: Line)
    ensures var lines := before + [l];
            && lines[..|before|] == before
            && (AllBlank(lines) <==> AllBlank(before) && l.blank)
            && HeadOf(lines) == (if HeaderAfter(before, l) then Some(|before|) else HeadOf(before))
            && (EndsBare(lines) <==> BareInsert(before, l))
  {
    assert (before + [l])[..|before|] == before;
    assert (before + [l])[|before|] == l && forall k :: 0 <= k < |before| ==> (before + [l])[k] == before[k];
    assert AllBlank(before + [l]) ==> (before + [l])[|before|].blank;
  }

  lemma {:induction false} RunsMove(before: seq<Line>, l: Line, h: nat)
    requires h < |before|
    ensures HashlineRun(before + [l], h) <==> HashlineOpens(l) || (HashlinePayload(l) && HashlineRun(before, h))
    ensures LegacyRun(before + [l], h) <==> LegacyOpens(l) || (LegacyPayload(l) && LegacyRun(before, h))
  {
    var lines, n := before + [l], |before|;
    assert lines[n] == l && forall k :: 0 <= k < n ==> lines[k] == before[k];
    if HashlineRun(lines, h) && !HashlineOpens(l) {
      var j :| h < j < |lines| && HashlineOpens(lines[j]) && forall k :: j < k < |lines| ==> HashlinePayload(lines[k]);
      assert HashlinePayload(lines[n]);
    }
    if LegacyRun(lines, h) && !LegacyOpens(l) {
      var j :| h < j < |lines| && LegacyOpens(lines[j]) && forall k :: j < k < |lines| ==> LegacyPayload(lines[k]);
      assert LegacyPayload(lines[n]);
    }
    if HashlineOpens(l) { assert HashlineOpens(lines[n]); }
    if LegacyOpens(l) { assert LegacyOpens(lines[n]); }
  }

  lemma {:induction false} NoRun(lines: seq<Line>)
    requires HeadOf(lines) == Some(|lines| - 1)
    ensures !TakesPayload(lines)
  {
  }

  /** Behind a bare insert payload may stand, in a section of an older format. */
  lemma {:induction false} BareTakes(lines: seq<Line>)
    requires EndsBare(lines)
    ensures TakesPayload(lines) && lines[HeadOf(lines).value].header.value != Hashline && !AllBlank(lines)
  {
    var n := |lines| - 1;
    assert lines == lines[..n] + [lines[n]];
    OneMoreLine(lines[..n], lines[n]);
    RunsMove(lines[..n], lines[n], HeadOf(lines[..n]).value);
  }

  /** Whether payload may stand behind one more line. */
  lemma {:induction false} TakesMoves(before: seq<Line>, l: Line)
    ensures var lines := before + [l];
            if HeaderAfter(before, l) || HeadOf(before).None? then !TakesPayload(lines)
            else if before[HeadOf(before).value].header.value == Hashline then
              TakesPayload(lines) <==> HashlineOpens(l) || (HashlinePayload(l) && TakesPayload(before))
            else TakesPayload(lines) <==> LegacyOpens(l) || (LegacyPayload(l) && TakesPayload(before))
  {
    OneMoreLine(before, l);
    if HeadOf(before).Some? { RunsMove(before, l, HeadOf(before).value); }
  }

  lemma {:induction false} StepTold(before: seq<Line>, l: Line, s: State, at: nat)
    requires StateTold(before, s)
    ensures var next := Step(s, l, |before|, at);
            && (next.Some? <==> Sits(before, l) && (EndsBare(before) ==> LegacyPayload(l)))
            && (next.Some? ==> StateTold(before + [l], next.value))
  {
    OneMoreLine(before, l);
    TakesMoves(before, l);
    if EndsBare(before) { BareTakes(before); }
  }

  // ----- The recogniser accepts exactly the well-formed texts -----

  /** Well-formed but for what the last line may still need. */
  predicate WellBegun(lines: seq<Line>) {
    (forall i :: 0 <= i < |lines| ==> SitsAt(lines, i)) && (forall i :: 0 <= i < |lines| - 1 ==> AnsweredAt(lines, i))
  }

  lemma {:induction false} SamePlace(before: seq<Line>, l: Line, i: nat)
    requires i < |before|
    ensures (before + [l])[..i] == before[..i] && (before + [l])[i] == before[i]
  {
  }

  lemma {:induction false} BegunNext(before: seq<Line>, l: Line)
    ensures WellBegun(before + [l]) <==> WellBegun(before) && Sits(before, l) && (EndsBare(before) ==> LegacyPayload(l))
  {
    var lines, n := before + [l], |before|;
    assert lines[..n] == before && lines[n] == l;
    assert SitsAt(lines, n) <==> Sits(before, l);
    forall i: nat | i < n ensures SitsAt(lines, i) <==> SitsAt(before, i) {
      SamePlace(before, l, i);
    }
    forall i: nat | i < n - 1 ensures AnsweredAt(lines, i) <==> AnsweredAt(before, i) {
      SamePlace(before, l, i);
      SamePlace(before, l, i + 1);
    }
    if n > 0 {
      SamePlace(before, l, n - 1);
      assert AnsweredAt(lines, n - 1) <==> (EndsBare(before) ==> LegacyPayload(l));
    }
  }

  lemma {:induction false} ParseTold(lines: seq<Line>)
    ensures !Parse(lines).stopped <==> WellBegun(lines)
    ensures !Parse(lines).stopped ==> StateTold(lines, Parse(lines).state)
    decreases |lines|
  {
    if lines != [] {
      var n := |lines| - 1;
      var before, l := lines[..n], lines[n];
      assert lines == before + [l];
      ParseTold(before);
      BegunNext(before, l);
      if !Parse(before).stopped { StepTold(before, l, Parse(before).state, Length(before)); }
    }
  }

  /** The recogniser takes a text whole exactly when it is well-formed. */
  lemma {:induction false} CompleteIffWellFormed(lines: seq<Line>)
    ensures CompleteEdit(lines) <==> WellFormed(lines)
  {
    ParseTold(lines);
    WholeOrBare(lines);
  }

  lemma {:induction false} WholeOrBare(lines: seq<Line>)
    ensures WellFormed(lines) <==> WellBegun(lines) && !EndsBare(lines)
    ensures Parse(lines).stopped ==> Parse(lines).state.done < |lines|
  {
    if lines != [] { assert AnsweredAt(lines, |lines| - 1) <==> !EndsBare(lines); }
  }

  lemma {:induction false} BareSits(before: seq<Line>, l: Line)
    requires BareInsert(before, l)
    ensures Sits(before, l)
  {
  }

  lemma {:induction false} PendingTold(lines: seq<Line>)
    ensures var s := Parse(lines).state;
            Dangling(s) <==> s.done < |lines| && BareInsert(lines[..s.done], lines[s.done])
    decreases |lines|
  {
    ParseTold(lines);
    if lines != [] && Parse(lines).stopped {
      var n := |lines| - 1;
      var before, l := lines[..n], lines[n];
      assert lines == before + [l];
      ParseTold(before);
      PendingTold(before);
      var d := Parse(before).state.done;
      assert lines[..d] == before[..d];
      if !Parse(before).stopped {
        StepTold(before, l, Parse(before).state, Length(before));
        if d == n && BareInsert(before, l) { BareSits(before, l); }
      }
    }
  }

  /**
   The boundary ends the longest well-formed beginning; it is usable when that has a character and a
   header, and a payload is missing when a bare insert follows it.
   */
  lemma {:induction false} BoundaryTold(lines: seq<Line>)
    ensures var d, b := Parse(lines).state.done, BoundaryOf(Parse(lines).state);
            && WellFormed(lines[..d]) && (forall n :: d < n <= |lines| ==> !WellFormed(lines[..n]))
            && b.parsedEnd == Length(lines[..d])
            && (b.ok <==> Length(lines[..d]) > 0 && HeadOf(lines[..d]).Some?)
            && (b.missingPayload <==> d < |lines| && BareInsert(lines[..d], lines[d]))
  {
    var d := Parse(lines).state.done;
    PrefixIsStable(lines);
    CompleteIffWellFormed(lines[..d]);
    forall n | d < n <= |lines| ensures !WellFormed(lines[..n]) {
      LongestCompletePrefix(lines, n);
      CompleteIffWellFormed(lines[..n]);
    }
    ParseSound(lines);
    ParseTold(lines[..d]);
    PendingTold(lines);
  }

  /**
   A call is let through exactly when nothing was found in it, and cut exactly when it is an edit with
   a usable beginning and everything found starts behind that; every other call is aborted.
   */
  lemma {:induction false} ActionTold(lines: seq<Line>, isEdit: bool, signals: seq<nat>)
    ensures var d := Parse(lines).state.done;
            var action := ActionFor(isEdit, signals, Some(BoundaryOf(Parse(lines).state)));
            var behind := Length(lines[..d]) > 0 && HeadOf(lines[..d]).Some? && forall s :: s in signals ==> s >= Length(lines[..d]);
            && WellFormed(lines[..d]) && (forall n :: d < n <= |lines| ==> !WellFormed(lines[..n]))
            && (action == Allow <==> signals == [])
            && (action == SanitizeTail <==> signals != [] && isEdit && behind)
  {
    BoundaryTold(lines);
    var d := Parse(lines).state.done;
    assert forall i :: 0 <= i < |signals| ==> signals[i] in signals;
    assert (forall i :: 0 <= i < |signals| ==> signals[i] >= Length(lines[..d])) <==> forall s :: s in signals ==> s >= Length(lines[..d]);
  }
}
