/**
 Which lines of a diff are added and removed items, and where: said of the diff's own lines,
 by what stands before each of them.
 */
module ChangelogScan {
  import opened Wrappers
  import opened ChangelogPairing

  /** Where the lines of the file at hand begin: behind the last file header. */
  function FileStart(lines: seq<DiffLine>): (f: nat)
    ensures f <= |lines|
  {
    if lines == [] || lines[|lines| - 1].FileHeader? then |lines| else FileStart(lines[..|lines| - 1])
  }

  /** The path named last since the last file header. */
  function PathIn(lines: seq<DiffLine>): string {
    if lines == [] then ""
    else
      match lines[|lines| - 1]
      case NewPath(path) => path
      case FileHeader => ""
      case _ => PathIn(lines[..|lines| - 1])
  }

  /** The last hunk header of the file at hand. */
  function HunkStart(lines: seq<DiffLine>): (h: Option<nat>)
    ensures h.Some? ==> h.value < |lines| && lines[h.value].HunkHeader?
  {
    if lines == [] then None
    else
      match lines[|lines| - 1]
      case HunkHeader(_) => Some(|lines| - 1)
      case FileHeader => None
      case _ => HunkStart(lines[..|lines| - 1])
  }

  lemma {:induction false} FileStartIs(lines: seq<DiffLine>)
    ensures FileStart(lines) > 0 ==> lines[FileStart(lines) - 1].FileHeader?
    ensures forall k :: FileStart(lines) <= k < |lines| ==> !lines[k].FileHeader?
    decreases |lines|
  {
    if lines != [] && !lines[|lines| - 1].FileHeader? { FileStartIs(lines[..|lines| - 1]); }
  }

  /** Line `j` names a path, and no line since then names another or begins another file. */
  predicate NamedAt(lines: seq<DiffLine>, j: nat) {
    j < |lines| && lines[j].NewPath? && forall k :: j < k < |lines| ==> !lines[k].NewPath? && !lines[k].FileHeader?
  }

  lemma {:induction false} PathInIs(lines: seq<DiffLine>)
    ensures if exists j: nat :: NamedAt(lines, j) then exists j: nat :: NamedAt(lines, j) && lines[j].path == PathIn(lines)
            else PathIn(lines) == ""
    decreases |lines|
  {
    if lines != [] {
      var n := |lines| - 1;
      var before := lines[..n];
      PathInIs(before);
      if lines[n].NewPath? {
        assert NamedAt(lines, n);
      } else if !lines[n].FileHeader? {
        assert forall j: nat :: NamedAt(lines, j) ==> NamedAt(before, j);
        if j: nat :| NamedAt(before, j) && before[j].path == PathIn(before) { assert NamedAt(lines, j); }
      }
    }
  }

  lemma {:induction false} HunkStartIs(lines: seq<DiffLine>)
    ensures var h := HunkStart(lines);
            if h.Some? then forall k :: h.value < k < |lines| ==> !lines[k].HunkHeader? && !lines[k].FileHeader?
            else forall k :: FileStart(lines) <= k < |lines| ==> !lines[k].HunkHeader?
    ensures HunkStart(lines).Some? ==> FileStart(lines) <= HunkStart(lines).value
    decreases |lines|
  {
    if lines != [] { HunkStartIs(lines[..|lines| - 1]); }
  }

  /** Which of the lines from `f` on are hunk headers. */
  function HunkMarks(lines: seq<DiffLine>, f: nat): seq<bool>
    requires f <= |lines|
  {
    seq(|lines| - f, k requires 0 <= k < |lines| - f => lines[f + k].HunkHeader?)
  }

  /** Which of the lines from `f` on stand in the new file. */
  function ShownMarks(lines: seq<DiffLine>, f: nat): seq<bool>
    requires f <= |lines|
  {
    seq(|lines| - f, k requires 0 <= k < |lines| - f =>
      (lines[f + k].Added? || lines[f + k].Context?) && PathIn(lines[..f + k]) != "")
  }

  /** The lines before are those of a hunk of a named file. */
  predicate InHunk(lines: seq<DiffLine>) {
    PathIn(lines) != "" && HunkStart(lines).Some?
  }

  /** The hunk after these lines: the named file, and how many hunk headers it had before its last. */
  function HunkOf(lines: seq<DiffLine>): Hunk {
    Hunk(PathIn(lines), Count(HunkMarks(lines, FileStart(lines))) - 1)
  }

  /** The number the next line has in the new file: the hunk's first, and one more for each line shown since. */
  function LineOf(lines: seq<DiffLine>): nat
    requires InHunk(lines)
  {
    var h := HunkStart(lines).value;
    lines[h].newStart + Count(ShownMarks(lines, h + 1))
  }

  // ----- What is noted -----

  predicate AddsItem(lines: seq<DiffLine>, i: nat) {
    i < |lines| && lines[i].Added? && lines[i].item && InHunk(lines[..i])
  }

  predicate RemovesItem(lines: seq<DiffLine>, i: nat) {
    i < |lines| && lines[i].Removed? && lines[i].item && InHunk(lines[..i])
  }

  predicate AddsHeading(lines: seq<DiffLine>, i: nat) {
    i < |lines| && lines[i].Added? && lines[i].heading && InHunk(lines[..i])
  }

  predicate Rising(places: seq<nat>) {
    forall i, j :: 0 <= i < j < |places| ==> places[i] < places[j]
  }

  predicate AdditionsAt(lines: seq<DiffLine>, additions: seq<Addition>, places: seq<nat>) {
    && |places| == |additions| && Rising(places)
    && (forall k :: 0 <= k < |places| ==>
          && AddsItem(lines, places[k])
          && additions[k] == Addition(HunkOf(lines[..places[k]]), LineOf(lines[..places[k]]), lines[places[k]].text))
  }

  predicate RemovalsAt(lines: seq<DiffLine>, removals: seq<Removal>, places: seq<nat>) {
    && |places| == |removals| && Rising(places)
    && (forall k :: 0 <= k < |places| ==>
          RemovesItem(lines, places[k]) && removals[k] == Removal(HunkOf(lines[..places[k]]), lines[places[k]].text))
  }

  // ----- The cursor of the scan -----

  function CursorAfter(lines: seq<DiffLine>): Cursor {
    if lines == [] then Cursor("", 0, -1) else Moved(CursorAfter(lines[..|lines| - 1]), lines[|lines| - 1])
  }

  function Seen(lines: seq<DiffLine>): Scanned {
    if lines == [] then Scanned([], [], {})
    else var n := |lines| - 1; Noted(Seen(lines[..n]), CursorAfter(lines[..n]), lines[n])
  }

  lemma {:induction false} ScanFromSeen(before: seq<DiffLine>, lines: seq<DiffLine>)
    ensures ScanFrom(Seen(before), CursorAfter(before), lines) == Seen(before + lines)
    decreases |lines|
  {
    if lines == [] {
      assert before + lines == before;
    } else {
      assert (before + [lines[0]])[..|before|] == before;
      assert before + lines == before + [lines[0]] + lines[1..];
      ScanFromSeen(before + [lines[0]], lines[1..]);
    }
  }

  lemma {:induction false} HunkMarksNext(lines: seq<DiffLine>, l: DiffLine, f: nat)
    requires f <= |lines|
    ensures Count(HunkMarks(lines + [l], f)) == Count(HunkMarks(lines, f)) + if l.HunkHeader? then 1 else 0
  {
    var marks := HunkMarks(lines + [l], f);
    assert marks[..|marks| - 1] == HunkMarks(lines, f);
  }

  lemma {:induction false} ShownMarksNext(lines: seq<DiffLine>, l: DiffLine, f: nat)
    requires f <= |lines|
    ensures Count(ShownMarks(lines + [l], f)) ==
            Count(ShownMarks(lines, f)) + if (l.Added? || l.Context?) && PathIn(lines) != "" then 1 else 0
  {
    var all := lines + [l];
    var marks := ShownMarks(all, f);
    assert all[..|lines|] == lines;
    forall k | 0 <= k < |lines| - f ensures marks[k] == ShownMarks(lines, f)[k] {
      assert all[..f + k] == lines[..f + k] && all[f + k] == lines[f + k];
    }
    assert marks[..|marks| - 1] == ShownMarks(lines, f);
  }

  lemma {:induction false} NoneMarked(lines: seq<DiffLine>)
    ensures Count(HunkMarks(lines, |lines|)) == 0 && Count(ShownMarks(lines, |lines|)) == 0
  {
  }

  lemma {:induction false} OneMoreLine(before: seq<DiffLine>, l: DiffLine)
    ensures CursorAfter(before + [l]) == Moved(CursorAfter(before), l)
    ensures PathIn(before + [l]) == if l.NewPath? then l.path else if l.FileHeader? then "" else PathIn(before)
    ensures FileStart(before + [l]) == if l.FileHeader? then |before| + 1 else FileStart(before)
    ensures HunkStart(before + [l]) == if l.HunkHeader? then Some(|before|) else if l.FileHeader? then None else HunkStart(before)
  {
    assert (before + [l])[..|before|] == before;
  }

  predicate LineTold(lines: seq<DiffLine>, newLine: int) {
    var h := HunkStart(lines);
    h.Some? ==> newLine == lines[h.value].newStart + Count(ShownMarks(lines, h.value + 1))
  }

  /** The cursor stands where the lines before say. */
  predicate CursorTold(lines: seq<DiffLine>, c: Cursor) {
    && c.path == PathIn(lines)
    && c.index == Count(HunkMarks(lines, FileStart(lines))) - 1
    && (c.index >= 0 <==> HunkStart(lines).Some?)
    && LineTold(lines, c.newLine)
  }

  lemma {:induction false} CountsMove(before: seq<DiffLine>, l: DiffLine)
    ensures var lines := before + [l];
            Count(HunkMarks(lines, FileStart(lines))) ==
              if l.FileHeader? then 0 else Count(HunkMarks(before, FileStart(before))) + if l.HunkHeader? then 1 else 0
  {
    OneMoreLine(before, l);
    NoneMarked(before + [l]);
    HunkMarksNext(before, l, FileStart(before));
  }

  lemma {:induction false} LineMoves(before: seq<DiffLine>, l: DiffLine, newLine: int)
    requires LineTold(before, newLine)
    ensures LineTold(before + [l],
                     if l.HunkHeader? then l.newStart
                     else if (l.Added? || l.Context?) && PathIn(before) != "" then newLine + 1 else newLine)
  {
    OneMoreLine(before, l);
    var lines := before + [l];
    NoneMarked(lines);
    if !l.HunkHeader? && !l.FileHeader? && HunkStart(before).Some? {
      var h := HunkStart(before).value;
      ShownMarksNext(before, l, h + 1);
      assert lines[h] == before[h];
    }
  }

  lemma {:induction false} CursorMoves(before: seq<DiffLine>, l: DiffLine, c: Cursor)
    requires CursorTold(before, c)
    ensures CursorTold(before + [l], Moved(c, l))
  {
    OneMoreLine(before, l);
    CountsMove(before, l);
    LineMoves(before, l, c.newLine);
  }

  lemma {:induction false} CursorIs(lines: seq<DiffLine>)
    ensures CursorTold(lines, CursorAfter(lines))
    decreases |lines|
  {
    if lines == [] {
      NoneMarked(lines);
    } else {
      var n := |lines| - 1;
      CursorIs(lines[..n]);
      assert lines == lines[..n] + [lines[n]];
      CursorMoves(lines[..n], lines[n], CursorAfter(lines[..n]));
    }
  }

  /** What one line adds to what is noted. */
  lemma {:induction false} LineNoted(before: seq<DiffLine>, l: DiffLine, s: Scanned, c: Cursor)
    requires CursorTold(before, c)
    ensures var lines, n, out := before + [l], |before|, Noted(s, c, l);
            && lines[..n] == before
            && out.additions == (if AddsItem(lines, n) then s.additions + [Addition(HunkOf(before), LineOf(before), l.text)] else s.additions)
            && out.removals == (if RemovesItem(lines, n) then s.removals + [Removal(HunkOf(before), l.text)] else s.removals)
            && out.headings == if AddsHeading(lines, n) then s.headings + {HunkOf(before)} else s.headings
  {
    assert (before + [l])[..|before|] == before;
  }

  lemma {:induction false} SamePlaces(lines: seq<DiffLine>, l: DiffLine, i: nat)
    requires i < |lines|
    ensures (lines + [l])[i] == lines[i] && (lines + [l])[..i] == lines[..i]
  {
  }

  lemma {:induction false} PlacesKept(lines: seq<DiffLine>, l: DiffLine)
    ensures forall i: nat :: i < |lines| ==> (AddsItem(lines + [l], i) <==> AddsItem(lines, i)) && (RemovesItem(lines + [l], i) <==> RemovesItem(lines, i))
    ensures forall i: nat :: AddsItem(lines + [l], i) || RemovesItem(lines + [l], i) ==> i <= |lines|
  {
    forall i: nat | i < |lines|
      ensures (AddsItem(lines + [l], i) <==> AddsItem(lines, i)) && (RemovesItem(lines + [l], i) <==> RemovesItem(lines, i))
    {
      SamePlaces(lines, l, i);
    }
  }

  lemma {:induction false} ExtendAdds(lines: seq<DiffLine>, l: DiffLine, additions: seq<Addition>, places: seq<nat>, more: seq<Addition>, next: seq<nat>)
    requires AdditionsAt(lines, additions, places) && (forall i: nat :: i in places <==> AddsItem(lines, i))
    requires if AddsItem(lines + [l], |lines|) then
               && InHunk(lines) && l.Added? && next == places + [|lines|]
               && more == additions + [Addition(HunkOf(lines), LineOf(lines), l.text)]
             else next == places && more == additions
    ensures AdditionsAt(lines + [l], more, next)
    ensures forall i: nat :: i in next <==> AddsItem(lines + [l], i)
  {
    var all := lines + [l];
    assert all[..|lines|] == lines;
    PlacesKept(lines, l);
    forall k | 0 <= k < |next|
      ensures AddsItem(all, next[k])
      ensures more[k] == Addition(HunkOf(all[..next[k]]), LineOf(all[..next[k]]), all[next[k]].text)
    {
      if k < |places| {
        assert places[k] in places && AddsItem(lines, places[k]);
        SamePlaces(lines, l, places[k]);
      }
    }
    assert forall k :: 0 <= k < |places| ==> AddsItem(lines, places[k]) && places[k] < |lines|;
  }

  lemma {:induction false} ExtendRemoves(lines: seq<DiffLine>, l: DiffLine, removals: seq<Removal>, places: seq<nat>, more: seq<Removal>, next: seq<nat>)
    requires RemovalsAt(lines, removals, places) && (forall i: nat :: i in places <==> RemovesItem(lines, i))
    requires if RemovesItem(lines + [l], |lines|) then
               l.Removed? && next == places + [|lines|] && more == removals + [Removal(HunkOf(lines), l.text)]
             else next == places && more == removals
    ensures RemovalsAt(lines + [l], more, next)
    ensures forall i: nat :: i in next <==> RemovesItem(lines + [l], i)
  {
    var all := lines + [l];
    assert all[..|lines|] == lines;
    PlacesKept(lines, l);
    forall k | 0 <= k < |next|
      ensures RemovesItem(all, next[k])
      ensures more[k] == Removal(HunkOf(all[..next[k]]), all[next[k]].text)
    {
      if k < |places| {
        assert places[k] in places && RemovesItem(lines, places[k]);
        SamePlaces(lines, l, places[k]);
      }
    }
    assert forall k :: 0 <= k < |places| ==> RemovesItem(lines, places[k]) && places[k] < |lines|;
  }

  ghost predicate HeadingsTold(lines: seq<DiffLine>, headings: set<Hunk>) {
    forall h :: h in headings <==> exists i: nat :: AddsHeading(lines, i) && HunkOf(lines[..i]) == h
  }

  lemma {:induction false} ExtendHeadings(lines: seq<DiffLine>, l: DiffLine, headings: set<Hunk>)
    requires HeadingsTold(lines, headings)
    ensures HeadingsTold(lines + [l], if AddsHeading(lines + [l], |lines|) then headings + {HunkOf(lines)} else headings)
  {
    var all := lines + [l];
    assert all[..|lines|] == lines;
    forall i: nat | i < |lines| ensures (AddsHeading(all, i) <==> AddsHeading(lines, i)) && all[..i] == lines[..i] {
      SamePlaces(lines, l, i);
    }
  }

  lemma {:induction false} SeenTold(lines: seq<DiffLine>) returns (adds: seq<nat>, removes: seq<nat>)
    ensures var s := Seen(lines);
            AdditionsAt(lines, s.additions, adds) && RemovalsAt(lines, s.removals, removes) && HeadingsTold(lines, s.headings)
    ensures forall i: nat :: i in adds <==> AddsItem(lines, i)
    ensures forall i: nat :: i in removes <==> RemovesItem(lines, i)
    decreases |lines|
  {
    if lines == [] {
      adds, removes := [], [];
    } else {
      var n := |lines| - 1;
      var before, l := lines[..n], lines[n];
      assert lines == before + [l];
      var a, r := SeenTold(before);
      var s, now := Seen(before), Seen(lines);
      CursorIs(before);
      LineNoted(before, l, s, CursorAfter(before));
      adds := a + if AddsItem(lines, n) then [n] else [];
      removes := r + if RemovesItem(lines, n) then [n] else [];
      ExtendAdds(before, l, s.additions, a, now.additions, adds);
      ExtendRemoves(before, l, s.removals, r, now.removals, removes);
      ExtendHeadings(before, l, s.headings);
    }
  }

  /**
   The additions of a diff are its added item lines within the hunks of named files, in order, each
   with the hunk it stands in and the number it has in the new file; so the removals; and the
   headings are the hunks that add a release heading.
   */
  lemma {:induction false} ScanTold(lines: seq<DiffLine>) returns (adds: seq<nat>, removes: seq<nat>)
    ensures var s := Scan(lines);
            && AdditionsAt(lines, s.additions, adds) && RemovalsAt(lines, s.removals, removes)
            && HeadingsTold(lines, s.headings)
    ensures forall i: nat :: i in adds <==> AddsItem(lines, i)
    ensures forall i: nat :: i in removes <==> RemovesItem(lines, i)
  {
    adds, removes := SeenTold(lines);
    ScanFromSeen([], lines);
    assert [] + lines == lines;
  }
}
