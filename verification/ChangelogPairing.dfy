/**
 Which added list items of a diff are promoted. An addition that matches a removal is a move;
 of what is left, each hunk sets off its unmatched additions against its unmatched removals.
 */
module ChangelogPairing {

  /** Diff lines as they are told apart; item texts are trimmed. */
  datatype DiffLine =
    | NewPath(path: string)
    | FileHeader
    | HunkHeader(newStart: nat)
    | Added(text: string, item: bool, heading: bool)
    | Removed(text: string, item: bool)
    | Context
    | Other

  datatype Hunk = Hunk(path: string, index: int)

  /** An item line added at a line of the new file, or removed. */
  datatype Addition = Addition(hunk: Hunk, line: nat, text: string)

  datatype Removal = Removal(hunk: Hunk, text: string)

  datatype Scanned = Scanned(additions: seq<Addition>, removals: seq<Removal>, headings: set<Hunk>)

  datatype Cursor = Cursor(path: string, newLine: nat, index: int)

  // ----- Scanning the diff -----

  predicate Skipped(c: Cursor) {
    c.path == "" || c.index < 0
  }

  function Moved(c: Cursor, l: DiffLine): Cursor {
    match l
    case NewPath(path) => c.(path := path)
    case FileHeader => c.(path := "", index := -1)
    case HunkHeader(start) => c.(newLine := start, index := c.index + 1)
    case Added(_, _, _) => if Skipped(c) then c else c.(newLine := c.newLine + 1)
    case Context => if Skipped(c) then c else c.(newLine := c.newLine + 1)
    case _ => c
  }

  function Noted(s: Scanned, c: Cursor, l: DiffLine): Scanned {
    var hunk := Hunk(c.path, c.index);
    if Skipped(c) then s
    else
      match l
      case Added(text, item, heading) =>
        s.(headings := if heading then s.headings + {hunk} else s.headings,
           additions := if item then s.additions + [Addition(hunk, c.newLine, text)] else s.additions)
      case Removed(text, item) =>
        s.(removals := if item then s.removals + [Removal(hunk, text)] else s.removals)
      case _ => s
  }

  function ScanFrom(s: Scanned, c: Cursor, lines: seq<DiffLine>): Scanned
    decreases |lines|
  {
    if lines == [] then s else ScanFrom(Noted(s, c, lines[0]), Moved(c, lines[0]), lines[1..])
  }

  function Scan(lines: seq<DiffLine>): Scanned {
    ScanFrom(Scanned([], [], {}), Cursor("", 0, -1), lines)
  }

  method ScanDiff(lines: seq<DiffLine>) returns (s: Scanned)
    ensures s == Scan(lines)
  {
    var additions: seq<Addition>, removals: seq<Removal>, headings: set<Hunk> := [], [], {};
    var path, newLine, index := "", 0, -1;
    var i := 0;
    assert lines[0..] == lines;
    while i < |lines|
      invariant i <= |lines| && newLine >= 0
      invariant ScanFrom(Scanned(additions, removals, headings), Cursor(path, newLine, index), lines[i..]) == Scan(lines)
    {
      assert lines[i..][1..] == lines[i + 1..];
      match lines[i] {
        case NewPath(p) => path := p;
        case FileHeader => path, index := "", -1;
        case HunkHeader(start) => newLine, index := start, index + 1;
        case Added(text, item, heading) =>
          if path != "" && index >= 0 {
            if heading { headings := headings + {Hunk(path, index)}; }
            if item { additions := additions + [Addition(Hunk(path, index), newLine, text)]; }
            newLine := newLine + 1;
          }
        case Removed(text, item) =>
          if path != "" && index >= 0 && item { removals := removals + [Removal(Hunk(path, index), text)]; }
        case Context =>
          if path != "" && index >= 0 { newLine := newLine + 1; }
        case Other =>
      }
      i := i + 1;
    }
    s := Scanned(additions, removals, headings);
  }

  // ----- Counting marked positions -----

  function Count(marks: seq<bool>): nat {
    if marks == [] then 0 else Count(marks[..|marks| - 1]) + (if marks[|marks| - 1] then 1 else 0)
  }

  /** The first `n` marks, and the others. */
  function First(marks: seq<bool>, n: nat): seq<bool> {
    seq(|marks|, i requires 0 <= i < |marks| => marks[i] && Count(marks[..i]) < n)
  }

  function Rest(marks: seq<bool>, n: nat): seq<bool> {
    seq(|marks|, i requires 0 <= i < |marks| => marks[i] && Count(marks[..i]) >= n)
  }

  lemma {:induction false} FirstAndRest(marks: seq<bool>, n: nat)
    ensures Count(First(marks, n)) == if Count(marks) < n then Count(marks) else n
    ensures Count(Rest(marks, n)) == if Count(marks) < n then 0 else Count(marks) - n
    decreases |marks|
  {
    if marks != [] {
      var init := marks[..|marks| - 1];
      FirstAndRest(init, n);
      assert forall i :: 0 <= i < |init| ==> init[..i] == marks[..i];
      assert First(marks, n)[..|init|] == First(init, n);
      assert Rest(marks, n)[..|init|] == Rest(init, n);
    }
  }

  lemma {:induction false} CountGrows(marks: seq<bool>, i: nat, j: nat)
    requires i <= j <= |marks|
    ensures Count(marks[..i]) <= Count(marks[..j])
    ensures i < j && marks[i] ==> Count(marks[..i]) < Count(marks[..j])
    decreases j - i
  {
    if i < j {
      assert marks[..j][..j - 1] == marks[..j - 1];
      CountGrows(marks, i, j - 1);
    }
  }

  lemma {:induction false} CountNext(marks: seq<bool>, i: nat)
    requires i < |marks|
    ensures Count(marks[..i + 1]) == Count(marks[..i]) + (if marks[i] then 1 else 0)
  {
    assert marks[..i + 1][..i] == marks[..i];
  }

  /** Marks before a position come one after the other, so each number below the count is some mark's. */
  lemma {:induction false} MarkOfRank(marks: seq<bool>, n: nat) returns (i: nat)
    requires n < Count(marks)
    ensures i < |marks| && marks[i] && Count(marks[..i]) == n
    decreases |marks|
  {
    var last := |marks| - 1;
    if Count(marks[..last]) <= n {
      i := last;
    } else {
      i := MarkOfRank(marks[..last], n);
      assert marks[..last][..i] == marks[..i];
    }
  }

  // ----- Pairing additions with removals -----

  predicate SameItem(a: Addition, r: Removal) {
    a.hunk.path == r.hunk.path && a.text == r.text
  }

  /** The additions, or the removals, of one item in one file. */
  function AddsOf(additions: seq<Addition>, path: string, text: string): seq<bool> {
    seq(|additions|, i requires 0 <= i < |additions| => additions[i].hunk.path == path && additions[i].text == text)
  }

  function RemovesOf(removals: seq<Removal>, path: string, text: string): seq<bool> {
    seq(|removals|, j requires 0 <= j < |removals| => removals[j].hunk.path == path && removals[j].text == text)
  }

  /** Addition `i` has a partner among the removals if fewer additions of its item come before it. */
  predicate PairedAddition(additions: seq<Addition>, removals: seq<Removal>, i: nat)
    requires i < |additions|
  {
    var a := additions[i];
    Count(AddsOf(additions, a.hunk.path, a.text)[..i]) < Count(RemovesOf(removals, a.hunk.path, a.text))
  }

  /** Removal `j` has a partner among the first `n` additions. */
  predicate PairedRemoval(additions: seq<Addition>, removals: seq<Removal>, n: nat, j: nat)
    requires n <= |additions| && j < |removals|
  {
    var r := removals[j];
    Count(RemovesOf(removals, r.hunk.path, r.text)[..j]) < Count(AddsOf(additions, r.hunk.path, r.text)[..n])
  }

  method FindFree(a: Addition, removals: seq<Removal>, paired: array<bool>) returns (j: nat)
    requires paired.Length == |removals|
    ensures j <= |removals|
    ensures j < |removals| ==> SameItem(a, removals[j]) && !paired[j]
    ensures forall k :: 0 <= k < j && SameItem(a, removals[k]) ==> paired[k]
  {
    j := 0;
    while j < |removals| && !(SameItem(a, removals[j]) && !paired[j])
      invariant j <= |removals|
      invariant forall k :: 0 <= k < j && SameItem(a, removals[k]) ==> paired[k]
    {
      j := j + 1;
    }
  }

  /** The flags, as the greedy search sets them. */
  method PairUp(additions: seq<Addition>, removals: seq<Removal>) returns (pairedA: array<bool>, pairedR: array<bool>)
    ensures fresh(pairedA) && fresh(pairedR) && pairedA.Length == |additions| && pairedR.Length == |removals|
    ensures forall i :: 0 <= i < |additions| ==> pairedA[i] == PairedAddition(additions, removals, i)
    ensures forall j :: 0 <= j < |removals| ==> pairedR[j] == PairedRemoval(additions, removals, |additions|, j)
  {
    pairedA := new bool[|additions|](_ => false);
    pairedR := new bool[|removals|](_ => false);
    var i := 0;
    while i < |additions|
      invariant i <= |additions|
      invariant forall k :: 0 <= k < |additions| ==> pairedA[k] == (k < i && PairedAddition(additions, removals, k))
      invariant forall j :: 0 <= j < |removals| ==> pairedR[j] == PairedRemoval(additions, removals, i, j)
    {
      var j := FindFree(additions[i], removals, pairedR);
      FirstFree(additions, removals, i, j);
      if j < |removals| {
        pairedR[j] := true;
        pairedA[i] := true;
      }
      i := i + 1;
    }
  }

  /** What one turn of the search finds, and what it leaves. */
  lemma {:induction false} FirstFree(additions: seq<Addition>, removals: seq<Removal>, i: nat, j: nat)
    requires i < |additions| && j <= |removals|
    requires j < |removals| ==> SameItem(additions[i], removals[j]) && !PairedRemoval(additions, removals, i, j)
    requires forall k :: 0 <= k < j && SameItem(additions[i], removals[k]) ==> PairedRemoval(additions, removals, i, k)
    ensures PairedAddition(additions, removals, i) <==> j < |removals|
    ensures forall k :: 0 <= k < |removals| ==>
              (PairedRemoval(additions, removals, i + 1, k) <==> PairedRemoval(additions, removals, i, k) || k == j)
  {
    var a := additions[i];
    var adds, removes := AddsOf(additions, a.hunk.path, a.text), RemovesOf(removals, a.hunk.path, a.text);
    var n := Count(adds[..i]);
    assert removes[..|removes|] == removes;
    if n < Count(removes) {
      var m := MarkOfRank(removes, n);
      assert !PairedRemoval(additions, removals, i, m);
      if j < m { CountGrows(removes, j, m); }
      assert j == m;
    } else if j < |removals| {
      CountGrows(removes, j, |removes|);
      assert false;
    }
    forall k | 0 <= k < |removals|
      ensures PairedRemoval(additions, removals, i + 1, k) <==> PairedRemoval(additions, removals, i, k) || k == j
    {
      OneMore(additions, removals, i, j, k);
    }
  }

  lemma {:induction false} OneMore(additions: seq<Addition>, removals: seq<Removal>, i: nat, j: nat, k: nat)
    requires i < |additions| && j <= |removals| && k < |removals|
    requires var a := additions[i];
             var removes := RemovesOf(removals, a.hunk.path, a.text);
             var n := Count(AddsOf(additions, a.hunk.path, a.text)[..i]);
             if j < |removals| then removes[j] && Count(removes[..j]) == n else Count(removes) <= n
    ensures PairedRemoval(additions, removals, i + 1, k) <==> PairedRemoval(additions, removals, i, k) || k == j
  {
    var a, r := additions[i], removals[k];
    CountNext(AddsOf(additions, r.hunk.path, r.text), i);
    if SameItem(a, r) {
      var removes := RemovesOf(removals, a.hunk.path, a.text);
      if j < |removals| {
        if k < j { CountGrows(removes, k, j); }
        if j < k { CountGrows(removes, j, k); }
      } else {
        CountGrows(removes, k, |removes|);
        assert removes[..|removes|] == removes;
      }
    }
  }

  // ----- Setting off within hunks -----

  /** The unpaired additions, and the unpaired removals, of one hunk. */
  function LooseAdds(s: Scanned, h: Hunk): seq<bool> {
    seq(|s.additions|, i requires 0 <= i < |s.additions| =>
      s.additions[i].hunk == h && !PairedAddition(s.additions, s.removals, i))
  }

  function LooseRemoves(s: Scanned, h: Hunk): seq<bool> {
    seq(|s.removals|, j requires 0 <= j < |s.removals| =>
      s.removals[j].hunk == h && !PairedRemoval(s.additions, s.removals, |s.additions|, j))
  }

  /** Addition `i` is promoted: unpaired, in no release-heading hunk, and past the set-off. */
  predicate Promoted(s: Scanned, i: nat)
    requires i < |s.additions|
  {
    var h := s.additions[i].hunk;
    && !PairedAddition(s.additions, s.removals, i) && h !in s.headings
    && Count(LooseAdds(s, h)[..i]) >= Count(LooseRemoves(s, h))
  }

  /** What is left to set off in a hunk once the first `i` additions have been seen. */
  function LeftOver(s: Scanned, i: nat, h: Hunk): nat
    requires i <= |s.additions|
  {
    var removes, adds := Count(LooseRemoves(s, h)), Count(LooseAdds(s, h)[..i]);
    if adds < removes then removes - adds else 0
  }

  function Get(counts: map<Hunk, nat>, h: Hunk): nat {
    if h in counts then counts[h] else 0
  }

  method CountLooseRemoves(s: Scanned, pairedR: array<bool>) returns (counts: map<Hunk, nat>)
    requires pairedR.Length == |s.removals|
    requires forall j :: 0 <= j < |s.removals| ==> pairedR[j] == PairedRemoval(s.additions, s.removals, |s.additions|, j)
    ensures forall h :: Get(counts, h) == Count(LooseRemoves(s, h))
  {
    counts := map[];
    var j := 0;
    while j < |s.removals|
      invariant j <= |s.removals|
      invariant forall h :: Get(counts, h) == Count(LooseRemoves(s, h)[..j])
    {
      forall h ensures Count(LooseRemoves(s, h)[..j + 1]) == Count(LooseRemoves(s, h)[..j]) + (if LooseRemoves(s, h)[j] then 1 else 0) {
        CountNext(LooseRemoves(s, h), j);
      }
      if !pairedR[j] {
        var h := s.removals[j].hunk;
        counts := counts[h := Get(counts, h) + 1];
      }
      j := j + 1;
    }
    forall h ensures LooseRemoves(s, h)[..j] == LooseRemoves(s, h) {
    }
  }

  /** The lines of the promoted among the first `n` additions, in one file. */
  function PromotedLines(s: Scanned, n: nat, path: string): set<nat>
    requires n <= |s.additions|
  {
    if n == 0 then {}
    else if Promoted(s, n - 1) && s.additions[n - 1].hunk.path == path then
      PromotedLines(s, n - 1, path) + {s.additions[n - 1].line}
    else PromotedLines(s, n - 1, path)
  }

  lemma {:induction false} PromotedLinesIn(s: Scanned, n: nat, path: string, line: nat)
    requires n <= |s.additions|
    ensures line in PromotedLines(s, n, path) <==>
            exists i :: 0 <= i < n && Promoted(s, i) && s.additions[i].hunk.path == path && s.additions[i].line == line
    decreases n
  {
    if n > 0 { PromotedLinesIn(s, n - 1, path, line); }
  }

  function LinesFor(byPath: map<string, set<nat>>, path: string): set<nat> {
    if path in byPath then byPath[path] else {}
  }

  ghost predicate Lists(byPath: map<string, set<nat>>, s: Scanned, n: nat)
    requires n <= |s.additions|
  {
    forall path :: LinesFor(byPath, path) == PromotedLines(s, n, path)
  }

  /** One addition, in the order of the diff. */
  lemma {:induction false} SetOff(s: Scanned, i: nat)
    requires i < |s.additions|
    ensures var a := s.additions[i];
            Promoted(s, i) <==>
            !PairedAddition(s.additions, s.removals, i) && a.hunk !in s.headings && LeftOver(s, i, a.hunk) == 0
    ensures forall h :: LeftOver(s, i + 1, h) ==
              if s.additions[i].hunk == h && !PairedAddition(s.additions, s.removals, i) && LeftOver(s, i, h) > 0
              then LeftOver(s, i, h) - 1 else LeftOver(s, i, h)
  {
    forall h ensures Count(LooseAdds(s, h)[..i + 1]) == Count(LooseAdds(s, h)[..i]) + (if LooseAdds(s, h)[i] then 1 else 0) {
      CountNext(LooseAdds(s, h), i);
    }
  }

  function WithLine(byPath: map<string, set<nat>>, path: string, line: nat): map<string, set<nat>> {
    byPath[path := LinesFor(byPath, path) + {line}]
  }

  ghost predicate Tracks(counts: map<Hunk, nat>, s: Scanned, i: nat)
    requires i <= |s.additions|
  {
    forall h :: h !in s.headings ==> Get(counts, h) == LeftOver(s, i, h)
  }

  predicate Loose(s: Scanned, i: nat)
    requires i < |s.additions|
  {
    !PairedAddition(s.additions, s.removals, i) && s.additions[i].hunk !in s.headings
  }

  lemma {:induction false} TracksNext(counts: map<Hunk, nat>, s: Scanned, i: nat)
    requires i < |s.additions| && Tracks(counts, s, i)
    ensures Promoted(s, i) <==> Loose(s, i) && Get(counts, s.additions[i].hunk) == 0
    ensures Loose(s, i) && Get(counts, s.additions[i].hunk) > 0 ==>
              Tracks(counts[s.additions[i].hunk := Get(counts, s.additions[i].hunk) - 1], s, i + 1)
    ensures !Loose(s, i) || Get(counts, s.additions[i].hunk) == 0 ==> Tracks(counts, s, i + 1)
  {
    SetOff(s, i);
  }

  method CollectPromotable(lines: seq<DiffLine>) returns (byPath: map<string, set<nat>>)
    ensures Lists(byPath, Scan(lines), |Scan(lines).additions|)
  {
    var s := ScanDiff(lines);
    var pairedA, pairedR := PairUp(s.additions, s.removals);
    var counts := CountLooseRemoves(s, pairedR);
    TracksAtFirst(counts, s);
    byPath := map[];
    var i := 0;
    while i < |s.additions|
      invariant i <= |s.additions| && Lists(byPath, s, i) && Tracks(counts, s, i)
      invariant forall k :: 0 <= k < |s.additions| ==> pairedA[k] == PairedAddition(s.additions, s.removals, k)
    {
      var a := s.additions[i];
      TracksNext(counts, s, i);
      if !pairedA[i] && a.hunk !in s.headings {
        var left := Get(counts, a.hunk);
        if left > 0 {
          counts := counts[a.hunk := left - 1];
        } else {
          byPath := WithLine(byPath, a.hunk.path, a.line);
        }
      }
      i := i + 1;
    }
  }

  lemma {:induction false} TracksAtFirst(counts: map<Hunk, nat>, s: Scanned)
    requires forall h :: Get(counts, h) == Count(LooseRemoves(s, h))
    ensures Tracks(counts, s, 0)
  {
  }

  // ----- The law -----

  /** Which additions, and removals, of one item are paired. */
  function PairedAddsOf(s: Scanned, path: string, text: string): seq<bool> {
    seq(|s.additions|, i requires 0 <= i < |s.additions| =>
      AddsOf(s.additions, path, text)[i] && PairedAddition(s.additions, s.removals, i))
  }

  function PairedRemovesOf(s: Scanned, path: string, text: string): seq<bool> {
    seq(|s.removals|, j requires 0 <= j < |s.removals| =>
      RemovesOf(s.removals, path, text)[j] && PairedRemoval(s.additions, s.removals, |s.additions|, j))
  }

  function Min(a: nat, b: nat): nat {
    if a < b then a else b
  }

  /** For every item of every file, as many additions as removals are paired: the smaller of their numbers. */
  lemma {:induction false} PairingLaw(s: Scanned, path: string, text: string)
    ensures var adds, removes := Count(AddsOf(s.additions, path, text)), Count(RemovesOf(s.removals, path, text));
            && Count(PairedAddsOf(s, path, text)) == Min(adds, removes)
            && Count(PairedRemovesOf(s, path, text)) == Min(adds, removes)
  {
    var adds, removes := AddsOf(s.additions, path, text), RemovesOf(s.removals, path, text);
    assert PairedAddsOf(s, path, text) == First(adds, Count(removes));
    FirstAndRest(adds, Count(removes));
    assert adds[..|s.additions|] == adds;
    assert PairedRemovesOf(s, path, text) == First(removes, Count(adds));
    FirstAndRest(removes, Count(adds));
  }

  lemma {:induction false} CountNone(marks: seq<bool>)
    requires forall i :: 0 <= i < |marks| ==> !marks[i]
    ensures Count(marks) == 0
    decreases |marks|
  {
    if marks != [] { CountNone(marks[..|marks| - 1]); }
  }

  function PromotedIn(s: Scanned, h: Hunk): seq<bool> {
    seq(|s.additions|, i requires 0 <= i < |s.additions| => s.additions[i].hunk == h && Promoted(s, i))
  }

  /**
   A hunk promotes as many items as it has unpaired additions over unpaired removals, and none if
   it adds a release heading.
   */
  lemma {:induction false} PromotionLaw(s: Scanned, h: Hunk)
    ensures var adds, removes := Count(LooseAdds(s, h)), Count(LooseRemoves(s, h));
            Count(PromotedIn(s, h)) == if h in s.headings || adds < removes then 0 else adds - removes
  {
    var loose := LooseAdds(s, h);
    if h in s.headings {
      CountNone(PromotedIn(s, h));
    } else {
      assert PromotedIn(s, h) == Rest(loose, Count(LooseRemoves(s, h)));
      FirstAndRest(loose, Count(LooseRemoves(s, h)));
    }
  }

  /** The promoted ones are the last of the hunk's unpaired additions. */
  lemma {:induction false} LastOnesPromoted(s: Scanned, i: nat, j: nat)
    requires i < j < |s.additions| && s.additions[i].hunk == s.additions[j].hunk
    requires Promoted(s, i) && !PairedAddition(s.additions, s.removals, j)
    ensures Promoted(s, j)
  {
    CountGrows(LooseAdds(s, s.additions[i].hunk), i, j);
  }
}
