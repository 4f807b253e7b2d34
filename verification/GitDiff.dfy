/**
 Splitting a git patch into per-file changes, and putting the text of the changes together again.
 Only what the splitter drops is missing: text before the first header, blocks whose header
 names no second path, and binary blocks.
 */
module GitDiff {
  import opened Wrappers

  datatype ChangeKind = Added | Removed | Modified

  datatype FileChange = FileChange(path: string, op: ChangeKind, diff: Option<string>)

  // ----- Lines of a patch -----

  predicate StartsWith(s: string, prefix: string) {
    |prefix| <= |s| && s[..|prefix|] == prefix
  }

  function LineEnd(s: string): (n: nat)
    requires s != ""
    ensures 0 < n <= |s|
  {
    if s[0] == '\n' || |s| == 1 then 1 else 1 + LineEnd(s[1..])
  }

  /** The lines with their line breaks. */
  function Lines(s: string): seq<string>
    decreases |s|
  {
    if s == "" then [] else [s[..LineEnd(s)]] + Lines(s[LineEnd(s)..])
  }

  function Flat(lines: seq<string>): string {
    if lines == [] then "" else lines[0] + Flat(lines[1..])
  }

  predicate Ended(line: string) {
    line != "" && line[|line| - 1] == '\n'
  }

  /** Every line has its line break, the last one perhaps not; none is empty. */
  predicate WellLined(lines: seq<string>) {
    forall i :: 0 <= i < |lines| ==> lines[i] != "" && (i < |lines| - 1 ==> Ended(lines[i]))
  }

  lemma {:induction false} LineEndIs(s: string)
    requires s != ""
    ensures LineEnd(s) < |s| ==> s[LineEnd(s) - 1] == '\n'
    decreases |s|
  {
    if s[0] != '\n' && |s| > 1 { LineEndIs(s[1..]); }
  }

  lemma {:induction false} LinesRejoin(s: string)
    ensures Flat(Lines(s)) == s && WellLined(Lines(s))
    decreases |s|
  {
    if s != "" {
      var n := LineEnd(s);
      LineEndIs(s);
      LinesRejoin(s[n..]);
      OneMore(s[..n], Lines(s[n..]));
      assert s[..n] + s[n..] == s;
      if n < |s| { assert s[..n][n - 1] == s[n - 1]; }
    }
  }

  lemma {:induction false} OneMore(line: string, rest: seq<string>)
    requires line != "" && WellLined(rest) && (rest != [] ==> Ended(line))
    ensures Flat([line] + rest) == line + Flat(rest) && WellLined([line] + rest)
  {
    assert ([line] + rest)[1..] == rest;
    forall i | 0 < i <= |rest| ensures ([line] + rest)[i] == rest[i - 1] {
    }
  }

  // ----- Blocks -----

  const HEADER := "diff --git "

  predicate IsHeader(line: string) {
    StartsWith(line, HEADER)
  }

  function Space(s: string): (n: nat)
    ensures n <= |s|
  {
    if s == "" || s[0] == ' ' then 0 else 1 + Space(s[1..])
  }

  function TrimBreaks(s: string): string {
    if s != "" && s[|s| - 1] == '\n' then TrimBreaks(s[..|s| - 1]) else s
  }

  /** The path after the first space of a header, without its `b/`. */
  function PathOf(header: string): Option<string>
    requires IsHeader(header)
  {
    var rest := TrimBreaks(header[|HEADER|..]);
    var n := Space(rest);
    if n == |rest| then None
    else
      var b := rest[n + 1..];
      Some(if StartsWith(b, "b/") then b[2..] else b)
  }

  function KindAfter(kind: ChangeKind, line: string): ChangeKind {
    if StartsWith(line, "new file mode ") then Added
    else if StartsWith(line, "deleted file mode ") then Removed
    else kind
  }

  /** A line that makes its block binary, unless it was taken for a mode line already. */
  predicate MarksBinary(line: string) {
    && !StartsWith(line, "new file mode ") && !StartsWith(line, "deleted file mode ")
    && (StartsWith(line, "Binary files ") || StartsWith(line, "GIT binary patch"))
  }

  function KindOf(lines: seq<string>): ChangeKind {
    if lines == [] then Modified else KindAfter(KindOf(lines[..|lines| - 1]), lines[|lines| - 1])
  }

  predicate IsBinary(lines: seq<string>) {
    exists i :: 0 <= i < |lines| && MarksBinary(lines[i])
  }

  /** Lines before the first header. */
  function Lead(lines: seq<string>): seq<string> {
    if lines == [] || IsHeader(lines[0]) then [] else [lines[0]] + Lead(lines[1..])
  }

  function Blocks(lines: seq<string>): seq<seq<string>> {
    if lines == [] then []
    else if IsHeader(lines[0]) then [[lines[0]] + Lead(lines[1..])] + Blocks(lines[1..])
    else Blocks(lines[1..])
  }

  predicate IsBlock(block: seq<string>) {
    block != [] && IsHeader(block[0])
  }

  /** The change of one block, if its header names a path. */
  function ChangeOf(block: seq<string>): seq<FileChange>
    requires IsBlock(block)
  {
    if PathOf(block[0]).None? then []
    else [FileChange(PathOf(block[0]).value, KindOf(block[1..]), if IsBinary(block[1..]) then None else Some(Flat(block)))]
  }

  predicate AreBlocks(blocks: seq<seq<string>>) {
    forall i :: 0 <= i < |blocks| ==> IsBlock(blocks[i])
  }

  function Changes(blocks: seq<seq<string>>): seq<FileChange>
    requires AreBlocks(blocks)
  {
    if blocks == [] then [] else ChangeOf(blocks[0]) + Changes(blocks[1..])
  }

  lemma {:induction false} BlocksAreBlocks(lines: seq<string>)
    ensures AreBlocks(Blocks(lines))
    decreases |lines|
  {
    if lines != [] { BlocksAreBlocks(lines[1..]); }
  }

  function Split(lines: seq<string>): seq<FileChange> {
    BlocksAreBlocks(lines);
    Changes(Blocks(lines))
  }

  /** What is still to come: the open block, completed, and the blocks after it. */
  function Pending(open: seq<string>, rest: seq<string>): seq<FileChange>
    requires open == [] || IsBlock(open)
  {
    (if open == [] then [] else ChangeOf(open + Lead(rest))) + Split(rest)
  }

  lemma {:induction false} PendingHeader(open: seq<string>, rest: seq<string>)
    requires (open == [] || IsBlock(open)) && rest != [] && IsHeader(rest[0])
    ensures Pending(open, rest) == (if open == [] then [] else ChangeOf(open)) + Pending([rest[0]], rest[1..])
  {
    assert open + Lead(rest) == open;
    var first, more := [rest[0]] + Lead(rest[1..]), Blocks(rest[1..]);
    BlocksAreBlocks(rest);
    assert ([first] + more)[1..] == more;
    assert [] + ChangeOf(first) == ChangeOf(first);
  }

  lemma {:induction false} PendingLine(open: seq<string>, rest: seq<string>)
    requires (open == [] || IsBlock(open)) && rest != [] && !IsHeader(rest[0])
    ensures Pending(open, rest) == Pending(if open == [] then [] else open + [rest[0]], rest[1..])
  {
    assert open + Lead(rest) == open + [rest[0]] + Lead(rest[1..]);
  }

  /** What the loop knows of the open block. */
  ghost predicate Holds(open: seq<string>, buf: string, path: Option<string>, kind: ChangeKind, binary: bool) {
    if open == [] then path.None? && kind == Modified && !binary
    else
      && IsBlock(open) && path == PathOf(open[0])
      && (path.Some? ==> buf == Flat(open) && kind == KindOf(open[1..]) && binary == IsBinary(open[1..]))
      && (path.None? ==> kind == Modified && !binary)
  }

  lemma {:induction false} FlatJoin(a: seq<string>, b: seq<string>)
    ensures Flat(a + b) == Flat(a) + Flat(b)
    decreases |a|
  {
    if a == [] {
      assert a + b == b;
    } else {
      assert (a + b)[1..] == a[1..] + b;
      FlatJoin(a[1..], b);
    }
  }

  lemma {:induction false} FlatOne(line: string)
    ensures Flat([line]) == line
  {
    assert [line][1..] == [];
  }

  lemma {:induction false} HoldsLine(open: seq<string>, buf: string, path: Option<string>, kind: ChangeKind, binary: bool, line: string)
    requires Holds(open, buf, path, kind, binary) && path.Some? && !IsHeader(line)
    ensures Holds(open + [line], buf + line, path, KindAfter(kind, line), binary || MarksBinary(line))
  {
    var next := open + [line];
    FlatJoin(open, [line]);
    FlatOne(line);
    assert next[1..] == open[1..] + [line];
    assert next[1..][..|open[1..]|] == open[1..];
    assert MarksBinary(line) ==> MarksBinary(next[1..][|open| - 1]);
    assert forall i :: 0 <= i < |open| - 1 ==> next[1..][i] == open[1..][i];
  }

  /** The change the open block gives, as the loop flushes it. */
  function Flushed(buf: string, path: Option<string>, kind: ChangeKind, binary: bool): seq<FileChange> {
    if path.None? then [] else [FileChange(path.value, kind, if binary then None else Some(buf))]
  }

  lemma {:induction false} FlushedIs(open: seq<string>, buf: string, path: Option<string>, kind: ChangeKind, binary: bool)
    requires Holds(open, buf, path, kind, binary)
    ensures Flushed(buf, path, kind, binary) == if open == [] then [] else ChangeOf(open)
  {
  }

  lemma {:induction false} HeaderTurn(open: seq<string>, buf: string, path: Option<string>, kind: ChangeKind, binary: bool, rest: seq<string>,
                   out: seq<FileChange>, all: seq<FileChange>)
    requires Holds(open, buf, path, kind, binary) && rest != [] && IsHeader(rest[0]) && all == out + Pending(open, rest)
    ensures all == out + Flushed(buf, path, kind, binary) + Pending([rest[0]], rest[1..])
    ensures Holds([rest[0]], rest[0], PathOf(rest[0]), Modified, false)
  {
    PendingHeader(open, rest);
    FlushedIs(open, buf, path, kind, binary);
    FlatOne(rest[0]);
  }

  lemma {:induction false} LastTurn(open: seq<string>, buf: string, path: Option<string>, kind: ChangeKind, binary: bool,
                 out: seq<FileChange>, all: seq<FileChange>)
    requires Holds(open, buf, path, kind, binary) && all == out + Pending(open, [])
    ensures all == out + Flushed(buf, path, kind, binary)
  {
    FlushedIs(open, buf, path, kind, binary);
    assert open + [] == open;
    assert Pending(open, []) == Flushed(buf, path, kind, binary);
  }

  method ParseGitDiff(blob: Option<string>) returns (out: seq<FileChange>)
    ensures out == if blob.None? then [] else Split(Lines(blob.value))
  {
    out := [];
    if blob.None? { return; }
    var lines := Lines(blob.value);
    var buf, path, kind, binary := "", None, Modified, false;
    ghost var open: seq<string> := [];
    ghost var all := Split(lines);
    var i := 0;
    assert lines[0..] == lines;
    assert all == Pending([], lines);
    while i < |lines|
      invariant i <= |lines| && Holds(open, buf, path, kind, binary)
      invariant all == out + Pending(open, lines[i..])
    {
      var line := lines[i];
      ghost var rest := lines[i..];
      assert rest[0] == line && rest[1..] == lines[i + 1..];
      if IsHeader(line) {
        HeaderTurn(open, buf, path, kind, binary, rest, out, all);
        out := out + Flushed(buf, path, kind, binary);
        path, kind, binary, buf := PathOf(line), Modified, false, line;
        open := [line];
      } else {
        PendingLine(open, rest);
        if path.Some? {
          HoldsLine(open, buf, path, kind, binary, line);
          binary := binary || MarksBinary(line);
          kind := KindAfter(kind, line);
          buf := buf + line;
        }
        open := if open == [] then [] else open + [line];
      }
      i := i + 1;
    }
    assert lines[|lines|..] == [];
    LastTurn(open, buf, path, kind, binary, out, all);
    out := out + Flushed(buf, path, kind, binary);
  }

  // ----- Putting the text together -----

  /** Text of the changes that have text, with a line break between two where the first lacks one. */
  function Unified(out: string, files: seq<FileChange>): string
    decreases |files|
  {
    if files == [] then out
    else if files[0].diff.None? || files[0].diff.value == "" then Unified(out, files[1..])
    else Unified(Glued(out, files[0].diff.value), files[1..])
  }

  function Glued(out: string, text: string): string {
    if out != "" && !Ended(out) then out + "\n" + text else out + text
  }

  method UnifiedText(files: seq<FileChange>) returns (out: string)
    ensures out == Unified("", files)
  {
    out := "";
    var i := 0;
    assert files[0..] == files;
    while i < |files|
      invariant i <= |files| && Unified(out, files[i..]) == Unified("", files)
    {
      assert files[i..][1..] == files[i + 1..];
      if files[i].diff.Some? && files[i].diff.value != "" {
        if out != "" && !Ended(out) { out := out + "\n"; }
        out := out + files[i].diff.value;
      }
      i := i + 1;
    }
  }

  /** The text of a block that survives, or nothing. */
  function Survivor(block: seq<string>): string
    requires IsBlock(block)
  {
    if PathOf(block[0]).None? || IsBinary(block[1..]) then "" else Flat(block)
  }

  function Survivors(blocks: seq<seq<string>>): string
    requires AreBlocks(blocks)
  {
    if blocks == [] then "" else Survivor(blocks[0]) + Survivors(blocks[1..])
  }

  /** Every block but the last ends with a line break. */
  predicate EndedBlocks(blocks: seq<seq<string>>) {
    forall i :: 0 <= i < |blocks| ==> WellLined(blocks[i]) && (i < |blocks| - 1 ==> Ended(Flat(blocks[i])))
  }

  /** The change of one block adds the text of the block, if it survives. */
  lemma {:induction false} OneSurvivor(out: string, block: seq<string>, rest: seq<FileChange>)
    requires IsBlock(block) && (out == "" || Ended(out))
    ensures Unified(out, ChangeOf(block) + rest) == Unified(out + Survivor(block), rest)
  {
    BlockText(block);
    if ChangeOf(block) == [] {
      assert [] + rest == rest && out + "" == out;
    } else {
      assert (ChangeOf(block) + rest)[1..] == rest;
      assert out + "" == out;
    }
  }

  lemma {:induction false} FirstSurvivor(out: string, blocks: seq<seq<string>>)
    requires blocks != [] && AreBlocks(blocks) && (out == "" || Ended(out))
    ensures AreBlocks(blocks[1..])
    ensures Unified(out, Changes(blocks)) == Unified(out + Survivor(blocks[0]), Changes(blocks[1..]))
    ensures Survivors(blocks) == Survivor(blocks[0]) + Survivors(blocks[1..])
  {
    OneSurvivor(out, blocks[0], Changes(blocks[1..]));
  }

  lemma {:induction false} Regroup(a: string, b: string, c: string)
    ensures a + b + c == a + (b + c)
  {
  }

  lemma {:induction false} UnifiedIsSurvivors(out: string, blocks: seq<seq<string>>)
    requires AreBlocks(blocks) && EndedBlocks(blocks) && (blocks == [] || out == "" || Ended(out))
    ensures Unified(out, Changes(blocks)) == out + Survivors(blocks)
    decreases |blocks|
  {
    if blocks == [] {
      assert out + "" == out;
    } else {
      FirstSurvivor(out, blocks);
      EndedNext(out, blocks);
      var next, rest := out + Survivor(blocks[0]), blocks[1..];
      UnifiedIsSurvivors(next, rest);
      Regroup(out, Survivor(blocks[0]), Survivors(rest));
    }
  }

  lemma {:induction false} EndedNext(out: string, blocks: seq<seq<string>>)
    requires blocks != [] && AreBlocks(blocks) && EndedBlocks(blocks) && (out == "" || Ended(out))
    ensures EndedBlocks(blocks[1..])
    ensures blocks[1..] == [] || out + Survivor(blocks[0]) == "" || Ended(out + Survivor(blocks[0]))
  {
    assert forall i :: 0 <= i < |blocks[1..]| ==> blocks[1..][i] == blocks[i + 1];
    assert out + "" == out;
  }

  lemma {:induction false} BlockText(block: seq<string>)
    requires IsBlock(block)
    ensures Flat(block) != ""
  {
  }

  lemma {:induction false} LeadWellLined(lines: seq<string>)
    requires WellLined(lines)
    ensures WellLined(Lead(lines))
    ensures |Lead(lines)| < |lines| ==> forall i :: 0 <= i < |Lead(lines)| ==> Ended(Lead(lines)[i])
    ensures |Lead(lines)| <= |lines| && (|Lead(lines)| < |lines| <==> Blocks(lines) != [])
    decreases |lines|
  {
    if lines != [] && !IsHeader(lines[0]) { LeadWellLined(lines[1..]); }
  }

  lemma {:induction false} EndedFlat(lines: seq<string>)
    requires lines != [] && forall i :: 0 <= i < |lines| ==> Ended(lines[i])
    ensures Ended(Flat(lines))
    decreases |lines|
  {
    if |lines| == 1 { FlatOne(lines[0]); } else { EndedFlat(lines[1..]); }
  }

  lemma {:induction false} BlocksEnded(lines: seq<string>)
    requires WellLined(lines)
    ensures EndedBlocks(Blocks(lines))
    decreases |lines|
  {
    if lines != [] {
      BlocksEnded(lines[1..]);
      LeadWellLined(lines[1..]);
      if IsHeader(lines[0]) && Blocks(lines[1..]) != [] {
        EndedFlat([lines[0]] + Lead(lines[1..]));
      }
    }
  }

  /** What splitting and rejoining gives, for any patch. */
  lemma {:induction false} SplitAndRejoin(text: string)
    ensures AreBlocks(Blocks(Lines(text)))
    ensures Unified("", Split(Lines(text))) == Survivors(Blocks(Lines(text)))
  {
    LinesRejoin(text);
    BlocksAreBlocks(Lines(text));
    BlocksEnded(Lines(text));
    UnifiedIsSurvivors("", Blocks(Lines(text)));
  }

  // ----- When nothing is dropped -----

  /** Lengths of what is dropped: blocks that do not survive, and the text before the first header. */
  function DroppedLength(blocks: seq<seq<string>>): nat
    requires AreBlocks(blocks)
  {
    if blocks == [] then 0
    else (if Survivor(blocks[0]) == "" then |Flat(blocks[0])| else 0) + DroppedLength(blocks[1..])
  }

  lemma {:induction false} NothingElseLost(lines: seq<string>)
    requires AreBlocks(Blocks(lines))
    ensures |Flat(lines)| == |Flat(Lead(lines))| + |Survivors(Blocks(lines))| + DroppedLength(Blocks(lines))
    decreases |lines|
  {
    if lines != [] {
      BlocksAreBlocks(lines[1..]);
      NothingElseLost(lines[1..]);
      if IsHeader(lines[0]) {
        var first, rest := [lines[0]] + Lead(lines[1..]), Blocks(lines[1..]);
        assert ([first] + rest)[1..] == rest;
        assert first[1..] == Lead(lines[1..]);
        BlockText(first);
      } else {
        assert ([lines[0]] + Lead(lines[1..]))[1..] == Lead(lines[1..]);
      }
    }
  }

  /** Every block names a path and is text. */
  predicate AllText(blocks: seq<seq<string>>) {
    forall i :: 0 <= i < |blocks| ==> IsBlock(blocks[i]) && PathOf(blocks[i][0]).Some? && !IsBinary(blocks[i][1..])
  }

  lemma {:induction false} NoneDropped(blocks: seq<seq<string>>)
    requires AreBlocks(blocks)
    ensures DroppedLength(blocks) == 0 <==> AllText(blocks)
    decreases |blocks|
  {
    if blocks != [] {
      NoneDropped(blocks[1..]);
      BlockText(blocks[0]);
      assert AllText(blocks) ==> AllText(blocks[1..]);
      assert AllText(blocks[1..]) ==> forall i :: 1 <= i < |blocks| ==> blocks[i] == blocks[1..][i - 1];
    }
  }

  lemma {:induction false} AllTextRest(blocks: seq<seq<string>>)
    requires blocks != [] && AllText(blocks)
    ensures AllText(blocks[1..]) && AreBlocks(blocks[1..]) && Survivor(blocks[0]) == Flat(blocks[0])
  {
    assert forall i :: 0 <= i < |blocks[1..]| ==> blocks[1..][i] == blocks[i + 1];
  }

  lemma {:induction false} AllSurvive(lines: seq<string>)
    requires AreBlocks(Blocks(lines)) && AllText(Blocks(lines))
    ensures Flat(lines) == Flat(Lead(lines)) + Survivors(Blocks(lines))
    decreases |lines|
  {
    if lines != [] {
      var rest := lines[1..];
      if IsHeader(lines[0]) {
        var first := [lines[0]] + Lead(rest);
        assert ([first] + Blocks(rest))[1..] == Blocks(rest);
        AllTextRest(Blocks(lines));
        AllSurvive(rest);
        assert first[1..] == Lead(rest);
        Regroup(lines[0], Flat(Lead(rest)), Survivors(Blocks(rest)));
      } else {
        AllSurvive(rest);
        assert ([lines[0]] + Lead(rest))[1..] == Lead(rest);
        Regroup(lines[0], Flat(Lead(rest)), Survivors(Blocks(rest)));
      }
    }
  }

  /**
   Splitting a patch and joining the text again gives the patch back exactly when it starts with a
   header, every header names a second path, and no block is binary.
   */
  lemma {:induction false} IdentityIff(text: string)
    ensures Unified("", Split(Lines(text))) == text <==>
            (text == "" || IsHeader(Lines(text)[0])) && AllText(Blocks(Lines(text)))
  {
    var lines := Lines(text);
    SplitAndRejoin(text);
    LinesRejoin(text);
    NothingElseLost(lines);
    NoneDropped(Blocks(lines));
    if AllText(Blocks(lines)) { AllSurvive(lines); }
    if text != "" && !IsHeader(lines[0]) { assert lines[0] != ""; }
  }
}
