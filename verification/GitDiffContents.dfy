/** What each change of a git patch is, said of the lines of its own block. */
module GitDiffContents {
  import opened Wrappers
  import opened GitDiff

  // ----- Blocks -----

  function Joined(blocks: seq<seq<string>>): seq<string> {
    if blocks == [] then [] else blocks[0] + Joined(blocks[1..])
  }

  predicate NoHeader(lines: seq<string>) {
    forall i :: 0 <= i < |lines| ==> !IsHeader(lines[i])
  }

  /** A header with the lines below it up to the next header. */
  predicate OneHeader(block: seq<string>) {
    IsBlock(block) && NoHeader(block[1..])
  }

  lemma {:induction false} LeadHasNone(lines: seq<string>)
    ensures NoHeader(Lead(lines))
    decreases |lines|
  {
    if lines != [] && !IsHeader(lines[0]) { LeadHasNone(lines[1..]); }
  }

  lemma {:induction false} BlocksJoin(lines: seq<string>)
    ensures Lead(lines) + Joined(Blocks(lines)) == lines
    decreases |lines|
  {
    if lines != [] {
      var rest := lines[1..];
      BlocksJoin(rest);
      assert lines == [lines[0]] + (Lead(rest) + Joined(Blocks(rest)));
      if IsHeader(lines[0]) {
        var first := [lines[0]] + Lead(rest);
        assert ([first] + Blocks(rest))[1..] == Blocks(rest);
        assert Joined(Blocks(lines)) == first + Joined(Blocks(rest));
      }
    }
  }

  lemma {:induction false} BlocksHaveOne(lines: seq<string>)
    ensures forall k :: 0 <= k < |Blocks(lines)| ==> OneHeader(Blocks(lines)[k])
    decreases |lines|
  {
    if lines != [] {
      var rest := lines[1..];
      BlocksHaveOne(rest);
      LeadHasNone(rest);
      if IsHeader(lines[0]) { assert ([lines[0]] + Lead(rest))[1..] == Lead(rest); }
    }
  }

  /** The patch is its lead and its blocks, one after the other, and has a block for each header. */
  lemma {:induction false} BlocksCover(lines: seq<string>)
    ensures Lead(lines) + Joined(Blocks(lines)) == lines && NoHeader(Lead(lines))
    ensures forall k :: 0 <= k < |Blocks(lines)| ==> OneHeader(Blocks(lines)[k])
  {
    LeadHasNone(lines);
    BlocksJoin(lines);
    BlocksHaveOne(lines);
  }

  // ----- The path of a change -----

  predicate AllBreaks(s: string) {
    forall i :: 0 <= i < |s| ==> s[i] == '\n'
  }

  /** The header is two paths with a space between them, the first without a space in it, and its line break. */
  predicate TwoPaths(header: string, a: string, b: string, breaks: string) {
    && header == "diff --git " + a + " " + b + breaks
    && ' ' !in a && AllBreaks(breaks) && !Ended(b)
  }

  /** The second path of a header, without the `b/` before it. */
  predicate Names(b: string, path: string) {
    b == "b/" + path || (b == path && !StartsWith(b, "b/"))
  }

  lemma {:induction false} SpaceIs(s: string)
    ensures ' ' !in s[..Space(s)] && (Space(s) < |s| ==> s[Space(s)] == ' ')
    decreases |s|
  {
    if s != "" && s[0] != ' ' {
      SpaceIs(s[1..]);
      assert s[..Space(s)] == [s[0]] + s[1..][..Space(s[1..])];
    }
  }

  lemma {:induction false} FirstSpace(a: string, b: string)
    requires ' ' !in a
    ensures Space(a + " " + b) == |a|
    decreases |a|
  {
    var s := a + " " + b;
    if a == "" {
      assert s[0] == ' ';
    } else {
      assert s[0] == a[0] && a[0] in a;
      assert s[1..] == a[1..] + " " + b;
      FirstSpace(a[1..], b);
    }
  }

  lemma {:induction false} TrimIs(s: string) returns (breaks: string)
    ensures s == TrimBreaks(s) + breaks && AllBreaks(breaks) && !Ended(TrimBreaks(s))
    decreases |s|
  {
    if Ended(s) {
      var n := |s| - 1;
      var more := TrimIs(s[..n]);
      breaks := more + [s[n]];
      assert s == s[..n] + [s[n]];
    } else {
      breaks := "";
    }
  }

  lemma {:induction false} TrimEnds(s: string, breaks: string)
    requires !Ended(s) && AllBreaks(breaks)
    ensures TrimBreaks(s + breaks) == s
    decreases |breaks|
  {
    if breaks == "" {
      assert s + breaks == s;
    } else {
      var n := |breaks| - 1;
      assert (s + breaks)[..|s| + n] == s + breaks[..n];
      TrimEnds(s, breaks[..n]);
    }
  }

  lemma {:induction false} Behind(header: string)
    requires IsHeader(header)
    ensures header == "diff --git " + header[|HEADER|..]
  {
  }

  /** A header names the path when it has two paths and the second is that one. */
  lemma {:induction false} NamedIsPath(header: string, a: string, b: string, breaks: string, path: string)
    requires TwoPaths(header, a, b, breaks) && Names(b, path)
    ensures IsHeader(header) && PathOf(header) == Some(path)
  {
    var rest := a + " " + b;
    assert header[|HEADER|..] == rest + breaks;
    if b == "" {
      assert rest[|rest| - 1] == ' ';
    } else {
      assert rest[|rest| - 1] == b[|b| - 1];
    }
    TrimEnds(rest, breaks);
    FirstSpace(a, b);
    assert rest[|a| + 1..] == b;
    if b == "b/" + path { assert b[..2] == "b/" && b[2..] == path; }
  }

  lemma {:induction false} SplitAtSpace(s: string, n: nat)
    requires n < |s| && s[n] == ' ' && !Ended(s)
    ensures s == s[..n] + " " + s[n + 1..] && !Ended(s[n + 1..])
  {
    if n + 1 < |s| { assert s[n + 1..][|s| - n - 2] == s[|s| - 1]; }
  }

  lemma {:induction false} Spelled(header: string, rest: string, a: string, b: string, breaks: string)
    requires header == "diff --git " + (rest + breaks) && rest == a + " " + b
    ensures header == "diff --git " + a + " " + b + breaks
  {
  }

  lemma {:induction false} PathIsNamed(header: string) returns (a: string, b: string, breaks: string)
    requires IsHeader(header) && PathOf(header).Some?
    ensures TwoPaths(header, a, b, breaks) && Names(b, PathOf(header).value)
  {
    Behind(header);
    breaks := TrimIs(header[|HEADER|..]);
    var rest := TrimBreaks(header[|HEADER|..]);
    SpaceIs(rest);
    var n := Space(rest);
    a, b := rest[..n], rest[n + 1..];
    SplitAtSpace(rest, n);
    Spelled(header, rest, a, b, breaks);
    if StartsWith(b, "b/") { assert b == "b/" + b[2..]; }
  }

  /** A header gives a change exactly when it has two paths, and the path of the change is the second. */
  lemma {:induction false} PathTold(header: string, path: string)
    requires IsHeader(header)
    ensures PathOf(header) == Some(path) <==> exists a, b, breaks :: TwoPaths(header, a, b, breaks) && Names(b, path)
  {
    if PathOf(header) == Some(path) {
      var a, b, breaks := PathIsNamed(header);
      assert TwoPaths(header, a, b, breaks) && Names(b, path);
    }
    if a, b, breaks :| TwoPaths(header, a, b, breaks) && Names(b, path) {
      NamedIsPath(header, a, b, breaks, path);
    }
  }

  // ----- The kind of a change -----

  predicate NewFile(line: string) {
    StartsWith(line, "new file mode ")
  }

  predicate DeletedFile(line: string) {
    StartsWith(line, "deleted file mode ")
  }

  /** The last mode line says what the change is; without one the file is modified. */
  predicate KindTold(lines: seq<string>, kind: ChangeKind) {
    match kind
    case Added => exists i :: 0 <= i < |lines| && NewFile(lines[i]) && forall k :: i < k < |lines| ==> !DeletedFile(lines[k])
    case Removed => exists i :: 0 <= i < |lines| && DeletedFile(lines[i]) && forall k :: i < k < |lines| ==> !NewFile(lines[k])
    case Modified => forall i :: 0 <= i < |lines| ==> !NewFile(lines[i]) && !DeletedFile(lines[i])
  }

  lemma {:induction false} OneMode(line: string)
    ensures !(NewFile(line) && DeletedFile(line))
    ensures MarksBinary(line) <==> StartsWith(line, "Binary files ") || StartsWith(line, "GIT binary patch")
  {
    assert NewFile(line) ==> line[0] == 'n';
    assert DeletedFile(line) ==> line[0] == 'd';
    assert StartsWith(line, "Binary files ") ==> line[0] == 'B';
    assert StartsWith(line, "GIT binary patch") ==> line[0] == 'G';
  }

  lemma {:induction false} KindStays(init: seq<string>, line: string, kind: ChangeKind)
    requires KindTold(init, kind) && !NewFile(line) && !DeletedFile(line)
    ensures KindTold(init + [line], kind)
  {
    var lines := init + [line];
    assert lines[|init|] == line && forall k :: 0 <= k < |init| ==> lines[k] == init[k];
    match kind
    case Added =>
      var i :| 0 <= i < |init| && NewFile(init[i]) && forall k :: i < k < |init| ==> !DeletedFile(init[k]);
      assert NewFile(lines[i]);
    case Removed =>
      var i :| 0 <= i < |init| && DeletedFile(init[i]) && forall k :: i < k < |init| ==> !NewFile(init[k]);
      assert DeletedFile(lines[i]);
    case Modified =>
  }

  lemma {:induction false} KindIs(lines: seq<string>)
    ensures KindTold(lines, KindOf(lines))
    decreases |lines|
  {
    if lines != [] {
      var n := |lines| - 1;
      KindIs(lines[..n]);
      OneMode(lines[n]);
      assert lines == lines[..n] + [lines[n]];
      if NewFile(lines[n]) || DeletedFile(lines[n]) {
        assert lines[n] == lines[|lines| - 1];
      } else {
        KindStays(lines[..n], lines[n], KindOf(lines[..n]));
      }
    }
  }

  // ----- The change of a block -----

  predicate HasBinaryLine(lines: seq<string>) {
    exists i :: 0 <= i < |lines| && (StartsWith(lines[i], "Binary files ") || StartsWith(lines[i], "GIT binary patch"))
  }

  lemma {:induction false} BinaryTold(lines: seq<string>)
    ensures IsBinary(lines) <==> HasBinaryLine(lines)
  {
    if IsBinary(lines) {
      var i :| 0 <= i < |lines| && MarksBinary(lines[i]);
      OneMode(lines[i]);
    }
    if HasBinaryLine(lines) {
      var i :| 0 <= i < |lines| && (StartsWith(lines[i], "Binary files ") || StartsWith(lines[i], "GIT binary patch"));
      OneMode(lines[i]);
    }
  }

  /** What a block's change is: its second path, what its last mode line says, and its text unless it is binary. */
  ghost predicate Describes(block: seq<string>, c: FileChange) {
    && block != [] && (exists a, b, breaks :: TwoPaths(block[0], a, b, breaks) && Names(b, c.path))
    && KindTold(block[1..], c.op)
    && c.diff == if HasBinaryLine(block[1..]) then None else Some(Flat(block))
  }

  /** The changes of the patch, in order: one for each block whose header has two paths. */
  ghost predicate Lists(blocks: seq<seq<string>>, changes: seq<FileChange>) {
    if blocks == [] then changes == []
    else if blocks[0] != [] && exists a, b, breaks :: TwoPaths(blocks[0][0], a, b, breaks) then
      changes != [] && Describes(blocks[0], changes[0]) && Lists(blocks[1..], changes[1..])
    else Lists(blocks[1..], changes)
  }

  lemma {:induction false} ChangeTold(block: seq<string>)
    requires IsBlock(block)
    ensures var c := ChangeOf(block);
            if exists a, b, breaks :: TwoPaths(block[0], a, b, breaks) then |c| == 1 && Describes(block, c[0]) else c == []
  {
    if a, b, breaks :| TwoPaths(block[0], a, b, breaks) {
      var path := if StartsWith(b, "b/") then b[2..] else b;
      if StartsWith(b, "b/") { assert b == "b/" + path; }
      NamedIsPath(block[0], a, b, breaks, path);
      assert TwoPaths(block[0], a, b, breaks) && Names(b, path);
      KindIs(block[1..]);
      BinaryTold(block[1..]);
    } else if PathOf(block[0]).Some? {
      var a, b, breaks := PathIsNamed(block[0]);
    }
  }

  lemma {:induction false} ChangesListed(blocks: seq<seq<string>>)
    requires AreBlocks(blocks)
    ensures Lists(blocks, Changes(blocks))
    decreases |blocks|
  {
    if blocks != [] {
      ChangeTold(blocks[0]);
      ChangesListed(blocks[1..]);
      var c, rest := ChangeOf(blocks[0]), Changes(blocks[1..]);
      if c == [] { assert c + rest == rest; } else { assert (c + rest)[0] == c[0] && (c + rest)[1..] == rest; }
    }
  }

  /** What the splitter gives for any patch, over the blocks that make it up. */
  lemma {:induction false} SplitTold(text: string)
    ensures var lines := Lines(text);
            && Lists(Blocks(lines), Split(lines))
            && Lead(lines) + Joined(Blocks(lines)) == lines && NoHeader(Lead(lines))
            && forall k :: 0 <= k < |Blocks(lines)| ==> OneHeader(Blocks(lines)[k])
  {
    BlocksAreBlocks(Lines(text));
    BlocksCover(Lines(text));
    ChangesListed(Blocks(Lines(text)));
  }
}
