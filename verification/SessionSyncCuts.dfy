/**
 Syncing a log whose last line is still being written. The next sync reads on behind what it
 has, so the line is never read as a whole: the tables are those of a full parse, for every
 content of the lines, exactly when the file had ended with a line break or has not grown.
 */
module SessionSyncCuts {
  import opened Wrappers
  import opened SessionSync
  import opened SessionSyncRuns

  /** What a sync sees of a file that does not change under it. */
  function LookAt(content: seq<Byte>, mtime: int): Look {
    Look(false, |content|, mtime, |content|, mtime, content)
  }

  /** The database after syncing a file first as `before` and then as `content`. */
  function TwoSyncs(decode: Decoding, before: seq<Byte>, first: int, content: seq<Byte>, second: int): (Tables, Option<Progress>) {
    var (t, p) := Synced(decode, NO_TABLES, None, LookAt(before, first));
    Synced(decode, t, p, LookAt(content, second))
  }

  /** The second sync rebuilds, skips or reads on, by whether the file has grown. */
  lemma {:induction false} SecondSync(decode: Decoding, before: seq<Byte>, first: int, content: seq<Byte>, second: int)
    requires before <= content
    ensures TwoSyncs(decode, before, first, content, second).0 ==
            if before == content then Full(decode, content)
            else Written(Full(decode, before), Parsed(decode, content, |before|, |Lines(before)|), false)
  {
    assert before[0..] == before && content[0..] == content;
  }

  // ----- Which lines give a row -----

  /** A log in which one line alone is a message of the user. */
  function Only(line: seq<Byte>): Decoding {
    (l: seq<Byte>) => if l == line then User(Some("text")) else Noise
  }

  predicate RowAt(line: seq<Byte>, seqNo: nat, lines: seq<seq<Byte>>, n: nat) {
    seqNo <= n < seqNo + |lines| && lines[n - seqNo] == line
  }

  lemma {:induction false} RowsOf(line: seq<Byte>, m: map<nat, string>, r: Records, seqNo: nat, lines: seq<seq<Byte>>, n: nat)
    ensures n in PutAll(m, ParsedFrom(Only(line), r, seqNo, lines).user) <==> n in PutAll(m, r.user) || RowAt(line, seqNo, lines, n)
    decreases |lines|
  {
    if lines != [] {
      var next := Ingested(r, seqNo, Only(line)(lines[0]));
      RowsOf(line, m, next, seqNo + 1, lines[1..], n);
      if lines[0] == line {
        PutAllJoins(m, r.user, [(seqNo, "text")]);
        var none: seq<(nat, string)> := [];
        assert [(seqNo, "text")][1..] == none;
      }
      assert seqNo < n ==> (RowAt(line, seqNo, lines, n) <==> RowAt(line, seqNo + 1, lines[1..], n));
    }
  }

  // ----- The cut line -----

  predicate NoBreak(bytes: seq<Byte>) {
    NEWLINE !in bytes
  }

  /** Where the last, unfinished line begins. */
  lemma {:induction false} LastLineStart(before: seq<Byte>) returns (n: nat)
    ensures n <= |before| && Complete(before[..n]) && NoBreak(before[n..])
    decreases |before|
  {
    if Complete(before) {
      n := |before|;
      assert before[..n] == before;
    } else {
      var init := before[..|before| - 1];
      n := LastLineStart(init);
      assert before[..n] == init[..n];
      assert before[n..] == init[n..] + [before[|before| - 1]];
    }
  }

  lemma {:induction false} UnbrokenLine(tail: seq<Byte>, more: seq<Byte>)
    requires NoBreak(tail) && tail != []
    ensures LineLength(tail + more) == |tail| + (if more == [] then 0 else LineLength(more))
    decreases |tail|
  {
    if |tail| == 1 {
      assert (tail + more)[1..] == more;
    } else {
      assert (tail + more)[1..] == tail[1..] + more;
      UnbrokenLine(tail[1..], more);
    }
  }

  /** A line in two pieces is two lines to two readers, and one line to one. */
  lemma {:induction false} CutInTwo(tail: seq<Byte>, more: seq<Byte>)
    requires NoBreak(tail) && tail != [] && more != []
    ensures Lines(tail) == [tail]
    ensures Lines(tail + more) != [] && Lines(tail + more)[0] == tail + more[..LineLength(more)]
  {
    UnbrokenLine(tail, []);
    assert tail + [] == tail && tail[..|tail|] == tail && tail[|tail|..] == [];
    UnbrokenLine(tail, more);
    var n := LineLength(more);
    assert (tail + more)[..|tail| + n] == tail + more[..n];
  }

  /** The file's own line at the cut, and the piece of it that was read first. */
  lemma {:induction false} LineAtCut(before: seq<Byte>, content: seq<Byte>) returns (k: nat, whole: seq<Byte>)
    requires before < content && !Complete(before)
    ensures |Lines(before)| == k + 1 && k < |Lines(content)|
    ensures Lines(content)[k] == whole && Lines(before)[k] != whole
  {
    var n := LastLineStart(before);
    var done, tail, more := before[..n], before[n..], content[|before|..];
    k, whole := |Lines(done)|, tail + more[..LineLength(more)];
    assert before == done + tail && content == done + (tail + more);
    LinesJoin(done, tail);
    LinesJoin(done, tail + more);
    CutInTwo(tail, more);
    assert |whole| > |tail|;
  }

  /** Some log loses the line that was cut. */
  lemma {:induction false} CutLosesLine(before: seq<Byte>, content: seq<Byte>) returns (decode: Decoding)
    requires before < content && !Complete(before)
    ensures Written(Full(decode, before), Parsed(decode, content, |before|, |Lines(before)|), false) != Full(decode, content)
  {
    var k, whole := LineAtCut(before, content);
    decode := Only(whole);
    assert content[0..] == content && before[0..] == before;
    RowsOf(whole, map[], NO_RECORDS, 0, Lines(content), k);
    RowsOf(whole, map[], NO_RECORDS, 0, Lines(before), k);
    RowsOf(whole, Full(decode, before).user, NO_RECORDS, k + 1, Lines(content[|before|..]), k);
  }

  /**
   Two syncs of a growing log leave the tables of one full parse, whatever its lines mean, if
   and only if the first one met a file ending with a line break, or nothing has been added.
   */
  lemma {:induction false} TwoSyncsAreFullIff(before: seq<Byte>, first: int, content: seq<Byte>, second: int)
    requires before <= content
    ensures (forall decode: Decoding :: TwoSyncs(decode, before, first, content, second).0 == Full(decode, content)) <==>
            Complete(before) || before == content
  {
    forall decode: Decoding
      ensures before == content ==> TwoSyncs(decode, before, first, content, second).0 == Full(decode, content)
      ensures Complete(before) ==> TwoSyncs(decode, before, first, content, second).0 == Full(decode, content)
    {
      SecondSync(decode, before, first, content, second);
      if Complete(before) { IncrementIsFull(decode, before, content); }
    }
    if !Complete(before) && before != content {
      var decode := CutLosesLine(before, content);
      SecondSync(decode, before, first, content, second);
      assert TwoSyncs(decode, before, first, content, second).0 != Full(decode, content);
    }
  }

  lemma {:induction false} RowsAreTexts(line: seq<Byte>, r: Records, seqNo: nat, lines: seq<seq<Byte>>)
    requires forall row :: row in r.user ==> row.1 == "text"
    ensures forall row :: row in ParsedFrom(Only(line), r, seqNo, lines).user ==> row.1 == "text"
    decreases |lines|
  {
    if lines != [] { RowsAreTexts(line, Ingested(r, seqNo, Only(line)(lines[0])), seqNo + 1, lines[1..]); }
  }

  lemma {:induction false} PutTexts(m: map<nat, string>, rows: seq<(nat, string)>)
    requires (forall n :: n in m ==> m[n] == "text") && forall row :: row in rows ==> row.1 == "text"
    ensures forall n :: n in PutAll(m, rows) ==> PutAll(m, rows)[n] == "text"
    decreases |rows|
  {
    if rows != [] { PutTexts(m[rows[0].0 := rows[0].1], rows[1..]); }
  }

  const CUT: seq<Byte> := [65]
  const REST: seq<Byte> := [66, NEWLINE]
  const WHOLE: seq<Byte> := [65, 66, NEWLINE]

  lemma {:induction false} LinesHere()
    ensures Lines(CUT) == [CUT] && Lines(REST) == [REST] && Lines(WHOLE) == [WHOLE]
    ensures WHOLE[|CUT|..] == REST
  {
    assert CUT + REST == WHOLE;
    CutInTwo(CUT, REST);
    UnbrokenLine(CUT, REST);
    assert REST[1..] == [NEWLINE] && LineLength(REST) == 2;
    assert REST[..2] == REST && REST[2..] == [] && WHOLE[..3] == WHOLE && WHOLE[3..] == [];
  }

  /** `AB` and a line break, first seen as `A`: the message in that line never reaches the tables. */
  lemma {:induction false} CutLineIsLost(first: int, second: int)
    ensures Full(Only(WHOLE), WHOLE).user == map[0 := "text"]
    ensures TwoSyncs(Only(WHOLE), CUT, first, WHOLE, second).0.user == map[]
  {
    LinesHere();
    SecondSync(Only(WHOLE), CUT, first, WHOLE, second);
    assert WHOLE[0..] == WHOLE && CUT[0..] == CUT;
    var full := Full(Only(WHOLE), WHOLE).user;
    forall n: nat ensures n in full <==> n == 0 {
      RowsOf(WHOLE, map[], NO_RECORDS, 0, Lines(WHOLE), n);
    }
    RowsAreTexts(WHOLE, NO_RECORDS, 0, Lines(WHOLE));
    PutTexts(map[], Parsed(Only(WHOLE), WHOLE, 0, 0).user);
    forall n: nat ensures n !in TwoSyncs(Only(WHOLE), CUT, first, WHOLE, second).0.user {
      RowsOf(WHOLE, map[], NO_RECORDS, 0, Lines(CUT), n);
      RowsOf(WHOLE, Full(Only(WHOLE), CUT).user, NO_RECORDS, 1, Lines(REST), n);
    }
  }
}
