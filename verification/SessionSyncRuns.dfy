/** Any sequence of appends and syncs leaves the tables one full parse of the file would give. */
module SessionSyncRuns {
  import opened Wrappers
  import opened SessionSync

  /** Empty, or ending with a line break. */
  predicate Complete(content: seq<Byte>) {
    content == [] || content[|content| - 1] == NEWLINE
  }

  // ----- Lines and records of two pieces -----

  lemma {:induction false} LineLengthJoin(a: seq<Byte>, b: seq<Byte>)
    requires a != [] && Complete(a)
    ensures LineLength(a + b) == LineLength(a) && Complete(a[LineLength(a)..])
    decreases |a|
  {
    if a[0] != NEWLINE {
      assert |a| > 1;
      assert (a + b)[1..] == a[1..] + b;
      LineLengthJoin(a[1..], b);
      assert a[LineLength(a)..] == a[1..][LineLength(a[1..])..];
    }
  }

  lemma {:induction false} FirstLine(a: seq<Byte>, b: seq<Byte>)
    requires a != [] && Complete(a)
    ensures var n := LineLength(a);
            Lines(a + b) == [a[..n]] + Lines(a[n..] + b) && Lines(a) == [a[..n]] + Lines(a[n..]) && Complete(a[n..])
  {
    var n := LineLength(a);
    LineLengthJoin(a, b);
    assert (a + b)[..n] == a[..n] && (a + b)[n..] == a[n..] + b;
  }

  lemma {:induction false} LinesJoin(a: seq<Byte>, b: seq<Byte>)
    requires Complete(a)
    ensures Lines(a + b) == Lines(a) + Lines(b)
    decreases |a|
  {
    if a == [] {
      assert a + b == b;
    } else {
      FirstLine(a, b);
      LinesJoin(a[LineLength(a)..], b);
    }
  }

  /** The records of two parses, one after the other. */
  function Joined(r: Records, s: Records): Records {
    Records(Coalesced(s.meta, r.meta), r.toolCalls + s.toolCalls, r.toolResults + s.toolResults, r.assistant + s.assistant,
            r.user + s.user, r.editCalls + s.editCalls, r.editResults + s.editResults, r.editSections + s.editSections)
  }

  lemma {:induction false} JoinedNothing(r: Records)
    ensures Joined(r, NO_RECORDS) == r && Joined(NO_RECORDS, r) == r
  {
  }

  lemma {:induction false} WithCallsJoins(r: Records, s: Records, seqNo: nat, stamp: int, calls: seq<ToolCall>)
    ensures WithCalls(Joined(r, s), seqNo, stamp, calls) == Joined(r, WithCalls(s, seqNo, stamp, calls))
    decreases |calls|
  {
    if calls != [] {
      var c := calls[0];
      var noted := s.(toolCalls := s.toolCalls + [((c.callId, seqNo), c.data)]);
      assert r.toolCalls + (s.toolCalls + [((c.callId, seqNo), c.data)]) == r.toolCalls + s.toolCalls + [((c.callId, seqNo), c.data)];
      if c.edit.None? {
        WithCallsJoins(r, noted, seqNo, stamp, calls[1..]);
      } else {
        var stub := EditStub(c.callId, seqNo, stamp, c.edit.value.length);
        var rows := SectionRows(c.callId, seqNo, c.edit.value.sections, 0);
        assert r.editCalls + (s.editCalls + [stub]) == r.editCalls + s.editCalls + [stub];
        assert r.editSections + (s.editSections + rows) == r.editSections + s.editSections + rows;
        WithCallsJoins(r, noted.(editCalls := s.editCalls + [stub], editSections := s.editSections + rows), seqNo, stamp, calls[1..]);
      }
    }
  }

  lemma {:induction false} IngestedJoins(r: Records, s: Records, seqNo: nat, e: Event)
    requires seqNo > 0
    ensures Ingested(Joined(r, s), seqNo, e) == Joined(r, Ingested(s, seqNo, e))
  {
    match e
    case Noise =>
    case Session(_) =>
    case Assistant(stamp, calls, blob) =>
      WithCallsJoins(r, s, seqNo, stamp, calls);
      var noted := WithCalls(s, seqNo, stamp, calls);
      if blob.Some? {
        assert r.assistant + (noted.assistant + [(seqNo, blob.value)]) == r.assistant + noted.assistant + [(seqNo, blob.value)];
      }
    case ToolResult(callId, data, edit) =>
      assert r.toolResults + (s.toolResults + [((callId, seqNo), data)]) == r.toolResults + s.toolResults + [((callId, seqNo), data)];
      if edit.Some? {
        assert r.editResults + (s.editResults + [EditOutcome(callId, edit.value)]) ==
               r.editResults + s.editResults + [EditOutcome(callId, edit.value)];
      }
    case User(text) =>
      if text.Some? { assert r.user + (s.user + [(seqNo, text.value)]) == r.user + s.user + [(seqNo, text.value)]; }
  }

  lemma {:induction false} ParsedJoins(decode: Decoding, r: Records, s: Records, seqNo: nat, lines: seq<seq<Byte>>)
    requires seqNo > 0
    ensures ParsedFrom(decode, Joined(r, s), seqNo, lines) == Joined(r, ParsedFrom(decode, s, seqNo, lines))
    decreases |lines|
  {
    if lines != [] {
      IngestedJoins(r, s, seqNo, decode(lines[0]));
      ParsedJoins(decode, r, Ingested(s, seqNo, decode(lines[0])), seqNo + 1, lines[1..]);
    }
  }

  lemma {:induction false} ParsedSplits(decode: Decoding, r: Records, seqNo: nat, a: seq<seq<Byte>>, b: seq<seq<Byte>>)
    ensures ParsedFrom(decode, r, seqNo, a + b) == ParsedFrom(decode, ParsedFrom(decode, r, seqNo, a), seqNo + |a|, b)
    decreases |a|
  {
    if a == [] {
      assert a + b == b;
    } else {
      assert (a + b)[1..] == a[1..] + b;
      ParsedSplits(decode, Ingested(r, seqNo, decode(a[0])), seqNo + 1, a[1..], b);
    }
  }

  lemma {:induction false} ReadOnFrom(decode: Decoding, first: Records, seqNo: nat, b: seq<seq<Byte>>)
    requires seqNo > 0 || first == NO_RECORDS
    ensures ParsedFrom(decode, first, seqNo, b) == Joined(first, ParsedFrom(decode, NO_RECORDS, seqNo, b))
  {
    if seqNo > 0 {
      JoinedNothing(first);
      ParsedJoins(decode, first, NO_RECORDS, seqNo, b);
    } else {
      JoinedNothing(ParsedFrom(decode, NO_RECORDS, seqNo, b));
    }
  }

  lemma {:induction false} ParsedNone(decode: Decoding, r: Records, seqNo: nat, a: seq<seq<Byte>>)
    requires a == []
    ensures ParsedFrom(decode, r, seqNo, a) == r
  {
  }

  /** Reading on after some lines adds to what they gave. */
  lemma {:induction false} ReadOn(decode: Decoding, a: seq<seq<Byte>>, b: seq<seq<Byte>>)
    ensures ParsedFrom(decode, NO_RECORDS, 0, a + b) ==
            Joined(ParsedFrom(decode, NO_RECORDS, 0, a), ParsedFrom(decode, NO_RECORDS, |a|, b))
  {
    var first := ParsedFrom(decode, NO_RECORDS, 0, a);
    if a == [] { ParsedNone(decode, NO_RECORDS, 0, a); }
    ParsedSplits(decode, NO_RECORDS, 0, a, b);
    ReadOnFrom(decode, first, |a|, b);
  }

  lemma {:induction false} LinesOn(before: seq<Byte>, content: seq<Byte>)
    requires before <= content && Complete(before)
    ensures Lines(content) == Lines(before) + Lines(content[|before|..])
  {
    assert content == before + content[|before|..];
    LinesJoin(before, content[|before|..]);
  }

  /** Parsing on from a complete prefix gives the records the whole file has beyond the prefix. */
  lemma {:induction false} ParsedOn(decode: Decoding, before: seq<Byte>, content: seq<Byte>)
    requires before <= content && Complete(before)
    ensures Parsed(decode, content, 0, 0) ==
            Joined(Parsed(decode, before, 0, 0), Parsed(decode, content, |before|, |Lines(before)|))
    ensures |Lines(content)| == |Lines(before)| + |Lines(content[|before|..])|
  {
    assert content[0..] == content && before[0..] == before;
    LinesOn(before, content);
    ReadOn(decode, Lines(before), Lines(content[|before|..]));
  }

  // ----- Writing two sets of records -----

  lemma {:induction false} PutAllJoins<K, V>(m: map<K, V>, a: seq<(K, V)>, b: seq<(K, V)>)
    ensures PutAll(PutAll(m, a), b) == PutAll(m, a + b)
    decreases |a|
  {
    if a == [] {
      assert a + b == b;
    } else {
      assert (a + b)[1..] == a[1..] + b;
      PutAllJoins(m[a[0].0 := a[0].1], a[1..], b);
    }
  }

  /** A call and an outcome of an edit meet in one row, whichever comes first. */
  lemma {:induction false} CallAndOutcomeCommute(m: map<CallId, EditRow>, s: EditStub, o: EditOutcome)
    ensures WithStub(WithOutcome(m, o), s) == WithOutcome(WithStub(m, s), o)
  {
  }

  lemma {:induction false} OutcomesThenStub(m: map<CallId, EditRow>, outcomes: seq<EditOutcome>, s: EditStub)
    ensures WithStub(WithOutcomes(m, outcomes), s) == WithOutcomes(WithStub(m, s), outcomes)
    decreases |outcomes|
  {
    if outcomes != [] {
      CallAndOutcomeCommute(m, s, outcomes[0]);
      OutcomesThenStub(WithOutcome(m, outcomes[0]), outcomes[1..], s);
    }
  }

  lemma {:induction false} OutcomesThenStubs(m: map<CallId, EditRow>, outcomes: seq<EditOutcome>, stubs: seq<EditStub>)
    ensures WithStubs(WithOutcomes(m, outcomes), stubs) == WithOutcomes(WithStubs(m, stubs), outcomes)
    decreases |stubs|
  {
    if stubs != [] {
      OutcomesThenStub(m, outcomes, stubs[0]);
      OutcomesThenStubs(WithStub(m, stubs[0]), outcomes, stubs[1..]);
    }
  }

  lemma {:induction false} StubsJoin(m: map<CallId, EditRow>, a: seq<EditStub>, b: seq<EditStub>)
    ensures WithStubs(WithStubs(m, a), b) == WithStubs(m, a + b)
    decreases |a|
  {
    if a == [] {
      assert a + b == b;
    } else {
      assert (a + b)[1..] == a[1..] + b;
      StubsJoin(WithStub(m, a[0]), a[1..], b);
    }
  }

  lemma {:induction false} OutcomesJoin(m: map<CallId, EditRow>, a: seq<EditOutcome>, b: seq<EditOutcome>)
    ensures WithOutcomes(WithOutcomes(m, a), b) == WithOutcomes(m, a + b)
    decreases |a|
  {
    if a == [] {
      assert a + b == b;
    } else {
      assert (a + b)[1..] == a[1..] + b;
      OutcomesJoin(WithOutcome(m, a[0]), a[1..], b);
    }
  }

  lemma {:induction false} EditsJoin(m: map<CallId, EditRow>, r: Records, s: Records)
    ensures WithOutcomes(WithStubs(WithOutcomes(WithStubs(m, r.editCalls), r.editResults), s.editCalls), s.editResults) ==
            WithOutcomes(WithStubs(m, r.editCalls + s.editCalls), r.editResults + s.editResults)
  {
    OutcomesThenStubs(WithStubs(m, r.editCalls), r.editResults, s.editCalls);
    StubsJoin(m, r.editCalls, s.editCalls);
    OutcomesJoin(WithStubs(m, r.editCalls + s.editCalls), r.editResults, s.editResults);
  }

  /** Two syncs write what one sync of all their records would. */
  lemma {:induction false} WrittenJoins(t: Tables, r: Records, s: Records)
    ensures Written(Written(t, r, false), s, false) == Written(t, Joined(r, s), false)
  {
    PutAllJoins(t.toolCalls, r.toolCalls, s.toolCalls);
    PutAllJoins(t.toolResults, r.toolResults, s.toolResults);
    PutAllJoins(t.assistant, r.assistant, s.assistant);
    PutAllJoins(t.user, r.user, s.user);
    PutAllJoins(t.editSections, r.editSections, s.editSections);
    EditsJoin(t.editCalls, r, s);
  }

  // ----- The session header -----

  lemma {:induction false} WithCallsMeta(r: Records, seqNo: nat, stamp: int, calls: seq<ToolCall>)
    ensures WithCalls(r, seqNo, stamp, calls).meta == r.meta
    decreases |calls|
  {
    if calls != [] {
      var c := calls[0];
      var noted := r.(toolCalls := r.toolCalls + [((c.callId, seqNo), c.data)]);
      if c.edit.None? {
        WithCallsMeta(noted, seqNo, stamp, calls[1..]);
      } else {
        WithCallsMeta(
          noted.(editCalls := noted.editCalls + [EditStub(c.callId, seqNo, stamp, c.edit.value.length)],
                 editSections := noted.editSections + SectionRows(c.callId, seqNo, c.edit.value.sections, 0)),
          seqNo, stamp, calls[1..]);
      }
    }
  }

  lemma {:induction false} IngestedMeta(r: Records, seqNo: nat, e: Event)
    ensures Ingested(r, seqNo, e).meta == if e.Session? && seqNo == 0 then e.meta else r.meta
  {
    if e.Assistant? { WithCallsMeta(r, seqNo, e.stamp, e.calls); }
  }

  lemma {:induction false} LaterMeta(decode: Decoding, r: Records, seqNo: nat, lines: seq<seq<Byte>>)
    requires seqNo > 0
    ensures ParsedFrom(decode, r, seqNo, lines).meta == r.meta
    decreases |lines|
  {
    if lines != [] {
      IngestedMeta(r, seqNo, decode(lines[0]));
      LaterMeta(decode, Ingested(r, seqNo, decode(lines[0])), seqNo + 1, lines[1..]);
    }
  }

  /** The header comes from the first line alone, so a prefix with a line in it has it already. */
  lemma {:induction false} SameHeader(decode: Decoding, before: seq<Byte>, content: seq<Byte>)
    requires before <= content && Complete(before)
    ensures Coalesced(Parsed(decode, content, 0, 0).meta, Parsed(decode, before, 0, 0).meta) == Parsed(decode, content, 0, 0).meta
  {
    ParsedOn(decode, before, content);
    if before != [] {
      LaterMeta(decode, NO_RECORDS, |Lines(before)|, Lines(content[|before|..]));
    }
  }

  // ----- Runs -----

  /** The tables one parse of the whole file fills. */
  function Full(decode: Decoding, content: seq<Byte>): Tables {
    Written(NO_TABLES, Parsed(decode, content, 0, 0), true)
  }

  /** A sync that starts where the last one ended. */
  lemma {:induction false} IncrementIsFull(decode: Decoding, before: seq<Byte>, content: seq<Byte>)
    requires before <= content && Complete(before)
    ensures Written(Full(decode, before), Parsed(decode, content, |before|, |Lines(before)|), false) == Full(decode, content)
  {
    ParsedOn(decode, before, content);
    WrittenJoins(NO_TABLES, Parsed(decode, before, 0, 0), Parsed(decode, content, |before|, |Lines(before)|));
  }

  /** A rebuild over tables of an earlier state of the file. */
  lemma {:induction false} RebuildIsFull(decode: Decoding, before: seq<Byte>, content: seq<Byte>)
    requires before <= content && Complete(before)
    ensures Written(Full(decode, before), Parsed(decode, content, 0, 0), true) == Full(decode, content)
  {
    SameHeader(decode, before, content);
  }

  /** Where a database stands: nothing synced yet, or in step with some content of the file. */
  ghost predicate InStep(decode: Decoding, t: Tables, prev: Option<Progress>, content: seq<Byte>) {
    && Complete(content)
    && (prev.None? ==> t == NO_TABLES && content == [])
    && (prev.Some? ==>
          && t == Full(decode, content) && prev.value.offset == |content| && prev.value.lines == |Lines(content)|
          && prev.value.size <= |content| && prev.value.parserVersion == EDIT_PARSER_VERSION)
  }

  /** The file has only grown, by whole lines, since it had `content`; its sizes are seen in that order. */
  predicate Grown(content: seq<Byte>, look: Look) {
    content <= look.content && Complete(look.content) && |content| <= look.size <= look.parseSize <= |look.content|
  }

  predicate Skips(prev: Option<Progress>, look: Look) {
    Decision(prev, look.full, look.size, look.mtime).None?
  }

  lemma {:induction false} SyncKeepsStep(decode: Decoding, t: Tables, prev: Option<Progress>, content: seq<Byte>, look: Look)
    requires InStep(decode, t, prev, content) && Grown(content, look)
    ensures var (u, next) := Synced(decode, t, prev, look);
            InStep(decode, u, next, if Skips(prev, look) then content else look.content)
    ensures Skips(prev, look) ==> look.size == |content|
  {
    if !Skips(prev, look) {
      assert look.content[0..] == look.content;
      if prev.None? {
        assert Written(NO_TABLES, Parsed(decode, look.content, 0, 0), true) == Full(decode, look.content);
      } else {
        ParsedOn(decode, content, look.content);
        RebuildIsFull(decode, content, look.content);
        IncrementIsFull(decode, content, look.content);
      }
    }
  }

  datatype Standing = Standing(tables: Tables, progress: Option<Progress>, content: seq<Byte>)

  const NEW := Standing(NO_TABLES, None, [])

  /** The database after the syncs, with the content last read. */
  function After(decode: Decoding, looks: seq<Look>): Standing {
    if looks == [] then NEW else OneSync(decode, After(decode, looks[..|looks| - 1]), looks[|looks| - 1])
  }

  function OneSync(decode: Decoding, s: Standing, look: Look): Standing {
    var (t, p) := Synced(decode, s.tables, s.progress, look);
    Standing(t, p, if Skips(s.progress, look) then s.content else look.content)
  }

  /** The tables are those of one full parse of what was last read, and the file still begins with that. */
  ghost predicate UpToDate(decode: Decoding, s: Standing, look: Look) {
    && InStep(decode, s.tables, s.progress, s.content)
    && s.tables == Full(decode, s.content) && look.size <= |s.content| && s.content <= look.content
  }

  lemma {:induction false} OneSyncKeeps(decode: Decoding, s: Standing, look: Look)
    requires InStep(decode, s.tables, s.progress, s.content) && Grown(s.content, look)
    ensures UpToDate(decode, OneSync(decode, s, look), look)
  {
    SyncKeepsStep(decode, s.tables, s.progress, s.content, look);
  }

  predicate SeenWhole(look: Look) {
    Complete(look.content) && look.size <= look.parseSize <= |look.content|
  }

  predicate GrewTo(earlier: Look, later: Look) {
    earlier.content <= later.content && |earlier.content| <= later.size
  }

  /** The file only grows, by whole lines: what one sync sees of it the next one sees again. */
  predicate AppendOnly(looks: seq<Look>) {
    && (forall i :: 0 <= i < |looks| ==> SeenWhole(looks[i]))
    && (forall i :: 0 < i < |looks| ==> GrewTo(looks[i - 1], looks[i]))
  }

  lemma {:induction false} FirstSync(decode: Decoding, look: Look)
    requires SeenWhole(look)
    ensures UpToDate(decode, OneSync(decode, NEW, look), look)
  {
    assert Complete([]);
    OneSyncKeeps(decode, NEW, look);
  }

  lemma {:induction false} NextSync(decode: Decoding, s: Standing, earlier: Look, look: Look)
    requires UpToDate(decode, s, earlier) && GrewTo(earlier, look) && SeenWhole(look)
    ensures UpToDate(decode, OneSync(decode, s, look), look)
  {
    OneSyncKeeps(decode, s, look);
  }

  /**
   After any syncs of a log that grows by whole lines, also while it is being synced, the tables
   are those of one full parse of what was read; a skipped sync had nothing new to read.
   */
  lemma {:induction false} SyncsAreFullParses(decode: Decoding, looks: seq<Look>)
    requires AppendOnly(looks)
    ensures if looks == [] then After(decode, looks) == NEW else UpToDate(decode, After(decode, looks), looks[|looks| - 1])
    decreases |looks|
  {
    if looks != [] {
      var n := |looks| - 1;
      SyncsAreFullParses(decode, looks[..n]);
      if n == 0 {
        assert looks[..0] == [];
        FirstSync(decode, looks[0]);
      } else {
        assert looks[..n][n - 1] == looks[n - 1];
        NextSync(decode, After(decode, looks[..n]), looks[n - 1], looks[n]);
      }
    }
  }
}
