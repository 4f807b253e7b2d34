/**
 Incremental ingestion of an append-only session log into tables keyed by call and line. A file
 is its bytes; what a line means is one fixed decoding. A sync reads from the stored byte offset
 on and upserts what it finds.
 */
module SessionSync {
  import opened Wrappers

  type Byte = bv8
  type CallId = string

  const NEWLINE: Byte := 10
  const EDIT_PARSER_VERSION: nat := 6

  // ----- What a line says -----

  datatype EditInput = EditInput(length: nat, sections: seq<string>)

  /** `edit` is present for calls of the edit tool, with what its input parses to. */
  datatype ToolCall = ToolCall(callId: CallId, data: string, edit: Option<EditInput>)

  /** The outcome of an edit: whether it succeeded, and the warnings kept of a success. */
  datatype EditResult = EditResult(success: bool, warnings: seq<string>)

  datatype Meta = Meta(uuid: Option<string>, version: Option<int>, title: Option<string>, cwd: Option<string>, started: Option<int>)

  const NO_META := Meta(None, None, None, None, None)

  datatype Event =
    | Noise
    | Session(meta: Meta)
    | Assistant(stamp: int, calls: seq<ToolCall>, blob: Option<string>)
    | ToolResult(callId: CallId, data: string, edit: Option<EditResult>)
    | User(text: Option<string>)

  type Decoding = seq<Byte> -> Event

  // ----- Records of one parse, and tables -----

  datatype CallRow = CallRow(seqNo: nat, data: string)

  datatype EditRow = EditRow(seqNo: nat, stamp: int, inputLength: nat, success: Option<bool>, warnings: seq<string>)

  datatype EditStub = EditStub(callId: CallId, seqNo: nat, stamp: int, inputLength: nat)

  datatype EditOutcome = EditOutcome(callId: CallId, result: EditResult)

  datatype Records = Records(
    meta: Meta,
    toolCalls: seq<((CallId, nat), string)>,
    toolResults: seq<((CallId, nat), string)>,
    assistant: seq<(nat, string)>,
    user: seq<(nat, string)>,
    editCalls: seq<EditStub>,
    editResults: seq<EditOutcome>,
    editSections: seq<((CallId, nat), CallRow)>)

  const NO_RECORDS := Records(NO_META, [], [], [], [], [], [], [])

  /** What the next sync goes by. */
  datatype Progress = Progress(mtime: int, size: nat, offset: nat, lines: nat, parserVersion: nat)

  datatype Tables = Tables(
    toolCalls: map<(CallId, nat), string>,
    toolResults: map<(CallId, nat), string>,
    assistant: map<nat, string>,
    user: map<nat, string>,
    editCalls: map<CallId, EditRow>,
    editSections: map<(CallId, nat), CallRow>,
    meta: Option<Meta>)

  const NO_TABLES := Tables(map[], map[], map[], map[], map[], map[], None)

  // ----- Parsing -----

  function SectionRows(callId: CallId, seqNo: nat, sections: seq<string>, index: nat): seq<((CallId, nat), CallRow)>
    decreases |sections|
  {
    if sections == [] then []
    else [((callId, index), CallRow(seqNo, sections[0]))] + SectionRows(callId, seqNo, sections[1..], index + 1)
  }

  function WithCalls(r: Records, seqNo: nat, stamp: int, calls: seq<ToolCall>): Records
    decreases |calls|
  {
    if calls == [] then r
    else
      var c := calls[0];
      var noted := r.(toolCalls := r.toolCalls + [((c.callId, seqNo), c.data)]);
      var edited :=
        if c.edit.None? then noted
        else noted.(editCalls := noted.editCalls + [EditStub(c.callId, seqNo, stamp, c.edit.value.length)],
                    editSections := noted.editSections + SectionRows(c.callId, seqNo, c.edit.value.sections, 0));
      WithCalls(edited, seqNo, stamp, calls[1..])
  }

  /** One line's contribution; the session header counts only as the first line of the file. */
  function Ingested(r: Records, seqNo: nat, e: Event): Records {
    match e
    case Noise => r
    case Session(meta) => if seqNo == 0 then r.(meta := meta) else r
    case Assistant(stamp, calls, blob) =>
      var noted := WithCalls(r, seqNo, stamp, calls);
      if blob.None? then noted else noted.(assistant := noted.assistant + [(seqNo, blob.value)])
    case ToolResult(callId, data, edit) =>
      var noted := r.(toolResults := r.toolResults + [((callId, seqNo), data)]);
      if edit.None? then noted else noted.(editResults := noted.editResults + [EditOutcome(callId, edit.value)])
    case User(text) => if text.None? then r else r.(user := r.user + [(seqNo, text.value)])
  }

  /** The length of the first line, its line break included. */
  function LineLength(bytes: seq<Byte>): (n: nat)
    requires bytes != []
    ensures 0 < n <= |bytes|
  {
    if bytes[0] == NEWLINE || |bytes| == 1 then 1 else 1 + LineLength(bytes[1..])
  }

  /** The lines of a file as a reader yields them: the last one may lack its line break. */
  function Lines(bytes: seq<Byte>): seq<seq<Byte>>
    decreases |bytes|
  {
    if bytes == [] then []
    else
      var n := LineLength(bytes);
      [bytes[..n]] + Lines(bytes[n..])
  }

  function ParsedFrom(decode: Decoding, r: Records, seqNo: nat, lines: seq<seq<Byte>>): Records
    decreases |lines|
  {
    if lines == [] then r else ParsedFrom(decode, Ingested(r, seqNo, decode(lines[0])), seqNo + 1, lines[1..])
  }

  /** What is left to read at an offset; nothing when the file has become shorter. */
  function From(content: seq<Byte>, offset: nat): seq<Byte> {
    if offset <= |content| then content[offset..] else []
  }

  /** The records of the file's bytes from an offset on, numbered from `seqNo`. */
  function Parsed(decode: Decoding, content: seq<Byte>, offset: nat, seqNo: nat): Records {
    ParsedFrom(decode, NO_RECORDS, seqNo, Lines(From(content, offset)))
  }

  method ReadLine(content: seq<Byte>, offset: nat) returns (end: nat)
    requires offset < |content|
    ensures end == offset + LineLength(content[offset..])
  {
    end := offset + 1;
    while content[end - 1] != NEWLINE && end < |content|
      invariant offset < end <= |content|
      invariant offset + LineLength(content[offset..]) == end - 1 + LineLength(content[end - 1..])
      decreases |content| - end
    {
      assert content[end - 1..][1..] == content[end..];
      end := end + 1;
    }
  }

  /** What is left of a parse at an offset. */
  function Rest(decode: Decoding, r: Records, seqNo: nat, content: seq<Byte>, offset: nat): (Records, nat) {
    (ParsedFrom(decode, r, seqNo, Lines(From(content, offset))), seqNo + |Lines(From(content, offset))|)
  }

  lemma {:induction false} LinesTurn(content: seq<Byte>, offset: nat, end: nat)
    requires offset < |content| && end == offset + LineLength(content[offset..])
    ensures Lines(From(content, offset)) == [content[offset..end]] + Lines(From(content, end))
  {
    var rest := content[offset..];
    assert rest[..end - offset] == content[offset..end] && rest[end - offset..] == content[end..];
  }

  lemma {:induction false} RestTurn(decode: Decoding, r: Records, seqNo: nat, content: seq<Byte>, offset: nat, end: nat)
    requires offset < |content| && end == offset + LineLength(content[offset..])
    ensures Rest(decode, r, seqNo, content, offset) ==
            Rest(decode, Ingested(r, seqNo, decode(content[offset..end])), seqNo + 1, content, end)
  {
    LinesTurn(content, offset, end);
    var first, more := content[offset..end], Lines(From(content, end));
    assert ([first] + more)[1..] == more;
  }

  method ParseFile(decode: Decoding, content: seq<Byte>, startOffset: nat, startSeq: nat)
    returns (r: Records, offset: nat, seqNo: nat)
    ensures r == Parsed(decode, content, startOffset, startSeq)
    ensures offset == startOffset + |From(content, startOffset)|
    ensures seqNo == startSeq + |Lines(From(content, startOffset))|
  {
    r, offset, seqNo := NO_RECORDS, startOffset, startSeq;
    ghost var all := Rest(decode, NO_RECORDS, startSeq, content, startOffset);
    while offset < |content|
      invariant offset + |From(content, offset)| == startOffset + |From(content, startOffset)|
      invariant Rest(decode, r, seqNo, content, offset) == all
    {
      var end := ReadLine(content, offset);
      RestTurn(decode, r, seqNo, content, offset, end);
      r := Ingested(r, seqNo, decode(content[offset..end]));
      offset, seqNo := end, seqNo + 1;
    }
  }

  // ----- Writing -----

  function PutAll<K, V>(m: map<K, V>, rows: seq<(K, V)>): map<K, V>
    decreases |rows|
  {
    if rows == [] then m else PutAll(m[rows[0].0 := rows[0].1], rows[1..])
  }

  /** The stub of a call keeps an outcome that is there already. */
  function WithStub(m: map<CallId, EditRow>, s: EditStub): map<CallId, EditRow> {
    m[s.callId :=
      if s.callId in m then m[s.callId].(seqNo := s.seqNo, stamp := s.stamp, inputLength := s.inputLength)
      else EditRow(s.seqNo, s.stamp, s.inputLength, None, [])]
  }

  /** An outcome keeps the call's columns, or leaves zeros for a call not seen yet. */
  function WithOutcome(m: map<CallId, EditRow>, o: EditOutcome): map<CallId, EditRow> {
    m[o.callId :=
      if o.callId in m then m[o.callId].(success := Some(o.result.success), warnings := o.result.warnings)
      else EditRow(0, 0, 0, Some(o.result.success), o.result.warnings)]
  }

  function WithStubs(m: map<CallId, EditRow>, stubs: seq<EditStub>): map<CallId, EditRow>
    decreases |stubs|
  {
    if stubs == [] then m else WithStubs(WithStub(m, stubs[0]), stubs[1..])
  }

  function WithOutcomes(m: map<CallId, EditRow>, outcomes: seq<EditOutcome>): map<CallId, EditRow>
    decreases |outcomes|
  {
    if outcomes == [] then m else WithOutcomes(WithOutcome(m, outcomes[0]), outcomes[1..])
  }

  function Coalesce<T>(a: Option<T>, b: Option<T>): Option<T> {
    if a.Some? then a else b
  }

  function Coalesced(a: Meta, b: Meta): Meta {
    Meta(Coalesce(a.uuid, b.uuid), Coalesce(a.version, b.version), Coalesce(a.title, b.title), Coalesce(a.cwd, b.cwd),
         Coalesce(a.started, b.started))
  }

  /** A rebuild clears the rows of the session first; the session's own row stays. */
  function Written(t: Tables, r: Records, rebuild: bool): Tables {
    var base := if rebuild then NO_TABLES.(meta := t.meta) else t;
    Tables(
      PutAll(base.toolCalls, r.toolCalls), PutAll(base.toolResults, r.toolResults),
      PutAll(base.assistant, r.assistant), PutAll(base.user, r.user),
      WithOutcomes(WithStubs(base.editCalls, r.editCalls), r.editResults),
      PutAll(base.editSections, r.editSections),
      Some(if base.meta.Some? then Coalesced(r.meta, base.meta.value) else r.meta))
  }

  method InsertOrReplace<K, V>(m: map<K, V>, rows: seq<(K, V)>) returns (out: map<K, V>)
    ensures out == PutAll(m, rows)
  {
    out := m;
    var i := 0;
    assert rows[0..] == rows;
    while i < |rows|
      invariant i <= |rows| && PutAll(out, rows[i..]) == PutAll(m, rows)
    {
      assert rows[i..][1..] == rows[i + 1..];
      out := out[rows[i].0 := rows[i].1];
      i := i + 1;
    }
  }

  /** The decision of a sync: rebuild or not, and where to start; nothing when it may be skipped. */
  function Decision(prev: Option<Progress>, full: bool, size: nat, mtime: int): Option<(bool, nat, nat)> {
    if full || prev.None? then Some((true, 0, 0))
    else
      var p := prev.value;
      if p.parserVersion < EDIT_PARSER_VERSION then Some((true, 0, 0))
      else if size == p.size && mtime <= p.mtime then None
      else if size < p.offset then Some((true, 0, 0))
      else if size == p.offset && mtime > p.mtime then Some((true, 0, 0))
      else Some((false, p.offset, p.lines))
  }

  /** What a sync sees of the file: at the decision, at the parser's own look, and when it reads. */
  datatype Look = Look(full: bool, size: nat, mtime: int, parseSize: nat, parseMtime: int, content: seq<Byte>)

  class Database {
    var tables: Tables
    var progress: Option<Progress>

    constructor ()
      ensures tables == NO_TABLES && progress == None
    {
      tables, progress := NO_TABLES, None;
    }

    method WriteRecords(r: Records, rebuild: bool, seen: Progress)
      modifies this
      ensures tables == Written(old(tables), r, rebuild) && progress == Some(seen)
    {
      if rebuild { tables := NO_TABLES.(meta := tables.meta); }
      var toolCalls := InsertOrReplace(tables.toolCalls, r.toolCalls);
      var toolResults := InsertOrReplace(tables.toolResults, r.toolResults);
      var assistant := InsertOrReplace(tables.assistant, r.assistant);
      var user := InsertOrReplace(tables.user, r.user);
      var editCalls := UpsertEdits(tables.editCalls, r.editCalls, r.editResults);
      var editSections := InsertOrReplace(tables.editSections, r.editSections);
      var meta := if tables.meta.Some? then Coalesced(r.meta, tables.meta.value) else r.meta;
      tables := Tables(toolCalls, toolResults, assistant, user, editCalls, editSections, Some(meta));
      progress := Some(seen);
    }

    /** One session file, decided, parsed and written. */
    method Sync(decode: Decoding, look: Look)
      modifies this
      ensures (tables, progress) == Synced(decode, old(tables), old(progress), look)
    {
      var action := Decision(progress, look.full, look.size, look.mtime);
      if action.None? { return; }
      var (rebuild, offset, seqNo) := action.value;
      var r, end, lines := ParseFile(decode, look.content, offset, seqNo);
      WriteRecords(r, rebuild, Progress(look.parseMtime, look.parseSize, end, lines, EDIT_PARSER_VERSION));
    }
  }

  method UpsertEdits(m: map<CallId, EditRow>, stubs: seq<EditStub>, outcomes: seq<EditOutcome>) returns (out: map<CallId, EditRow>)
    ensures out == WithOutcomes(WithStubs(m, stubs), outcomes)
  {
    out := m;
    var i := 0;
    assert stubs[0..] == stubs;
    while i < |stubs|
      invariant i <= |stubs| && WithStubs(out, stubs[i..]) == WithStubs(m, stubs)
    {
      assert stubs[i..][1..] == stubs[i + 1..];
      out := WithStub(out, stubs[i]);
      i := i + 1;
    }
    ghost var stubbed := out;
    assert stubbed == WithStubs(m, stubs);
    i := 0;
    assert outcomes[0..] == outcomes;
    while i < |outcomes|
      invariant i <= |outcomes| && WithOutcomes(out, outcomes[i..]) == WithOutcomes(stubbed, outcomes)
    {
      assert outcomes[i..][1..] == outcomes[i + 1..];
      out := WithOutcome(out, outcomes[i]);
      i := i + 1;
    }
  }

  function Synced(decode: Decoding, t: Tables, prev: Option<Progress>, look: Look): (Tables, Option<Progress>) {
    match Decision(prev, look.full, look.size, look.mtime)
    case None => (t, prev)
    case Some((rebuild, offset, seqNo)) =>
      (Written(t, Parsed(decode, look.content, offset, seqNo), rebuild),
       Some(Progress(look.parseMtime, look.parseSize, offset + |From(look.content, offset)|,
                     seqNo + |Lines(From(look.content, offset))|, EDIT_PARSER_VERSION)))
  }
}
