/**
 What a full parse puts into the tables, said of the lines of the file alone: every row is what
 its own line says, and an edit's row joins its last call with its last outcome.
 */
module SessionSyncContents {
  import opened Wrappers
  import opened SessionSync
  import opened SessionSyncRuns

  /** What the lines of the file say, in order. */
  function Events(decode: Decoding, content: seq<Byte>): (ev: seq<Event>)
    ensures |ev| == |Lines(content)|
  {
    seq(|Lines(content)|, n requires 0 <= n < |Lines(content)| => decode(Lines(content)[n]))
  }

  ghost predicate Holds<K, V>(m: map<K, V>, key: K, value: V) {
    key in m && m[key] == value
  }

  // ----- Rows of single lines -----

  predicate LastOf(calls: seq<ToolCall>, c: CallId, k: nat) {
    k < |calls| && calls[k].callId == c && forall j :: k < j < |calls| ==> calls[j].callId != c
  }

  /** A call of a line has a row at that line; the last of two calls with one id is the one kept. */
  ghost predicate CallsTold(ev: seq<Event>, m: map<(CallId, nat), string>) {
    forall c, n: nat, d ::
      Holds(m, (c, n), d) <==>
        n < |ev| && ev[n].Assistant? && exists k: nat :: LastOf(ev[n].calls, c, k) && ev[n].calls[k].data == d
  }

  ghost predicate ResultsTold(ev: seq<Event>, m: map<(CallId, nat), string>) {
    forall c, n: nat, d ::
      Holds(m, (c, n), d) <==> n < |ev| && ev[n].ToolResult? && ev[n].callId == c && ev[n].data == d
  }

  ghost predicate AssistantTold(ev: seq<Event>, m: map<nat, string>) {
    forall n: nat, d :: Holds(m, n, d) <==> n < |ev| && ev[n].Assistant? && ev[n].blob == Some(d)
  }

  ghost predicate UserTold(ev: seq<Event>, m: map<nat, string>) {
    forall n: nat, d :: Holds(m, n, d) <==> n < |ev| && ev[n].User? && ev[n].text == Some(d)
  }

  predicate HeaderTold(ev: seq<Event>, meta: Option<Meta>) {
    meta == Some(if ev != [] && ev[0].Session? then ev[0].meta else NO_META)
  }

  // ----- Rows of edits -----

  /** Call `k` of line `n` is an edit with the id. */
  predicate EditAt(ev: seq<Event>, c: CallId, n: nat, k: nat) {
    n < |ev| && ev[n].Assistant? && k < |ev[n].calls| && ev[n].calls[k].callId == c && ev[n].calls[k].edit.Some?
  }

  function EditInputAt(ev: seq<Event>, c: CallId, n: nat, k: nat): EditInput
    requires EditAt(ev, c, n, k)
  {
    ev[n].calls[k].edit.value
  }

  predicate NotAfter(n: nat, k: nat, line: nat, place: nat) {
    n < line || (n == line && k <= place)
  }

  ghost predicate LastEdit(ev: seq<Event>, c: CallId, n: nat, k: nat) {
    EditAt(ev, c, n, k) && forall i: nat, j: nat :: EditAt(ev, c, i, j) ==> NotAfter(i, j, n, k)
  }

  /** Line `n` is a tool result for the id that carries an edit outcome. */
  predicate OutcomeAt(ev: seq<Event>, c: CallId, n: nat) {
    n < |ev| && ev[n].ToolResult? && ev[n].callId == c && ev[n].edit.Some?
  }

  ghost predicate LastOutcome(ev: seq<Event>, c: CallId, n: nat) {
    OutcomeAt(ev, c, n) && forall i: nat :: OutcomeAt(ev, c, i) ==> i <= n
  }

  ghost predicate HasEdit(ev: seq<Event>, c: CallId) {
    exists n: nat, k: nat :: EditAt(ev, c, n, k)
  }

  ghost predicate HasOutcome(ev: seq<Event>, c: CallId) {
    exists n: nat :: OutcomeAt(ev, c, n)
  }

  /** The columns of the call: those of the last edit call, or zeros. */
  ghost predicate CallColumns(ev: seq<Event>, c: CallId, row: EditRow) {
    if HasEdit(ev, c) then
      exists n: nat, k: nat ::
        && LastEdit(ev, c, n, k)
        && row.seqNo == n && row.stamp == ev[n].stamp && row.inputLength == EditInputAt(ev, c, n, k).length
    else row.seqNo == 0 && row.stamp == 0 && row.inputLength == 0
  }

  /** The columns of the outcome: those of the last one, or none. */
  ghost predicate OutcomeColumns(ev: seq<Event>, c: CallId, row: EditRow) {
    if HasOutcome(ev, c) then
      exists n: nat :: LastOutcome(ev, c, n) && row.success == Some(ev[n].edit.value.success) && row.warnings == ev[n].edit.value.warnings
    else row.success == None && row.warnings == []
  }

  ghost predicate EditTold(ev: seq<Event>, c: CallId, m: map<CallId, EditRow>) {
    && (c in m <==> HasEdit(ev, c) || HasOutcome(ev, c))
    && (c in m ==> CallColumns(ev, c, m[c]) && OutcomeColumns(ev, c, m[c]))
  }

  ghost predicate EditsTold(ev: seq<Event>, m: map<CallId, EditRow>) {
    forall c :: EditTold(ev, c, m)
  }

  /** An edit with the id that has a section `i`. */
  predicate SectionAt(ev: seq<Event>, c: CallId, i: nat, n: nat, k: nat) {
    EditAt(ev, c, n, k) && i < |EditInputAt(ev, c, n, k).sections|
  }

  ghost predicate LastSection(ev: seq<Event>, c: CallId, i: nat, n: nat, k: nat) {
    SectionAt(ev, c, i, n, k) && forall u: nat, v: nat :: SectionAt(ev, c, i, u, v) ==> NotAfter(u, v, n, k)
  }

  /** Section `i` of an id is what the last of its edits that has a section `i` says. */
  ghost predicate SectionTold(ev: seq<Event>, c: CallId, i: nat, m: map<(CallId, nat), CallRow>) {
    forall row ::
      Holds(m, (c, i), row) <==>
        exists n: nat, k: nat :: LastSection(ev, c, i, n, k) && row == CallRow(n, EditInputAt(ev, c, n, k).sections[i])
  }

  ghost predicate SectionsTold(ev: seq<Event>, m: map<(CallId, nat), CallRow>) {
    forall c, i: nat :: SectionTold(ev, c, i, m)
  }

  /** The tables hold what the events say and nothing else. */
  ghost predicate Told(ev: seq<Event>, t: Tables) {
    && CallsTold(ev, t.toolCalls) && ResultsTold(ev, t.toolResults)
    && AssistantTold(ev, t.assistant) && UserTold(ev, t.user)
    && EditsTold(ev, t.editCalls) && SectionsTold(ev, t.editSections)
    && HeaderTold(ev, t.meta)
  }

  // ----- Records, event by event -----

  function Recorded(ev: seq<Event>): Records {
    if ev == [] then NO_RECORDS else Ingested(Recorded(ev[..|ev| - 1]), |ev| - 1, ev[|ev| - 1])
  }

  function EventsOf(decode: Decoding, lines: seq<seq<Byte>>): (ev: seq<Event>)
    ensures |ev| == |lines|
  {
    seq(|lines|, n requires 0 <= n < |lines| => decode(lines[n]))
  }

  lemma {:induction false} ParsedIsRecorded(decode: Decoding, lines: seq<seq<Byte>>)
    ensures ParsedFrom(decode, NO_RECORDS, 0, lines) == Recorded(EventsOf(decode, lines))
    decreases |lines|
  {
    if lines != [] {
      var n := |lines| - 1;
      ParsedIsRecorded(decode, lines[..n]);
      assert lines == lines[..n] + [lines[n]];
      ParsedSplits(decode, NO_RECORDS, 0, lines[..n], [lines[n]]);
      ParsedOne(decode, Recorded(EventsOf(decode, lines[..n])), n, lines[n]);
      assert EventsOf(decode, lines)[..n] == EventsOf(decode, lines[..n]);
    }
  }

  lemma {:induction false} ParsedOne(decode: Decoding, r: Records, n: nat, line: seq<Byte>)
    ensures ParsedFrom(decode, r, n, [line]) == Ingested(r, n, decode(line))
  {
    assert [line][1..] == [];
  }

  /** What one call adds to the records. */
  function WithCall(r: Records, n: nat, stamp: int, c: ToolCall): Records {
    var noted := r.(toolCalls := r.toolCalls + [((c.callId, n), c.data)]);
    if c.edit.None? then noted
    else noted.(editCalls := noted.editCalls + [EditStub(c.callId, n, stamp, c.edit.value.length)],
                editSections := noted.editSections + SectionRows(c.callId, n, c.edit.value.sections, 0))
  }

  lemma {:induction false} CallsSplit(r: Records, n: nat, stamp: int, a: seq<ToolCall>, b: seq<ToolCall>)
    ensures WithCalls(r, n, stamp, a + b) == WithCalls(WithCalls(r, n, stamp, a), n, stamp, b)
    decreases |a|
  {
    if a == [] {
      assert a + b == b;
    } else {
      assert (a + b)[1..] == a[1..] + b;
      CallsSplit(WithCall(r, n, stamp, a[0]), n, stamp, a[1..], b);
    }
  }

  // ----- One more row -----

  function Filled(r: Records): Tables {
    Written(NO_TABLES, r, false)
  }

  lemma {:induction false} PutOne<K, V>(m: map<K, V>, rows: seq<(K, V)>, row: (K, V))
    ensures PutAll(m, rows + [row]) == PutAll(m, rows)[row.0 := row.1]
  {
    PutAllJoins(m, rows, [row]);
    assert [row][1..] == [];
  }

  lemma {:induction false} StubOne(m: map<CallId, EditRow>, stubs: seq<EditStub>, s: EditStub, outcomes: seq<EditOutcome>)
    ensures WithOutcomes(WithStubs(m, stubs + [s]), outcomes) == WithStub(WithOutcomes(WithStubs(m, stubs), outcomes), s)
  {
    StubsJoin(m, stubs, [s]);
    assert [s][1..] == [];
    OutcomesThenStub(WithStubs(m, stubs), outcomes, s);
  }

  lemma {:induction false} OutcomeOne(m: map<CallId, EditRow>, outcomes: seq<EditOutcome>, o: EditOutcome)
    ensures WithOutcomes(m, outcomes + [o]) == WithOutcome(WithOutcomes(m, outcomes), o)
  {
    OutcomesJoin(m, outcomes, [o]);
    assert [o][1..] == [];
  }

  /** The sections of one call take the places from `index` on. */
  lemma {:induction false} SectionsPut(m: map<(CallId, nat), CallRow>, c: CallId, n: nat, sections: seq<string>, index: nat, d: CallId, i: nat)
    ensures var out := PutAll(m, SectionRows(c, n, sections, index));
            if d == c && index <= i < index + |sections| then Holds(out, (d, i), CallRow(n, sections[i - index]))
            else ((d, i) in out <==> (d, i) in m) && ((d, i) in m ==> out[(d, i)] == m[(d, i)])
    decreases |sections|
  {
    if sections != [] {
      var row := ((c, index), CallRow(n, sections[0]));
      var more := SectionRows(c, n, sections[1..], index + 1);
      assert ([row] + more)[1..] == more;
      SectionsPut(m[row.0 := row.1], c, n, sections[1..], index + 1, d, i);
    }
  }

  // ----- One more call of a line -----

  /** A line with the calls and no text of its own. */
  function Calling(ev: seq<Event>, stamp: int, calls: seq<ToolCall>): seq<Event> {
    ev + [Assistant(stamp, calls, None)]
  }

  /** The edits of `later` are those of `ev` and the one at a place after them all. */
  ghost predicate OneMoreEdit(ev: seq<Event>, later: seq<Event>, c: CallId, n: nat, k: nat) {
    && EditAt(later, c, n, k) && !EditAt(ev, c, n, k)
    && (forall i: nat, j: nat :: EditAt(later, c, i, j) <==> EditAt(ev, c, i, j) || (i == n && j == k))
    && (forall i: nat, j: nat :: EditAt(ev, c, i, j) ==> NotAfter(i, j, n, k))
    && (forall i: nat, j: nat :: EditAt(ev, c, i, j) && EditAt(later, c, i, j) ==> later[i].stamp == ev[i].stamp && EditInputAt(later, c, i, j) == EditInputAt(ev, c, i, j))
  }

  ghost predicate SameEdits(ev: seq<Event>, later: seq<Event>, c: CallId) {
    && (forall i: nat, j: nat :: EditAt(later, c, i, j) <==> EditAt(ev, c, i, j))
    && (forall i: nat, j: nat :: EditAt(ev, c, i, j) && EditAt(later, c, i, j) ==> later[i].stamp == ev[i].stamp && EditInputAt(later, c, i, j) == EditInputAt(ev, c, i, j))
  }

  ghost predicate SameOutcomes(ev: seq<Event>, later: seq<Event>, c: CallId) {
    && (forall i: nat :: OutcomeAt(later, c, i) <==> OutcomeAt(ev, c, i))
    && (forall i: nat :: OutcomeAt(ev, c, i) && OutcomeAt(later, c, i) ==> later[i] == ev[i])
  }

  lemma {:induction false} CallColumnsKept(ev: seq<Event>, later: seq<Event>, c: CallId, row: EditRow)
    requires SameEdits(ev, later, c) && CallColumns(ev, c, row)
    ensures CallColumns(later, c, row)
  {
    if HasEdit(ev, c) {
      var n: nat, k: nat :| LastEdit(ev, c, n, k) && row.seqNo == n && row.stamp == ev[n].stamp && row.inputLength == EditInputAt(ev, c, n, k).length;
      assert LastEdit(later, c, n, k);
    }
  }

  lemma {:induction false} OutcomeColumnsKept(ev: seq<Event>, later: seq<Event>, c: CallId, row: EditRow)
    requires SameOutcomes(ev, later, c) && OutcomeColumns(ev, c, row)
    ensures OutcomeColumns(later, c, row)
  {
    if HasOutcome(ev, c) {
      var n: nat :| LastOutcome(ev, c, n) && row.success == Some(ev[n].edit.value.success) && row.warnings == ev[n].edit.value.warnings;
      assert LastOutcome(later, c, n);
    }
  }

  lemma {:induction false} EditKept(ev: seq<Event>, later: seq<Event>, c: CallId, m: map<CallId, EditRow>, out: map<CallId, EditRow>)
    requires SameEdits(ev, later, c) && SameOutcomes(ev, later, c) && EditTold(ev, c, m)
    requires (c in out <==> c in m) && (c in m ==> out[c] == m[c])
    ensures EditTold(later, c, out)
  {
    if c in m {
      CallColumnsKept(ev, later, c, m[c]);
      OutcomeColumnsKept(ev, later, c, m[c]);
    }
  }

  lemma {:induction false} EditCalled(ev: seq<Event>, later: seq<Event>, c: CallId, n: nat, k: nat, m: map<CallId, EditRow>)
    requires OneMoreEdit(ev, later, c, n, k) && SameOutcomes(ev, later, c) && EditTold(ev, c, m)
    ensures EditTold(later, c, WithStub(m, EditStub(c, n, later[n].stamp, EditInputAt(later, c, n, k).length)))
  {
    var out := WithStub(m, EditStub(c, n, later[n].stamp, EditInputAt(later, c, n, k).length));
    assert LastEdit(later, c, n, k);
    if c in m {
      OutcomeColumnsKept(ev, later, c, m[c]);
      assert OutcomeColumns(later, c, out[c]);
    } else {
      assert !HasOutcome(later, c);
    }
  }

  lemma {:induction false} EditAnswered(ev: seq<Event>, later: seq<Event>, c: CallId, n: nat, m: map<CallId, EditRow>)
    requires SameEdits(ev, later, c) && EditTold(ev, c, m) && LastOutcome(later, c, n)
    ensures EditTold(later, c, WithOutcome(m, EditOutcome(c, later[n].edit.value)))
  {
    var out := WithOutcome(m, EditOutcome(c, later[n].edit.value));
    if c in m {
      CallColumnsKept(ev, later, c, m[c]);
      assert CallColumns(later, c, out[c]);
    } else {
      assert !HasEdit(later, c);
    }
  }

  lemma {:induction false} SectionKept(ev: seq<Event>, later: seq<Event>, c: CallId, i: nat, m: map<(CallId, nat), CallRow>, out: map<(CallId, nat), CallRow>)
    requires forall u: nat, v: nat :: SectionAt(later, c, i, u, v) <==> SectionAt(ev, c, i, u, v)
    requires forall u: nat, v: nat :: SectionAt(ev, c, i, u, v) && SectionAt(later, c, i, u, v) ==> EditInputAt(later, c, u, v) == EditInputAt(ev, c, u, v)
    requires SectionTold(ev, c, i, m)
    requires ((c, i) in out <==> (c, i) in m) && ((c, i) in m ==> out[(c, i)] == m[(c, i)])
    ensures SectionTold(later, c, i, out)
  {
    assert forall n: nat, k: nat :: LastSection(later, c, i, n, k) <==> LastSection(ev, c, i, n, k);
    forall row
      ensures Holds(out, (c, i), row) <==>
                exists n: nat, k: nat :: LastSection(later, c, i, n, k) && row == CallRow(n, EditInputAt(later, c, n, k).sections[i])
    {
      assert Holds(out, (c, i), row) <==> Holds(m, (c, i), row);
    }
  }

  lemma {:induction false} SectionCalled(ev: seq<Event>, later: seq<Event>, c: CallId, i: nat, n: nat, k: nat, out: map<(CallId, nat), CallRow>)
    requires OneMoreEdit(ev, later, c, n, k) && SectionAt(later, c, i, n, k)
    requires Holds(out, (c, i), CallRow(n, EditInputAt(later, c, n, k).sections[i]))
    ensures SectionTold(later, c, i, out)
  {
    assert LastSection(later, c, i, n, k);
    assert forall u: nat, v: nat :: LastSection(later, c, i, u, v) ==> u == n && v == k;
  }

  // ----- One more line: rows of its own -----

  lemma {:induction false} CallsElse(r: Records, n: nat, stamp: int, calls: seq<ToolCall>)
    ensures var out := WithCalls(r, n, stamp, calls);
            && out.toolResults == r.toolResults && out.assistant == r.assistant && out.user == r.user
            && out.editResults == r.editResults && out.meta == r.meta
    decreases |calls|
  {
    if calls != [] { CallsElse(WithCall(r, n, stamp, calls[0]), n, stamp, calls[1..]); }
  }

  lemma {:induction false} ResultRow(ev: seq<Event>, e: Event, m: map<(CallId, nat), string>)
    requires ResultsTold(ev, m)
    ensures ResultsTold(ev + [e], if e.ToolResult? then m[(e.callId, |ev|) := e.data] else m)
  {
    var later, out := ev + [e], if e.ToolResult? then m[(e.callId, |ev|) := e.data] else m;
    forall c, n: nat, d
      ensures Holds(out, (c, n), d) <==> n < |later| && later[n].ToolResult? && later[n].callId == c && later[n].data == d
    {
      assert Holds(m, (c, n), d) <==> n < |ev| && ev[n].ToolResult? && ev[n].callId == c && ev[n].data == d;
    }
  }

  lemma {:induction false} AssistantRow(ev: seq<Event>, e: Event, m: map<nat, string>)
    requires AssistantTold(ev, m)
    ensures AssistantTold(ev + [e], if e.Assistant? && e.blob.Some? then m[|ev| := e.blob.value] else m)
  {
    var later, out := ev + [e], if e.Assistant? && e.blob.Some? then m[|ev| := e.blob.value] else m;
    forall n: nat, d ensures Holds(out, n, d) <==> n < |later| && later[n].Assistant? && later[n].blob == Some(d) {
      assert Holds(m, n, d) <==> n < |ev| && ev[n].Assistant? && ev[n].blob == Some(d);
    }
  }

  lemma {:induction false} UserRow(ev: seq<Event>, e: Event, m: map<nat, string>)
    requires UserTold(ev, m)
    ensures UserTold(ev + [e], if e.User? && e.text.Some? then m[|ev| := e.text.value] else m)
  {
    var later, out := ev + [e], if e.User? && e.text.Some? then m[|ev| := e.text.value] else m;
    forall n: nat, d ensures Holds(out, n, d) <==> n < |later| && later[n].User? && later[n].text == Some(d) {
      assert Holds(m, n, d) <==> n < |ev| && ev[n].User? && ev[n].text == Some(d);
    }
  }

  lemma {:induction false} ResultTold(ev: seq<Event>, r: Records, e: Event)
    requires ResultsTold(ev, PutAll(map[], r.toolResults))
    ensures ResultsTold(ev + [e], PutAll(map[], Ingested(r, |ev|, e).toolResults))
  {
    if e.Assistant? { CallsElse(r, |ev|, e.stamp, e.calls); }
    if e.ToolResult? { PutOne<(CallId, nat), string>(map[], r.toolResults, ((e.callId, |ev|), e.data)); }
    ResultRow(ev, e, PutAll(map[], r.toolResults));
  }

  lemma {:induction false} TextTold(ev: seq<Event>, r: Records, e: Event)
    requires AssistantTold(ev, PutAll(map[], r.assistant)) && UserTold(ev, PutAll(map[], r.user))
    ensures AssistantTold(ev + [e], PutAll(map[], Ingested(r, |ev|, e).assistant))
    ensures UserTold(ev + [e], PutAll(map[], Ingested(r, |ev|, e).user))
  {
    AssistantRow(ev, e, PutAll(map[], r.assistant));
    UserRow(ev, e, PutAll(map[], r.user));
    if e.Assistant? {
      CallsElse(r, |ev|, e.stamp, e.calls);
      if e.blob.Some? { PutOne<nat, string>(map[], r.assistant, (|ev|, e.blob.value)); }
    } else if e.User? && e.text.Some? {
      PutOne<nat, string>(map[], r.user, (|ev|, e.text.value));
    }
  }

  lemma {:induction false} MetaTold(ev: seq<Event>, r: Records, e: Event)
    requires HeaderTold(ev, Some(r.meta))
    ensures HeaderTold(ev + [e], Some(Ingested(r, |ev|, e).meta))
  {
    IngestedMeta(r, |ev|, e);
  }

  // ----- One more line: its calls -----

  lemma {:induction false} LastWith(calls: seq<ToolCall>, x: ToolCall, c: CallId)
    ensures forall k: nat :: LastOf(calls + [x], c, k) <==> if x.callId == c then k == |calls| else LastOf(calls, c, k)
  {
    var more := calls + [x];
    assert more[|calls|] == x && forall j: nat :: j < |calls| ==> more[j] == calls[j];
    forall k: nat ensures LastOf(more, c, k) <==> if x.callId == c then k == |calls| else LastOf(calls, c, k) {
      if k < |calls| && LastOf(calls, c, k) && x.callId != c {
        assert forall j :: k < j < |more| ==> more[j].callId != c;
      }
      if k < |calls| && LastOf(more, c, k) {
        assert more[|calls|].callId != c;
        assert forall j :: k < j < |calls| ==> more[j].callId != c && calls[j].callId != c;
      }
    }
  }

  lemma {:induction false} CallTold(ev: seq<Event>, stamp: int, calls: seq<ToolCall>, x: ToolCall, m: map<(CallId, nat), string>)
    requires CallsTold(Calling(ev, stamp, calls), m)
    ensures CallsTold(Calling(ev, stamp, calls + [x]), m[(x.callId, |ev|) := x.data])
  {
    var now, later, n := Calling(ev, stamp, calls), Calling(ev, stamp, calls + [x]), |ev|;
    var out := m[(x.callId, n) := x.data];
    assert now[n].calls == calls && later[n].calls == calls + [x];
    assert forall i: nat :: i < n ==> now[i] == ev[i] && later[i] == ev[i];
    forall c, i: nat, d
      ensures Holds(out, (c, i), d) <==>
                i < |later| && later[i].Assistant? && exists k: nat :: LastOf(later[i].calls, c, k) && later[i].calls[k].data == d
    {
      assert Holds(m, (c, i), d) <==>
             i < |now| && now[i].Assistant? && exists k: nat :: LastOf(now[i].calls, c, k) && now[i].calls[k].data == d;
      if i == n {
        LastWith(calls, x, c);
        var all := calls + [x];
        assert x.callId == c ==> LastOf(all, c, |calls|) && all[|calls|] == x;
        assert forall k: nat :: k < |calls| ==> all[k] == calls[k];
        assert (exists k: nat :: LastOf(all, c, k) && all[k].data == d) <==>
               if x.callId == c then x.data == d else exists k: nat :: LastOf(calls, c, k) && calls[k].data == d;
      }
    }
  }

  lemma {:induction false} SameCalls(ev: seq<Event>, later: seq<Event>, m: map<(CallId, nat), string>)
    requires CallsTold(ev, m) && |ev| <= |later|
    requires forall n: nat :: n < |ev| ==> later[n].Assistant? == ev[n].Assistant? && (ev[n].Assistant? ==> later[n].calls == ev[n].calls)
    requires forall n: nat :: |ev| <= n < |later| && later[n].Assistant? ==> later[n].calls == []
    ensures CallsTold(later, m)
  {
    forall c, n: nat, d
      ensures Holds(m, (c, n), d) <==>
                n < |later| && later[n].Assistant? && exists k: nat :: LastOf(later[n].calls, c, k) && later[n].calls[k].data == d
    {
      assert Holds(m, (c, n), d) <==>
             n < |ev| && ev[n].Assistant? && exists k: nat :: LastOf(ev[n].calls, c, k) && ev[n].calls[k].data == d;
    }
  }

  // ----- One more line: its edits -----

  /** What the three tables about calls hold. */
  ghost predicate CallsAndEditsTold(ev: seq<Event>, r: Records) {
    && CallsTold(ev, PutAll(map[], r.toolCalls))
    && EditsTold(ev, WithOutcomes(WithStubs(map[], r.editCalls), r.editResults))
    && SectionsTold(ev, PutAll(map[], r.editSections))
  }

  ghost predicate Quiet(ev: seq<Event>, later: seq<Event>) {
    forall c :: SameEdits(ev, later, c) && SameOutcomes(ev, later, c)
  }

  lemma {:induction false} SectionsQuiet(ev: seq<Event>, later: seq<Event>, m: map<(CallId, nat), CallRow>)
    requires (forall c :: SameEdits(ev, later, c)) && SectionsTold(ev, m)
    ensures SectionsTold(later, m)
  {
    forall c, i: nat ensures SectionTold(later, c, i, m) {
      assert SameEdits(ev, later, c) && SectionTold(ev, c, i, m);
      SectionKept(ev, later, c, i, m, m);
    }
  }

  lemma {:induction false} EditsQuiet(ev: seq<Event>, later: seq<Event>, m: map<CallId, EditRow>)
    requires Quiet(ev, later) && EditsTold(ev, m)
    ensures EditsTold(later, m)
  {
    forall c ensures EditTold(later, c, m) {
      EditKept(ev, later, c, m, m);
    }
  }

  /** A line that neither calls nor answers an edit leaves the edits as they are. */
  lemma {:induction false} PlainTold(ev: seq<Event>, e: Event, r: Records)
    requires CallsAndEditsTold(ev, r) && (e.Assistant? ==> e.calls == []) && (e.ToolResult? ==> e.edit.None?)
    ensures CallsAndEditsTold(ev + [e], r)
  {
    var later := ev + [e];
    assert forall n: nat :: n < |ev| ==> later[n] == ev[n];
    assert Quiet(ev, later);
    SectionsQuiet(ev, later, PutAll(map[], r.editSections));
    EditsQuiet(ev, later, WithOutcomes(WithStubs(map[], r.editCalls), r.editResults));
    SameCalls(ev, later, PutAll(map[], r.toolCalls));
  }

  lemma {:induction false} AnswersTold(ev: seq<Event>, e: Event, m: map<CallId, EditRow>)
    requires EditsTold(ev, m) && e.ToolResult? && e.edit.Some?
    ensures EditsTold(ev + [e], WithOutcome(m, EditOutcome(e.callId, e.edit.value)))
  {
    var later, o := ev + [e], EditOutcome(e.callId, e.edit.value);
    assert forall n: nat :: n < |ev| ==> later[n] == ev[n];
    forall c ensures EditTold(later, c, WithOutcome(m, o)) {
      assert SameEdits(ev, later, c);
      if c == e.callId {
        assert LastOutcome(later, c, |ev|);
        EditAnswered(ev, later, c, |ev|, m);
      } else {
        EditKept(ev, later, c, m, WithOutcome(m, o));
      }
    }
  }

  lemma {:induction false} AnswerTold(ev: seq<Event>, e: Event, r: Records)
    requires CallsAndEditsTold(ev, r) && e.ToolResult? && e.edit.Some?
    ensures CallsAndEditsTold(ev + [e], Ingested(r, |ev|, e))
  {
    var later, o := ev + [e], EditOutcome(e.callId, e.edit.value);
    assert forall n: nat :: n < |ev| ==> later[n] == ev[n];
    assert forall c :: SameEdits(ev, later, c);
    SectionsQuiet(ev, later, PutAll(map[], r.editSections));
    SameCalls(ev, later, PutAll(map[], r.toolCalls));
    OutcomeOne(WithStubs(map[], r.editCalls), r.editResults, o);
    AnswersTold(ev, e, WithOutcomes(WithStubs(map[], r.editCalls), r.editResults));
  }

  /** The edits after one more call of a line: none for another id, and one at the end for its own. */
  lemma {:induction false} CallMoves(ev: seq<Event>, stamp: int, calls: seq<ToolCall>, x: ToolCall, c: CallId)
    ensures var now, later := Calling(ev, stamp, calls), Calling(ev, stamp, calls + [x]);
            && SameOutcomes(now, later, c)
            && if x.callId == c && x.edit.Some? then
                 OneMoreEdit(now, later, c, |ev|, |calls|) && EditInputAt(later, c, |ev|, |calls|) == x.edit.value
               else SameEdits(now, later, c)
  {
    var now, later, n := Calling(ev, stamp, calls), Calling(ev, stamp, calls + [x]), |ev|;
    assert now[n].calls == calls && later[n].calls == calls + [x];
    assert forall i: nat :: i < n ==> now[i] == ev[i] && later[i] == ev[i];
  }

  lemma {:induction false} EditCallTold(ev: seq<Event>, stamp: int, calls: seq<ToolCall>, x: ToolCall, m: map<CallId, EditRow>)
    requires EditsTold(Calling(ev, stamp, calls), m)
    ensures EditsTold(Calling(ev, stamp, calls + [x]),
                      if x.edit.Some? then WithStub(m, EditStub(x.callId, |ev|, stamp, x.edit.value.length)) else m)
  {
    var now, later := Calling(ev, stamp, calls), Calling(ev, stamp, calls + [x]);
    var out := if x.edit.Some? then WithStub(m, EditStub(x.callId, |ev|, stamp, x.edit.value.length)) else m;
    forall c ensures EditTold(later, c, out) {
      CallMoves(ev, stamp, calls, x, c);
      if x.edit.Some? && x.callId == c {
        EditCalled(now, later, c, |ev|, |calls|, m);
      } else {
        EditKept(now, later, c, m, out);
      }
    }
  }

  lemma {:induction false} SectionsCalledTold(ev: seq<Event>, stamp: int, calls: seq<ToolCall>, x: ToolCall, m: map<(CallId, nat), CallRow>)
    requires SectionsTold(Calling(ev, stamp, calls), m) && x.edit.Some?
    ensures SectionsTold(Calling(ev, stamp, calls + [x]), PutAll(m, SectionRows(x.callId, |ev|, x.edit.value.sections, 0)))
  {
    var now, later := Calling(ev, stamp, calls), Calling(ev, stamp, calls + [x]);
    var sections := x.edit.value.sections;
    var out := PutAll(m, SectionRows(x.callId, |ev|, sections, 0));
    forall c, i: nat ensures SectionTold(later, c, i, out) {
      CallMoves(ev, stamp, calls, x, c);
      SectionsPut(m, x.callId, |ev|, sections, 0, c, i);
      assert SectionTold(now, c, i, m);
      if x.callId == c && i < |sections| {
        SectionCalled(now, later, c, i, |ev|, |calls|, out);
      } else {
        SectionKept(now, later, c, i, m, out);
      }
    }
  }

  lemma {:induction false} OneCallTold(ev: seq<Event>, stamp: int, calls: seq<ToolCall>, x: ToolCall, r: Records)
    requires CallsAndEditsTold(Calling(ev, stamp, calls), r)
    ensures CallsAndEditsTold(Calling(ev, stamp, calls + [x]), WithCall(r, |ev|, stamp, x))
  {
    PutOne<(CallId, nat), string>(map[], r.toolCalls, ((x.callId, |ev|), x.data));
    CallTold(ev, stamp, calls, x, PutAll(map[], r.toolCalls));
    EditCallTold(ev, stamp, calls, x, WithOutcomes(WithStubs(map[], r.editCalls), r.editResults));
    if x.edit.Some? {
      StubOne(map[], r.editCalls, EditStub(x.callId, |ev|, stamp, x.edit.value.length), r.editResults);
      PutAllJoins<(CallId, nat), CallRow>(map[], r.editSections, SectionRows(x.callId, |ev|, x.edit.value.sections, 0));
      SectionsCalledTold(ev, stamp, calls, x, PutAll(map[], r.editSections));
    } else {
      forall c ensures SameEdits(Calling(ev, stamp, calls), Calling(ev, stamp, calls + [x]), c) {
        CallMoves(ev, stamp, calls, x, c);
      }
      SectionsQuiet(Calling(ev, stamp, calls), Calling(ev, stamp, calls + [x]), PutAll(map[], r.editSections));
    }
  }

  lemma {:induction false} AllCallsTold(ev: seq<Event>, stamp: int, calls: seq<ToolCall>, r: Records)
    requires CallsAndEditsTold(ev, r)
    ensures CallsAndEditsTold(Calling(ev, stamp, calls), WithCalls(r, |ev|, stamp, calls))
    decreases |calls|
  {
    if calls == [] {
      PlainTold(ev, Assistant(stamp, [], None), r);
    } else {
      var k := |calls| - 1;
      AllCallsTold(ev, stamp, calls[..k], r);
      assert calls == calls[..k] + [calls[k]];
      CallsSplit(r, |ev|, stamp, calls[..k], [calls[k]]);
      assert [calls[k]][1..] == [];
      OneCallTold(ev, stamp, calls[..k], calls[k], WithCalls(r, |ev|, stamp, calls[..k]));
    }
  }

  /** The text of a line has no part in its calls. */
  lemma {:induction false} TextQuiet(ev: seq<Event>, e: Event, r: Records)
    requires e.Assistant? && CallsAndEditsTold(Calling(ev, e.stamp, e.calls), r)
    ensures CallsAndEditsTold(ev + [e], r)
  {
    var now, later := Calling(ev, e.stamp, e.calls), ev + [e];
    assert Quiet(now, later);
    SectionsQuiet(now, later, PutAll(map[], r.editSections));
    EditsQuiet(now, later, WithOutcomes(WithStubs(map[], r.editCalls), r.editResults));
    SameCalls(now, later, PutAll(map[], r.toolCalls));
  }

  lemma {:induction false} LineTold(ev: seq<Event>, e: Event, r: Records)
    requires CallsAndEditsTold(ev, r)
    ensures CallsAndEditsTold(ev + [e], Ingested(r, |ev|, e))
  {
    if e.Assistant? {
      AllCallsTold(ev, e.stamp, e.calls, r);
      TextQuiet(ev, e, WithCalls(r, |ev|, e.stamp, e.calls));
    } else if e.ToolResult? && e.edit.Some? {
      AnswerTold(ev, e, r);
    } else {
      PlainTold(ev, e, r);
    }
  }

  // ----- The whole file -----

  lemma {:induction false} RecordedTold(ev: seq<Event>)
    ensures Told(ev, Filled(Recorded(ev)))
    decreases |ev|
  {
    if ev != [] {
      var n := |ev| - 1;
      var before, e := ev[..n], ev[n];
      assert ev == before + [e];
      RecordedTold(before);
      var r := Recorded(before);
      ResultTold(before, r, e);
      TextTold(before, r, e);
      MetaTold(before, r, e);
      LineTold(before, e, r);
    }
  }

  /** What a full parse leaves is what the lines of the file say, and nothing else. */
  lemma {:induction false} FullTold(decode: Decoding, content: seq<Byte>)
    ensures Told(Events(decode, content), Full(decode, content))
  {
    assert From(content, 0) == content;
    ParsedIsRecorded(decode, Lines(content));
    assert EventsOf(decode, Lines(content)) == Events(decode, content);
    RecordedTold(Events(decode, content));
  }

  // ----- What one sync does -----

  /** The file looks as it did when it was last parsed, by the current parser. */
  predicate Untouched(prev: Option<Progress>, look: Look) {
    !look.full && prev.Some? && prev.value.parserVersion >= EDIT_PARSER_VERSION
    && look.size == prev.value.size && look.mtime <= prev.value.mtime
  }

  /** The rows stored cannot be read on from: asked for, never parsed, an older parser, or a file not merely longer. */
  predicate MustRebuild(prev: Option<Progress>, look: Look) {
    || look.full || prev.None? || prev.value.parserVersion < EDIT_PARSER_VERSION
    || look.size < prev.value.offset || (look.size == prev.value.offset && look.mtime > prev.value.mtime)
  }

  /** A value found replaces the stored one; a value not found leaves it. */
  predicate Over<T(==)>(out: Option<T>, found: Option<T>, stored: Option<T>) {
    (found.Some? ==> out == found) && (found.None? ==> out == stored)
  }

  predicate HeaderOver(out: Meta, found: Meta, stored: Meta) {
    && Over(out.uuid, found.uuid, stored.uuid) && Over(out.version, found.version, stored.version)
    && Over(out.title, found.title, stored.title) && Over(out.cwd, found.cwd, stored.cwd)
    && Over(out.started, found.started, stored.started)
  }

  /** A rebuild leaves the rows of a full parse, and the header found over the stored one. */
  lemma {:induction false} RebuildClears(decode: Decoding, t: Tables, content: seq<Byte>)
    ensures var u, full := Written(t, Parsed(decode, content, 0, 0), true), Full(decode, content);
            && u.meta.Some? && full.meta.Some? && u == full.(meta := u.meta)
            && HeaderOver(u.meta.value, full.meta.value, if t.meta.Some? then t.meta.value else NO_META)
  {
  }

  lemma {:induction false} Decided(prev: Option<Progress>, look: Look)
    ensures Decision(prev, look.full, look.size, look.mtime) ==
            if Untouched(prev, look) then None
            else if MustRebuild(prev, look) then Some((true, 0, 0))
            else Some((false, prev.value.offset, prev.value.lines))
  {
  }

  function Next(look: Look, offset: nat, lines: nat): Progress {
    Progress(look.parseMtime, look.parseSize, offset + |From(look.content, offset)|,
             lines + |Lines(From(look.content, offset))|, EDIT_PARSER_VERSION)
  }

  lemma {:induction false} SyncedBy(decode: Decoding, t: Tables, prev: Option<Progress>, look: Look, rebuild: bool, offset: nat, lines: nat)
    requires Decision(prev, look.full, look.size, look.mtime) == Some((rebuild, offset, lines))
    ensures Synced(decode, t, prev, look) ==
            (Written(t, Parsed(decode, look.content, offset, lines), rebuild), Some(Next(look, offset, lines)))
  {
  }

  /**
   A sync of an untouched file does nothing. One that must rebuild leaves the rows of a full parse,
   whatever was stored, and the header found over the stored one. Any other adds what is read from
   the stored offset on, at the stored line number.
   */
  lemma {:induction false} SyncActs(decode: Decoding, t: Tables, prev: Option<Progress>, look: Look)
    ensures var (u, next) := Synced(decode, t, prev, look);
            var full := Full(decode, look.content);
            if Untouched(prev, look) then u == t && next == prev
            else if MustRebuild(prev, look) then
              && u.meta.Some? && u == full.(meta := u.meta)
              && HeaderOver(u.meta.value, full.meta.value, if t.meta.Some? then t.meta.value else NO_META)
              && next == Some(Progress(look.parseMtime, look.parseSize, |look.content|, |Lines(look.content)|, EDIT_PARSER_VERSION))
            else
              var p := prev.value;
              && u == Written(t, Parsed(decode, look.content, p.offset, p.lines), false)
              && next == Some(Progress(look.parseMtime, look.parseSize, p.offset + |From(look.content, p.offset)|,
                                       p.lines + |Lines(From(look.content, p.offset))|, EDIT_PARSER_VERSION))
  {
    Decided(prev, look);
    if !Untouched(prev, look) {
      if MustRebuild(prev, look) {
        SyncedBy(decode, t, prev, look, true, 0, 0);
        assert From(look.content, 0) == look.content;
        RebuildClears(decode, t, look.content);
      } else {
        SyncedBy(decode, t, prev, look, false, prev.value.offset, prev.value.lines);
      }
    }
  }
}
