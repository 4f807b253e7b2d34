/**
 The two-phase read replay: phase one charges every simulated call that brings a new line,
 phase two charges exactly the lines the agent received that phase one never delivered.
 Costs are left out; what is charged, and how many calls, is exact.
 */
module Replay {
  import opened Wrappers
  import opened Intervals

  datatype Kind = Bare | Bounded | Raw | Unbounded

  /** What the agent asked for; `Unbounded` stands for conflict views and unparsed selectors. */
  datatype Intent = Intent(kind: Kind, start: Option<int>, end: Option<int>)

  datatype ReadCall = ReadCall(intent: Intent, actualStart: Option<int>, actualEnd: Option<int>)

  /** `byteLines` is the number of lines the byte cap admits, when a line size is known. */
  datatype FileStats = FileStats(sizeLines: int, byteLines: Option<nat>)

  datatype Config = Config(defaultPage: int, lineCap: int)

  function ByteCap(fs: FileStats): Option<int> {
    if fs.byteLines.Some? then Some(Max(1, fs.byteLines.value)) else None
  }

  function MaxPerCall(fs: FileStats, cfg: Config): int {
    var cap := ByteCap(fs);
    if cap.Some? then Min(cfg.lineCap, cap.value) else cfg.lineCap
  }

  /** The range one call returns under a configuration. */
  function EffectiveReturned(intent: Intent, fs: FileStats, cfg: Config): (r: Option<Iv>)
    ensures r.Some? ==> r.value.s <= r.value.e
    ensures r.None? <==> intent.kind.Unbounded?
  {
    var size := Max(fs.sizeLines, 1);
    if intent.kind.Unbounded? then None
    else
      var start := if intent.kind.Bounded? && intent.start.Some? && intent.start.value != 0 then intent.start.value else 1;
      var wanted :=
        if intent.kind.Bare? then cfg.defaultPage
        else if intent.kind.Raw? then size
        else if intent.end.Some? then intent.end.value
        else start + cfg.defaultPage - 1;
      var capped := Min(Min(wanted, size), start + cfg.lineCap - 1);
      var cap := ByteCap(fs);
      var end := if cap.Some? then Min(capped, start + cap.value - 1) else capped;
      Some(Iv(start, if end < start then start else end))
  }

  /** A call never returns more than the caps allow, nor lines past the end after its first. */
  lemma {:induction false} ReturnedWithinCaps(intent: Intent, fs: FileStats, cfg: Config)
    requires cfg.lineCap >= 1 && !intent.kind.Unbounded?
    ensures var r := EffectiveReturned(intent, fs, cfg).value;
      r.e - r.s + 1 <= MaxPerCall(fs, cfg) && (r.e > r.s ==> r.e <= Max(fs.sizeLines, 1))
  {
  }

  // ----- Which lines a call returns -----

  /** The line a call begins with. */
  predicate BeginsAt(intent: Intent, first: int) {
    if intent.kind.Bounded? && intent.start.Some? && intent.start.value != 0 then first == intent.start.value else first == 1
  }

  /** A line the call asks for, from its first one on. */
  predicate Asks(intent: Intent, first: int, size: int, page: int, x: int) {
    first <= x && match intent.kind
    case Bare => x <= page
    case Raw => x <= size
    case Bounded => if intent.end.Some? then x <= intent.end.value else x < first + page
    case Unbounded => false
  }

  /** Fewer lines than either cap come before this one; the byte cap admits at least one line. */
  predicate WithinCaps(first: int, fs: FileStats, cfg: Config, x: int) {
    x < first + cfg.lineCap && (fs.byteLines.Some? ==> x < first + fs.byteLines.value || x < first + 1)
  }

  /** A call returns its first line, and the lines behind it that it asks for, the file has and the caps admit. */
  lemma {:induction false} ReturnsWhatIsAsked(intent: Intent, fs: FileStats, cfg: Config, first: int, x: int)
    requires !intent.kind.Unbounded? && BeginsAt(intent, first)
    ensures var r, size := EffectiveReturned(intent, fs, cfg).value, if fs.sizeLines < 1 then 1 else fs.sizeLines;
            r.s <= x <= r.e <==>
              x == first || (Asks(intent, first, size, cfg.defaultPage, x) && x <= size && WithinCaps(first, fs, cfg, x))
  {
  }

  /** The most lines a synthetic call may have: what a call from line 1 may return. */
  lemma {:induction false} MostPerCall(fs: FileStats, cfg: Config, n: int)
    ensures n <= MaxPerCall(fs, cfg) <==> WithinCaps(1, fs, cfg, n)
  {
  }

  // ----- Chunks -----

  /** Consecutive full pieces of size `cap`, the last one possibly shorter. */
  ghost predicate Tiles(l: seq<Iv>, s: int, e: int, cap: int) {
    && (forall i :: 0 <= i < |l| ==> l[i].s <= l[i].e < l[i].s + cap)
    && (forall i :: 0 <= i < |l| - 1 ==> l[i].e == l[i].s + cap - 1 && l[i + 1].s == l[i].e + 1)
    && (if s <= e then l != [] && l[0].s == s && l[|l| - 1].e == e else l == [])
  }

  function ChunksFrom(s: int, e: int, cap: int): seq<Iv>
    requires cap >= 1
    decreases e - s + 1
  {
    if s > e then [] else [Iv(s, Min(s + cap - 1, e))] + ChunksFrom(Min(s + cap - 1, e) + 1, e, cap)
  }

  lemma {:induction false} ChunksTile(s: int, e: int, cap: int)
    requires cap >= 1
    ensures Tiles(ChunksFrom(s, e, cap), s, e, cap)
    decreases e - s + 1
  {
    if s <= e { ChunksTile(Min(s + cap - 1, e) + 1, e, cap); }
  }

  lemma {:induction false} ChunksApart(s: int, e: int, cap: int)
    requires cap >= 1
    ensures Pieces(ChunksFrom(s, e, cap))
    ensures forall i :: 0 <= i < |ChunksFrom(s, e, cap)| ==> s <= ChunksFrom(s, e, cap)[i].s
    decreases e - s + 1
  {
    if s <= e { ChunksApart(Min(s + cap - 1, e) + 1, e, cap); }
  }

  lemma {:induction false} ChunksHold(s: int, e: int, cap: int, x: int)
    requires cap >= 1
    ensures In(ChunksFrom(s, e, cap), x) <==> s <= x <= e
    decreases e - s + 1
  {
    if s <= e {
      ChunksHold(Min(s + cap - 1, e) + 1, e, cap, x);
      var all := ChunksFrom(s, e, cap);
      InHeadTail(all, x);
      assert all[1..] == ChunksFrom(Min(s + cap - 1, e) + 1, e, cap);
    }
  }

  method ChunkRange(s: int, e: int, cap: int) returns (out: seq<Iv>)
    requires cap >= 1
    ensures Tiles(out, s, e, cap) && Pieces(out)
    ensures forall x :: In(out, x) <==> s <= x <= e
  {
    out := [];
    var cur := s;
    ghost var all := ChunksFrom(s, e, cap);
    while cur <= e
      invariant all == out + ChunksFrom(cur, e, cap)
      decreases e + 1 - cur
    {
      var end := Min(cur + cap - 1, e);
      out := out + [Iv(cur, end)];
      cur := end + 1;
    }
    assert out == all;
    ChunksTile(s, e, cap);
    ChunksApart(s, e, cap);
    forall x ensures In(out, x) <==> s <= x <= e { ChunksHold(s, e, cap, x); }
  }

  // ----- Replay -----

  /** Ranges the agent actually received. */
  function Observed(calls: seq<ReadCall>): (r: seq<Iv>)
    ensures Valid(r)
  {
    if calls == [] then [] else Observed(calls[..|calls| - 1]) + Reported(calls[|calls| - 1])
  }

  /** The calls phase one charges: those returning a line no earlier charged call returned. */
  ghost function Charged(calls: seq<ReadCall>, fs: FileStats, cfg: Config): seq<Iv> {
    if calls == [] then []
    else
      var before := Charged(calls[..|calls| - 1], fs, cfg);
      var ret := EffectiveReturned(calls[|calls| - 1].intent, fs, cfg);
      if ret.None? || Covers(before, ret.value.s, ret.value.e) then before else before + [ret.value]
  }

  lemma {:induction false} ChargedValid(calls: seq<ReadCall>, fs: FileStats, cfg: Config)
    ensures Valid(Charged(calls, fs, cfg))
    decreases |calls|
  {
    if calls != [] { ChargedValid(calls[..|calls| - 1], fs, cfg); }
  }

  lemma {:induction false} CoversSamePoints(a: seq<Iv>, b: seq<Iv>, s: int, e: int)
    requires SamePoints(a, b)
    ensures Covers(a, s, e) <==> Covers(b, s, e)
  {
    if Covers(a, s, e) {
      forall x | s <= x <= e ensures In(b, x) { assert In(a, x); }
    }
    if Covers(b, s, e) {
      forall x | s <= x <= e ensures In(a, x) { assert In(b, x); }
    }
  }

  function Reported(rc: ReadCall): seq<Iv> {
    if rc.actualStart.Some? && rc.actualEnd.Some? && rc.actualEnd.value >= rc.actualStart.value
    then [Iv(rc.actualStart.value, rc.actualEnd.value)] else []
  }

  /** A line was received exactly when some call reported a range that holds it. */
  lemma {:induction false} ObservedLines(calls: seq<ReadCall>, x: int)
    ensures In(Observed(calls), x) <==>
              exists i :: 0 <= i < |calls| && calls[i].actualStart.Some? && calls[i].actualEnd.Some? &&
                          calls[i].actualStart.value <= x <= calls[i].actualEnd.value
    decreases |calls|
  {
    if calls != [] {
      var init, last := calls[..|calls| - 1], calls[|calls| - 1];
      ObservedLines(init, x);
      InConcat(Observed(init), Reported(last), x);
      if Reported(last) != [] { InOne(Reported(last)[0], x); }
      assert forall i :: 0 <= i < |init| ==> init[i] == calls[i];
    }
  }

  lemma {:induction false} StepUnfolds(calls: seq<ReadCall>, i: nat, fs: FileStats, cfg: Config)
    requires i < |calls|
    ensures Observed(calls[..i + 1]) == Observed(calls[..i]) + Reported(calls[i])
    ensures var before := Charged(calls[..i], fs, cfg);
      var ret := EffectiveReturned(calls[i].intent, fs, cfg);
      Charged(calls[..i + 1], fs, cfg) ==
        if ret.None? || Covers(before, ret.value.s, ret.value.e) then before else before + [ret.value]
  {
    assert calls[..i + 1][..i] == calls[..i];
  }

  /** Folds one returned range into the coverage unless it is already inside. */
  method Charge(covered: seq<Iv>, charged: seq<Iv>, ret: Iv) returns (covered': seq<Iv>, charged': seq<Iv>)
    requires Canonical(covered) && SamePoints(covered, charged) && ret.s <= ret.e
    ensures Canonical(covered') && SamePoints(covered', charged')
    ensures charged' == if Covers(charged, ret.s, ret.e) then charged else charged + [ret]
  {
    var inside := Contained(ret.s, ret.e, covered);
    CoversSamePoints(covered, charged, ret.s, ret.e);
    if inside { return covered, charged; }
    charged' := charged + [ret];
    covered' := Merge(covered + [ret]);
    forall x ensures In(covered', x) <==> In(charged', x) {
      InAppend(covered, ret, x);
      InAppend(charged, ret, x);
      assert In(covered, x) <==> In(charged, x);
    }
  }

  /** Phase one, with the running coverage kept as a merged list. */
  method PhaseOne(calls: seq<ReadCall>, fs: FileStats, cfg: Config) returns (covered: seq<Iv>, charged: seq<Iv>, needed: seq<Iv>)
    ensures Canonical(covered) && SamePoints(covered, charged)
    ensures charged == Charged(calls, fs, cfg) && needed == Observed(calls)
  {
    covered, charged, needed := [], [], [];
    var i := 0;
    while i < |calls|
      invariant 0 <= i <= |calls|
      invariant Canonical(covered) && SamePoints(covered, charged)
      invariant charged == Charged(calls[..i], fs, cfg) && needed == Observed(calls[..i])
    {
      StepUnfolds(calls, i, fs, cfg);
      needed := needed + Reported(calls[i]);
      var ret := EffectiveReturned(calls[i].intent, fs, cfg);
      if ret.Some? { covered, charged := Charge(covered, charged, ret.value); }
      i := i + 1;
    }
    assert calls[..i] == calls;
  }

  /** Lines of `needs` that `covered` lacks, in order. */
  method Gaps(needs: seq<Iv>, covered: seq<Iv>) returns (gaps: seq<Iv>)
    requires Canonical(needs) && Valid(covered)
    ensures Canonical(gaps)
    ensures forall x :: In(gaps, x) <==> In(needs, x) && !In(covered, x)
  {
    gaps := [];
    var i := 0;
    while i < |needs|
      invariant 0 <= i <= |needs| && Canonical(gaps)
      invariant forall j, k :: 0 <= j < |gaps| && i <= k < |needs| ==> gaps[j].e + 1 < needs[k].s
      invariant forall x :: In(gaps, x) <==> In(needs[..i], x) && !In(covered, x)
    {
      var need := needs[i];
      var parts := Subtract(need.s, need.e, covered);
      PartsInside(parts, need.s, need.e);
      ghost var before := gaps;
      gaps := gaps + parts;
      assert needs[..i + 1] == needs[..i] + [need];
      forall x ensures In(gaps, x) <==> In(needs[..i + 1], x) && !In(covered, x) {
        InConcat(before, parts, x);
        InAppend(needs[..i], need, x);
      }
      i := i + 1;
    }
    assert needs[..i] == needs;
  }

  lemma {:induction false} PartsInside(parts: seq<Iv>, s: int, e: int)
    requires Valid(parts) && forall x :: In(parts, x) ==> s <= x <= e
    ensures forall i :: 0 <= i < |parts| ==> s <= parts[i].s && parts[i].e <= e
  {
    forall i | 0 <= i < |parts| ensures s <= parts[i].s && parts[i].e <= e {
      assert In(parts, parts[i].s) && In(parts, parts[i].e);
    }
  }

  lemma {:induction false} InConcat(a: seq<Iv>, b: seq<Iv>, x: int)
    ensures In(a + b, x) <==> In(a, x) || In(b, x)
  {
    if In(a, x) {
      var i :| 0 <= i < |a| && a[i].s <= x <= a[i].e;
      assert (a + b)[i] == a[i];
    }
    if In(b, x) {
      var i :| 0 <= i < |b| && b[i].s <= x <= b[i].e;
      assert (a + b)[|a| + i] == b[i];
    }
  }

  /** Full chunks of `cap` lines, but for the last one of a gap. */
  ghost predicate FullOrLast(chunks: seq<Iv>, cap: int) {
    forall i :: 0 <= i < |chunks| ==>
      chunks[i].e - chunks[i].s + 1 == cap || (chunks[i].e - chunks[i].s + 1 < cap && !In(chunks, chunks[i].e + 1))
  }

  lemma {:induction false} FullOrLastJoins(a: seq<Iv>, b: seq<Iv>, at: int, cap: int)
    requires FullOrLast(a, cap) && FullOrLast(b, cap) && Valid(a) && Valid(b)
    requires forall j :: 0 <= j < |a| ==> a[j].e + 1 < at
    requires forall j :: 0 <= j < |b| ==> at <= b[j].s
    ensures FullOrLast(a + b, cap)
  {
    var all := a + b;
    forall i | 0 <= i < |all|
      ensures all[i].e - all[i].s + 1 == cap || (all[i].e - all[i].s + 1 < cap && !In(all, all[i].e + 1))
    {
      assert all[i] == if i < |a| then a[i] else b[i - |a|];
      InConcat(a, b, all[i].e + 1);
    }
  }

  lemma {:induction false} TilesFull(parts: seq<Iv>, s: int, e: int, cap: int)
    requires Tiles(parts, s, e, cap) && forall x :: In(parts, x) <==> s <= x <= e
    ensures FullOrLast(parts, cap)
  {
  }

  /** Every gap in chunks of `cap` lines, its last one possibly shorter. */
  method ChunkGaps(gaps: seq<Iv>, cap: int) returns (chunks: seq<Iv>)
    requires Canonical(gaps) && cap >= 1
    ensures Pieces(chunks) && SamePoints(chunks, gaps) && FullOrLast(chunks, cap)
  {
    chunks := [];
    var i := 0;
    while i < |gaps|
      invariant 0 <= i <= |gaps| && Pieces(chunks) && SamePoints(chunks, gaps[..i])
      invariant forall j, k :: 0 <= j < |chunks| && i <= k < |gaps| ==> chunks[j].e + 1 < gaps[k].s
      invariant FullOrLast(chunks, cap)
    {
      var parts := ChunkRange(gaps[i].s, gaps[i].e, cap);
      PartsInside(parts, gaps[i].s, gaps[i].e);
      TilesFull(parts, gaps[i].s, gaps[i].e, cap);
      FullOrLastJoins(chunks, parts, gaps[i].s, cap);
      ghost var before := chunks;
      chunks := chunks + parts;
      assert gaps[..i + 1] == gaps[..i] + [gaps[i]];
      forall x ensures In(chunks, x) <==> In(gaps[..i + 1], x) {
        InConcat(before, parts, x);
        InAppend(gaps[..i], gaps[i], x);
        assert In(before, x) <==> In(gaps[..i], x);
      }
      i := i + 1;
    }
    assert gaps[..i] == gaps;
  }

  /**
   Replays one file of one session. `charged` are the phase-one calls and `chunks` the
   synthetic ones; together they are every call the replay pays for.
   */
  method ReplayPair(calls: seq<ReadCall>, fs: FileStats, cfg: Config)
      returns (kept: nat, charged: seq<Iv>, chunks: seq<Iv>, covered: seq<Iv>)
    requires cfg.lineCap >= 1
    ensures kept == |charged| + |chunks|
    ensures charged == Charged(calls, fs, cfg)
    // Phase two pays for exactly the shortfall, in disjoint pieces within both caps.
    ensures Pieces(chunks)
    ensures forall x :: In(chunks, x) <==> In(Observed(calls), x) && !In(charged, x)
    ensures FullOrLast(chunks, MaxPerCall(fs, cfg))
    ensures Size(chunks) == |Lines(Observed(calls)) - Lines(charged)|
    // The simulated coverage is what was paid for, and contains every observed line.
    ensures Canonical(covered)
    ensures forall x :: In(covered, x) <==> In(charged, x) || In(chunks, x)
    ensures forall x :: In(Observed(calls), x) ==> In(covered, x)
  {
    var first, needed;
    first, charged, needed := PhaseOne(calls, fs, cfg);
    ChargedValid(calls, fs, cfg);
    var needs := Merge(needed);
    var gaps := Gaps(needs, first);
    chunks := ChunkGaps(gaps, MaxPerCall(fs, cfg));
    kept := |charged| + |chunks|;
    covered := Merge(first + chunks);
    forall x
      ensures In(chunks, x) <==> In(Observed(calls), x) && !In(charged, x)
      ensures In(covered, x) <==> In(charged, x) || In(chunks, x)
    {
      ShortfallPoint(needed, needs, first, charged, gaps, chunks, covered, x);
    }
    ShortfallSize(chunks, needed, charged);
  }

  lemma {:induction false} ShortfallPoint(needed: seq<Iv>, needs: seq<Iv>, first: seq<Iv>, charged: seq<Iv>, gaps: seq<Iv>, chunks: seq<Iv>,
                       covered: seq<Iv>, x: int)
    requires SamePoints(needs, needed) && SamePoints(first, charged) && SamePoints(chunks, gaps)
    requires forall y :: In(gaps, y) <==> In(needs, y) && !In(first, y)
    requires SamePoints(covered, first + chunks)
    ensures In(chunks, x) <==> In(needed, x) && !In(charged, x)
    ensures In(covered, x) <==> In(charged, x) || In(chunks, x)
  {
    InConcat(first, chunks, x);
    assert In(chunks, x) <==> In(gaps, x);
    assert In(needs, x) <==> In(needed, x);
    assert In(first, x) <==> In(charged, x);
    assert In(covered, x) <==> In(first + chunks, x);
  }

  lemma {:induction false} ShortfallSize(chunks: seq<Iv>, needed: seq<Iv>, charged: seq<Iv>)
    requires Pieces(chunks) && forall x :: In(chunks, x) <==> In(needed, x) && !In(charged, x)
    ensures Size(chunks) == |Lines(needed) - Lines(charged)|
  {
    forall x ensures x in Lines(chunks) <==> x in Lines(needed) - Lines(charged) { ShortfallLine(chunks, needed, charged, x); }
    assert Lines(chunks) == Lines(needed) - Lines(charged);
    SizeCountsLines(chunks);
  }

  lemma {:induction false} ShortfallLine(chunks: seq<Iv>, needed: seq<Iv>, charged: seq<Iv>, x: int)
    requires In(chunks, x) <==> In(needed, x) && !In(charged, x)
    ensures x in Lines(chunks) <==> x in Lines(needed) && x !in Lines(charged)
  {
    LinesAreIn(chunks);
    LinesAreIn(charged);
    LinesAreIn(needed);
  }

  /** Everything any call would have returned is in the phase-one coverage. */
  lemma {:induction false} ChargedCoversReturns(calls: seq<ReadCall>, fs: FileStats, cfg: Config, i: nat)
    requires i < |calls| && !calls[i].intent.kind.Unbounded?
    ensures var r := EffectiveReturned(calls[i].intent, fs, cfg).value; Covers(Charged(calls, fs, cfg), r.s, r.e)
    decreases |calls|
  {
    var init := calls[..|calls| - 1];
    var before, all := Charged(init, fs, cfg), Charged(calls, fs, cfg);
    if i < |init| {
      ChargedCoversReturns(init, fs, cfg, i);
      assert init[i] == calls[i];
    }
    var ret := EffectiveReturned(calls[|calls| - 1].intent, fs, cfg);
    if all != before {
      forall x ensures In(all, x) <==> In(before, x) || ret.value.s <= x <= ret.value.e { InAppend(before, ret.value, x); }
    }
  }

  /** No charged call is free of charge by accident: each returned a line none before it did. */
  lemma {:induction false} EachChargeIsNew(calls: seq<ReadCall>, fs: FileStats, cfg: Config, i: nat)
    requires i < |Charged(calls, fs, cfg)|
    ensures var l := Charged(calls, fs, cfg); exists x :: l[i].s <= x <= l[i].e && !In(l[..i], x)
    decreases |calls|
  {
    var l, before := Charged(calls, fs, cfg), Charged(calls[..|calls| - 1], fs, cfg);
    if i < |before| {
      EachChargeIsNew(calls[..|calls| - 1], fs, cfg, i);
      assert l[..i] == before[..i] && l[i] == before[i];
    } else {
      assert l[..i] == before;
    }
  }
}
