/** Tiling a file into kept and elided segments, and the summary from tree to segments. */
module SummarySegments {
  import opened Wrappers
  import opened Intervals
  import opened SummaryForest
  import opened SummaryGeometry
  import opened Summary

  datatype Segment = Segment(kept: bool, start: int, end: int, text: Option<string>)

  function Join(lines: seq<string>): string {
    if lines == [] then ""
    else if |lines| == 1 then lines[0]
    else lines[0] + "\n" + Join(lines[1..])
  }

  /** Segments cover `from..to` without gap, and neighbours differ in kind. */
  ghost predicate Tiles(segs: seq<Segment>, from: int, to: int) {
    && (if from <= to then segs != [] && segs[0].start == from && segs[|segs| - 1].end == to else segs == [])
    && (forall i :: 0 <= i < |segs| ==> segs[i].start <= segs[i].end)
    && (forall i :: 0 < i < |segs| ==> segs[i].start == segs[i - 1].end + 1 && segs[i].kept != segs[i - 1].kept)
  }

  /** A segment is of one kind throughout, and a kept one carries the source lines verbatim. */
  ghost predicate Faithful(seg: Segment, lines: seq<string>, spans: seq<Iv>) {
    && 1 <= seg.start <= seg.end <= |lines|
    && (forall x :: seg.start <= x <= seg.end ==> (seg.kept <==> !In(spans, x)))
    && seg.text == (if seg.kept then Some(Join(lines[seg.start - 1..seg.end])) else None)
  }

  ghost predicate AllFaithful(segs: seq<Segment>, lines: seq<string>, spans: seq<Iv>) {
    forall i :: 0 <= i < |segs| ==> Faithful(segs[i], lines, spans)
  }

  /** The pending segment's variables: lines `start..n - 1`, all of one kind. */
  ghost predicate Pending(segs: seq<Segment>, lines: seq<string>, spans: seq<Iv>, kept: bool, start: int, n: int, current: seq<string>) {
    && 1 <= start < n <= |lines| + 1
    && (forall x :: start <= x < n ==> (kept <==> !In(spans, x)))
    && current == (if kept then lines[start - 1..n - 1] else [])
    && (segs != [] ==> segs[|segs| - 1].kept != kept)
  }

  lemma {:induction false} TilesPush(segs: seq<Segment>, seg: Segment)
    requires 1 <= seg.start <= seg.end && Tiles(segs, 1, seg.start - 1)
    requires segs != [] ==> segs[|segs| - 1].kept != seg.kept
    ensures Tiles(segs + [seg], 1, seg.end)
  {
  }

  lemma {:induction false} FaithfulPush(segs: seq<Segment>, seg: Segment, lines: seq<string>, spans: seq<Iv>)
    requires AllFaithful(segs, lines, spans) && Faithful(seg, lines, spans)
    ensures AllFaithful(segs + [seg], lines, spans)
  {
  }

  lemma {:induction false} PushTiles(segs: seq<Segment>, lines: seq<string>, spans: seq<Iv>, kept: bool, start: int, n: int, current: seq<string>)
    requires Tiles(segs, 1, start - 1) && AllFaithful(segs, lines, spans)
    requires Pending(segs, lines, spans, kept, start, n, current)
    ensures var all := segs + [Segment(kept, start, n - 1, if kept then Some(Join(current)) else None)];
      Tiles(all, 1, n - 1) && AllFaithful(all, lines, spans)
  {
    var seg := Segment(kept, start, n - 1, if kept then Some(Join(current)) else None);
    TilesPush(segs, seg);
    FaithfulPush(segs, seg, lines, spans);
  }

  /** One more line of the pending kind. */
  lemma {:induction false} PendingGrows(segs: seq<Segment>, lines: seq<string>, spans: seq<Iv>, kept: bool, start: int, n: int, current: seq<string>)
    requires 1 <= n <= |lines| && (kept <==> !In(spans, n))
    requires (start == n && current == []) || Pending(segs, lines, spans, kept, start, n, current)
    requires segs != [] ==> segs[|segs| - 1].kept != kept
    ensures Pending(segs, lines, spans, kept, start, n + 1, if kept then current + [lines[n - 1]] else current)
  {
    assert lines[start - 1..n] == lines[start - 1..n - 1] + [lines[n - 1]];
  }

  /** State of the pass before line `n`. */
  ghost predicate Building(segs: seq<Segment>, lines: seq<string>, spans: seq<Iv>, kind: Option<bool>, start: int, n: int,
                           current: seq<string>) {
    && Tiles(segs, 1, start - 1) && AllFaithful(segs, lines, spans)
    && match kind
       case None => n == 1 && start == 1 && current == [] && segs == []
       case Some(kept) => Pending(segs, lines, spans, kept, start, n, current)
  }

  lemma {:induction false} BuildingStarts(lines: seq<string>, spans: seq<Iv>)
    ensures Building([], lines, spans, None, 1, 1, [])
  {
  }

  lemma {:induction false} BuildingContinues(segs: seq<Segment>, lines: seq<string>, spans: seq<Iv>, kind: Option<bool>, start: int, n: int,
                          current: seq<string>, kept: bool)
    requires 1 <= n <= |lines| && Building(segs, lines, spans, kind, start, n, current)
    requires (kept <==> !In(spans, n)) && (kind.Some? ==> kind.value == kept)
    ensures Building(segs, lines, spans, Some(kept), start, n + 1, if kept then current + [lines[n - 1]] else current)
  {
    PendingGrows(segs, lines, spans, kept, start, n, current);
  }

  lemma {:induction false} BuildingTurns(segs: seq<Segment>, lines: seq<string>, spans: seq<Iv>, kind: bool, start: int, n: int,
                      current: seq<string>, kept: bool)
    requires 1 <= n <= |lines| && Building(segs, lines, spans, Some(kind), start, n, current)
    requires (kept <==> !In(spans, n)) && kind != kept
    ensures var all := segs + [Segment(kind, start, n - 1, if kind then Some(Join(current)) else None)];
      Building(all, lines, spans, Some(kept), n, n + 1, if kept then [lines[n - 1]] else [])
  {
    PushTiles(segs, lines, spans, kind, start, n, current);
    var all := segs + [Segment(kind, start, n - 1, if kind then Some(Join(current)) else None)];
    PendingGrows(all, lines, spans, kept, n, n, []);
  }

  /** The variables of the pass. */
  datatype Pass = Pass(segs: seq<Segment>, kind: Option<bool>, start: int, current: seq<string>)

  /** Line `n` is kept or elided. */
  function PassNext(p: Pass, lines: seq<string>, n: nat, kept: bool): Pass
    requires 1 <= n <= |lines|
  {
    if p.kind.Some? && p.kind.value != kept then
      Pass(p.segs + [Segment(p.kind.value, p.start, n - 1, if p.kind.value then Some(Join(p.current)) else None)],
           Some(kept), n, if kept then [lines[n - 1]] else [])
    else Pass(p.segs, Some(kept), p.start, if kept then p.current + [lines[n - 1]] else p.current)
  }

  ghost function PassAfter(lines: seq<string>, spans: seq<Iv>, n: nat): Pass
    requires n <= |lines|
  {
    if n == 0 then Pass([], None, 1, []) else PassNext(PassAfter(lines, spans, n - 1), lines, n, !In(spans, n))
  }

  ghost predicate BuildingPass(p: Pass, lines: seq<string>, spans: seq<Iv>, n: nat) {
    Building(p.segs, lines, spans, p.kind, p.start, n, p.current)
  }

  lemma {:induction false} PassTurn(p: Pass, lines: seq<string>, spans: seq<Iv>, n: nat, kept: bool)
    requires 1 <= n <= |lines| && BuildingPass(p, lines, spans, n) && (kept <==> !In(spans, n))
    ensures BuildingPass(PassNext(p, lines, n, kept), lines, spans, n + 1)
  {
    if p.kind.Some? && p.kind.value != kept {
      BuildingTurns(p.segs, lines, spans, p.kind.value, p.start, n, p.current, kept);
    } else {
      BuildingContinues(p.segs, lines, spans, p.kind, p.start, n, p.current, kept);
    }
  }

  lemma {:induction false} PassBuilds(lines: seq<string>, spans: seq<Iv>, n: nat)
    requires n <= |lines|
    ensures BuildingPass(PassAfter(lines, spans, n), lines, spans, n + 1)
    ensures PassAfter(lines, spans, n).kind.None? <==> n == 0
    decreases n
  {
    if n == 0 {
      BuildingStarts(lines, spans);
    } else {
      PassBuilds(lines, spans, n - 1);
      PassTurn(PassAfter(lines, spans, n - 1), lines, spans, n, !In(spans, n));
    }
  }

  lemma {:induction false} PassPending(p: Pass, lines: seq<string>, spans: seq<Iv>, n: nat)
    requires BuildingPass(p, lines, spans, n) && p.kind.Some?
    ensures Tiles(p.segs, 1, p.start - 1) && AllFaithful(p.segs, lines, spans)
    ensures Pending(p.segs, lines, spans, p.kind.value, p.start, n, p.current)
  {
  }

  /** Segments for the lines 1 to |lines|, one pass with the pending segment held in variables. */
  method BuildSegments(lines: seq<string>, spans: seq<Iv>) returns (segs: seq<Segment>)
    requires Canonical(spans)
    ensures Tiles(segs, 1, |lines|) && AllFaithful(segs, lines, spans)
  {
    segs := [];
    var kind: Option<bool> := None;
    var start, current := 1, [];
    var n := 1;
    while n <= |lines|
      invariant 1 <= n <= |lines| + 1 && Pass(segs, kind, start, current) == PassAfter(lines, spans, n - 1)
    {
      var elided := IsVisible(spans, n);
      if kind.Some? && kind.value != !elided {
        segs := PushSegment(segs, kind.value, start, n - 1, current);
        start := n;
        current := [];
      }
      kind := Some(!elided);
      if !elided { current := current + [lines[n - 1]]; }
      assert !elided ==> [] + [lines[n - 1]] == [lines[n - 1]];
      n := n + 1;
    }
    PassBuilds(lines, spans, |lines|);
    if kind.Some? {
      PassPending(Pass(segs, kind, start, current), lines, spans, n);
      PushTiles(segs, lines, spans, kind.value, start, n, current);
      segs := PushSegment(segs, kind.value, start, |lines|, current);
    }
  }

  method PushSegment(segs: seq<Segment>, kept: bool, start: int, end: int, lines: seq<string>) returns (r: seq<Segment>)
    ensures r == segs + [Segment(kept, start, end, if kept then Some(Join(lines)) else None)]
  {
    r := segs + [Segment(kept, start, end, if kept then Some(Join(lines)) else None)];
  }

  // ----- Counting what is kept -----

  function KeptRanges(segs: seq<Segment>): (r: seq<Iv>) {
    if segs == [] then []
    else KeptRanges(segs[..|segs| - 1]) + (if segs[|segs| - 1].kept then [Iv(segs[|segs| - 1].start, segs[|segs| - 1].end)] else [])
  }

  /** Number of lines a summary shows. */
  function KeptLines(segs: seq<Segment>): int {
    Size(KeptRanges(segs))
  }

  ghost function Hidden(spans: seq<Iv>, total: nat): set<int> {
    set x | x in Range(1, total) && In(spans, x)
  }

  lemma {:induction false} StartsFrom(segs: seq<Segment>, to: int, i: nat)
    requires Tiles(segs, 1, to) && i < |segs|
    ensures segs[i].start >= 1
    decreases i
  {
    if i > 0 { StartsFrom(segs, to, i - 1); }
  }

  lemma {:induction false} TilesInit(segs: seq<Segment>, to: int)
    requires segs != [] && Tiles(segs, 1, to)
    ensures Tiles(segs[..|segs| - 1], 1, segs[|segs| - 1].start - 1)
    ensures segs[|segs| - 1].end == to && 1 <= segs[|segs| - 1].start <= to
  {
    StartsFrom(segs, to, |segs| - 1);
    if |segs| > 1 { StartsFrom(segs, to, |segs| - 2); }
  }

  /** The list holds exactly the visible lines up to `to`, each once. */
  ghost predicate ShowsUpTo(l: seq<Iv>, spans: seq<Iv>, to: int) {
    Valid(l) && PairwiseDisjoint(l) && forall x :: In(l, x) <==> 1 <= x <= to && !In(spans, x)
  }

  lemma {:induction false} ShowsNext(l: seq<Iv>, spans: seq<Iv>, start: int, end: int, kept: bool)
    requires 1 <= start <= end && ShowsUpTo(l, spans, start - 1)
    requires forall x :: start <= x <= end ==> (kept <==> !In(spans, x))
    ensures ShowsUpTo(l + (if kept then [Iv(start, end)] else []), spans, end)
  {
    var r := l + (if kept then [Iv(start, end)] else []);
    forall i | 0 <= i < |l| ensures l[i].e < start { assert In(l, l[i].e); }
    forall x ensures In(r, x) <==> 1 <= x <= end && !In(spans, x) {
      if kept { InAppend(l, Iv(start, end), x); } else { assert r == l; }
    }
  }

  lemma {:induction false} KeptAreVisible(segs: seq<Segment>, lines: seq<string>, spans: seq<Iv>, to: nat)
    requires Tiles(segs, 1, to) && to <= |lines| && AllFaithful(segs, lines, spans)
    ensures ShowsUpTo(KeptRanges(segs), spans, to)
    decreases |segs|
  {
    if segs != [] {
      var init, last := segs[..|segs| - 1], segs[|segs| - 1];
      TilesInit(segs, to);
      KeptAreVisible(init, lines, spans, last.start - 1);
      assert Faithful(last, lines, spans);
      ShowsNext(KeptRanges(init), spans, last.start, last.end, last.kept);
    }
  }

  /** Kept and hidden lines add up to the file. */
  lemma {:induction false} KeptPlusHidden(segs: seq<Segment>, lines: seq<string>, spans: seq<Iv>)
    requires Tiles(segs, 1, |lines|) && AllFaithful(segs, lines, spans)
    ensures KeptLines(segs) == |lines| - |Hidden(spans, |lines|)|
  {
    var l, hidden := KeptRanges(segs), Hidden(spans, |lines|);
    KeptAreVisible(segs, lines, spans, |lines|);
    SizeCountsLines(l);
    LinesAreIn(l);
    RangeSize(1, |lines|);
    forall x ensures x in Lines(l) + hidden <==> x in Range(1, |lines|) {
      assert x in Lines(l) <==> In(l, x);
    }
    Complement(Lines(l), hidden, Range(1, |lines|));
  }

  lemma {:induction false} Complement(a: set<int>, b: set<int>, all: set<int>)
    requires a !! b && a + b == all
    ensures |a| + |b| == |all|
  {
  }

  // ----- From tree to segments -----

  /** The folded set listed in some order, as a hash set hands it out. */
  method ListSpans(nodes: seq<SpanNode>, ghost a: Arena, folded: set<nat>) returns (spans: seq<Iv>)
    requires nodes == a.nodes && forall i :: i in folded ==> i < |a.nodes|
    ensures forall x :: In(spans, x) <==> x in Cover(a, folded)
  {
    spans := [];
    var rest := folded;
    while rest != {}
      invariant rest <= folded
      invariant forall x :: In(spans, x) <==> x in Cover(a, folded - rest)
      decreases rest
    {
      var i :| i in rest;
      ghost var before, done := spans, folded - rest;
      spans := spans + [nodes[i].span];
      rest := rest - {i};
      assert folded - rest == done + {i};
      CoverUnion(a, done, {i});
      CoverOne(a, i);
      forall x ensures In(spans, x) <==> x in Cover(a, folded - rest) { InAppend(before, a.nodes[i].span, x); }
    }
    assert folded - rest == folded;
  }

  /** What the segments say about the forest's folded spans. */
  ghost predicate Shows(segs: seq<Segment>, lines: seq<string>, f: Arena, folded: set<nat>)
    requires forall i :: i in folded ==> i < |f.nodes|
  {
    && Tiles(segs, 1, |lines|)
    && (forall i, x :: 0 <= i < |segs| && segs[i].start <= x <= segs[i].end ==> (segs[i].kept <==> x !in Cover(f, folded)))
    && (forall i :: 0 <= i < |segs| ==>
          1 <= segs[i].start <= segs[i].end <= |lines| &&
          segs[i].text == if segs[i].kept then Some(Join(lines[segs[i].start - 1..segs[i].end])) else None)
  }

  lemma {:induction false} SegmentsShow(segs: seq<Segment>, lines: seq<string>, spans: seq<Iv>, f: Arena, folded: set<nat>)
    requires forall i :: i in folded ==> i < |f.nodes|
    requires Tiles(segs, 1, |lines|) && AllFaithful(segs, lines, spans)
    requires forall x :: 1 <= x <= |lines| ==> (In(spans, x) <==> x in Cover(f, folded))
    ensures Shows(segs, lines, f, folded)
  {
    forall i | 0 <= i < |segs| ensures Faithful(segs[i], lines, spans) {
    }
  }

  /** Whatever is folded, the lines kept are those no folded span covers. */
  lemma {:induction false} CountsCover(segs: seq<Segment>, lines: seq<string>, spans: seq<Iv>, f: Arena, folded: set<nat>)
    requires (forall i :: i in folded ==> i < |f.nodes|) && Placed(f, |lines|)
    requires Tiles(segs, 1, |lines|) && AllFaithful(segs, lines, spans)
    requires forall x :: 1 <= x <= |lines| ==> (In(spans, x) <==> x in Cover(f, folded))
    ensures KeptLines(segs) == |lines| - |Cover(f, folded)|
  {
    KeptPlusHidden(segs, lines, spans);
    CoverInside(f, folded, |lines|);
    assert Hidden(spans, |lines|) == Cover(f, folded);
  }

  lemma {:induction false} ForestPlaced(t: Syn, lim: Limits, total: nat)
    requires WellPlaced(t) && t.end <= total + 1
    ensures Placed(Forest(t, lim), total)
    ensures RunsQuiet(t, lim, 0) ==> Exact(Forest(t, lim), total)
  {
    ForestGeometry(t, lim, 0);
  }

  /**
   A whole summary. Whatever the tree, the segments tile the file, kept text is verbatim, and the
   lines kept are those the folded spans leave. When nothing elidable lies strictly inside an
   elided run, their number is exactly the unfolding counter, so an unfolded summary never
   exceeds the limit; and if it stays short of the target, each span still folded would have
   taken it over the limit.
   */
  method Summarize(t: Syn, lines: seq<string>, lim: Limits, until: nat, limit: nat)
      returns (segs: seq<Segment>, visible: nat, ghost folded: set<nat>, ghost shown: set<nat>, ghost k: nat)
    requires WellPlaced(t) && t.end <= |lines| + 1
    ensures WellFormed(Forest(t, lim)) && Frontier(Forest(t, lim), folded, shown)
    ensures Shows(segs, lines, Forest(t, lim), folded)
    ensures var f := Forest(t, lim);
            && StopsAfter(f.nodes, Start(f.nodes, f.roots, |lines|), until, limit, k)
            && (folded, visible) == FoldAt(f.nodes, f.roots, |lines|, limit, k)
    ensures KeptLines(segs) == |lines| - |Cover(Forest(t, lim), folded)|
    ensures RunsQuiet(t, lim, 0) ==> KeptLines(segs) == visible
    ensures RunsQuiet(t, lim, 0) && shown != {} ==> KeptLines(segs) <= limit
    ensures until > 0 && visible < until ==> forall i :: i in folded ==> visible + Gain(Forest(t, lim).nodes, i) > limit
  {
    var forest := new ElidableForest();
    forest.CollectElidableTree(t, None, lim);
    ghost var f := Forest(t, lim);
    ForestPlaced(t, lim, |lines|);
    assert forest.Contents() == f;
    var chosen;
    chosen, visible, shown, k := SelectFoldedSpans(forest.nodes, forest.roots, f, |lines|, until, limit);
    folded := chosen;
    var raw := ListSpans(forest.nodes, f, chosen);
    var spans := NormalizeSpans(raw, |lines|);
    segs := BuildSegments(lines, spans);
    SegmentsShow(segs, lines, spans, f, folded);
    CountsCover(segs, lines, spans, f, folded);
  }

  // ----- The text of a segment -----

  /** Lines are joined by a line break between each two of them. */
  lemma {:induction false} JoinIs(a: seq<string>, b: seq<string>)
    requires a != [] && b != []
    ensures Join(a + b) == Join(a) + "\n" + Join(b) && Join([a[0]]) == a[0]
    decreases |a|
  {
    if |a| == 1 {
      assert (a + b)[1..] == b && a == [a[0]];
    } else {
      assert (a + b)[1..] == a[1..] + b;
      JoinIs(a[1..], b);
      Associates(a[0], Join(a[1..]), Join(b));
    }
  }

  lemma {:induction false} Associates(x: string, y: string, z: string)
    ensures x + "\n" + (y + "\n" + z) == x + "\n" + y + "\n" + z
  {
  }
}
