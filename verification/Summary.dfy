/**
 Budgeted unfolding of elidable spans and the printed summary. The running count of visible
 lines is the number of lines the summary finally keeps.
 */
module Summary {
  import opened Wrappers
  import opened Sets
  import opened Intervals
  import opened SummaryForest
  import opened SummaryGeometry

  // ----- The frontier between unfolded and folded spans -----

  /** Unfolded nodes are closed upwards, and each of their children is unfolded or folded. */
  ghost predicate Frontier(a: Arena, folded: set<nat>, shown: set<nat>)
    requires WellFormed(a)
  {
    && folded !! shown
    && (forall i :: i in folded ==> i < |a.nodes|)
    && (forall i :: i in shown ==> i < |a.nodes|)
    && (forall k :: 0 <= k < |a.roots| ==> a.roots[k] in folded + shown)
    && (forall i :: i in folded + shown && a.parent[i].Some? ==> a.parent[i].value in shown)
    && (forall p, k :: p in shown && 0 <= k < |a.nodes[p].children| ==> a.nodes[p].children[k] in folded + shown)
  }

  /** `x` is a proper ancestor of `y`. */
  ghost predicate Above(a: Arena, x: nat, y: nat)
    requires WellFormed(a) && y < |a.nodes|
    decreases y
  {
    a.parent[y].Some? && (a.parent[y].value == x || Above(a, x, a.parent[y].value))
  }

  lemma {:induction false} AncestorsOpened(a: Arena, folded: set<nat>, shown: set<nat>, x: nat, y: nat)
    requires WellFormed(a) && Frontier(a, folded, shown)
    requires y in folded + shown && Above(a, x, y)
    ensures x in shown
    decreases y
  {
    if a.parent[y].value != x { AncestorsOpened(a, folded, shown, x, a.parent[y].value); }
  }

  /** Folded spans form an antichain: no path from a root to a leaf meets two of them. */
  lemma {:induction false} FoldedAntichain(a: Arena, folded: set<nat>, shown: set<nat>)
    requires WellFormed(a) && Frontier(a, folded, shown)
    ensures forall x, y :: x in folded && y in folded ==> !Above(a, x, y)
  {
    forall x, y | x in folded && y in folded ensures !Above(a, x, y) {
      if Above(a, x, y) { AncestorsOpened(a, folded, shown, x, y); }
    }
  }

  /** Every span is unfolded, folded, or hidden below some folded span. */
  lemma {:induction false} EverySpanAccounted(a: Arena, folded: set<nat>, shown: set<nat>, y: nat)
    requires WellFormed(a) && Frontier(a, folded, shown) && y < |a.nodes|
    ensures y in shown || y in folded || exists x :: x in folded && Above(a, x, y)
    decreases y
  {
    if a.parent[y].Some? {
      var p := a.parent[y].value;
      EverySpanAccounted(a, folded, shown, p);
      assert p in folded ==> Above(a, p, y);
      if exists x :: x in folded && Above(a, x, p) {
        var x :| x in folded && Above(a, x, p);
        assert Above(a, x, y);
      }
    }
  }

  // ----- Counting hidden lines -----

  function Spans(nodes: seq<SpanNode>, idxs: seq<nat>): (r: seq<Iv>)
    requires forall k :: 0 <= k < |idxs| ==> idxs[k] < |nodes|
    ensures |r| == |idxs| && forall k :: 0 <= k < |idxs| ==> r[k] == nodes[idxs[k]].span
  {
    seq(|idxs|, k requires 0 <= k < |idxs| => nodes[idxs[k]].span)
  }

  ghost function Cover(a: Arena, s: set<nat>): set<int>
    requires forall i :: i in s ==> i < |a.nodes|
  {
    set i, x | i in s && x in Range(a.nodes[i].span.s, a.nodes[i].span.e) :: x
  }

  ghost predicate FoldedApart(a: Arena, s: set<nat>, total: nat)
    requires forall i :: i in s ==> i < |a.nodes|
  {
    && (forall i, j :: i in s && j in s && i != j ==> Apart(a.nodes[i].span, a.nodes[j].span, 0))
    && (forall i :: i in s ==> 1 <= a.nodes[i].span.s <= a.nodes[i].span.e <= total)
  }

  lemma {:induction false} CoverPoint(a: Arena, idxs: seq<nat>, s: set<nat>, x: int)
    requires forall k :: 0 <= k < |idxs| ==> idxs[k] < |a.nodes|
    requires s == set i | i in idxs
    ensures x in Cover(a, s) <==> In(Spans(a.nodes, idxs), x)
  {
    if x in Cover(a, s) {
      var i :| i in s && x in Range(a.nodes[i].span.s, a.nodes[i].span.e);
      var k :| 0 <= k < |idxs| && idxs[k] == i;
      assert Spans(a.nodes, idxs)[k] == a.nodes[i].span;
    }
    if In(Spans(a.nodes, idxs), x) {
      var k :| 0 <= k < |idxs| && Spans(a.nodes, idxs)[k].s <= x <= Spans(a.nodes, idxs)[k].e;
      assert idxs[k] in s && x in Range(a.nodes[idxs[k]].span.s, a.nodes[idxs[k]].span.e);
    }
  }

  lemma {:induction false} CoverOfSeq(a: Arena, idxs: seq<nat>, s: set<nat>)
    requires forall k :: 0 <= k < |idxs| ==> idxs[k] < |a.nodes|
    requires s == set i | i in idxs
    ensures Cover(a, s) == Lines(Spans(a.nodes, idxs))
  {
    LinesAreIn(Spans(a.nodes, idxs));
    forall x ensures x in Cover(a, s) <==> x in Lines(Spans(a.nodes, idxs)) { CoverPoint(a, idxs, s, x); }
  }

  /** A list of distinct, spaced nodes hides as many lines as its spans add up to. */
  lemma {:induction false} SeqCoverSize(a: Arena, idxs: seq<nat>, s: set<nat>, total: nat)
    requires forall k :: 0 <= k < |idxs| ==> idxs[k] < |a.nodes|
    requires Increasing(idxs) && s == (set i | i in idxs) && FoldedApart(a, s, total)
    ensures |Cover(a, s)| == Size(Spans(a.nodes, idxs))
  {
    CoverOfSeq(a, idxs, s);
    SpansDisjoint(a, idxs, s, total);
    SizeCountsLines(Spans(a.nodes, idxs));
  }

  lemma {:induction false} SpansDisjoint(a: Arena, idxs: seq<nat>, s: set<nat>, total: nat)
    requires forall k :: 0 <= k < |idxs| ==> idxs[k] < |a.nodes|
    requires Increasing(idxs) && s == (set i | i in idxs) && FoldedApart(a, s, total)
    ensures Valid(Spans(a.nodes, idxs)) && PairwiseDisjoint(Spans(a.nodes, idxs))
  {
    assert forall k :: 0 <= k < |idxs| ==> idxs[k] in s;
  }

  function Listed(idxs: seq<nat>): set<nat> {
    set i | i in idxs
  }

  function Sat(x: int): nat { if x < 0 then 0 else x }

  predicate WithinNodes(nodes: seq<SpanNode>, i: nat)
    requires i < |nodes|
  {
    forall k :: 0 <= k < |nodes[i].children| ==> nodes[i].children[k] < |nodes|
  }

  /** Lines a node's unfolding reveals. */
  function Gain(nodes: seq<SpanNode>, i: nat): nat
    requires i < |nodes| && WithinNodes(nodes, i)
  {
    Sat(nodes[i].span.e - nodes[i].span.s + 1 - Size(Spans(nodes, nodes[i].children)))
  }

  /** Nested spans within a file of `total` lines. */
  ghost predicate Placed(a: Arena, total: nat) {
    WellFormed(a) && Nested(a) && forall k :: 0 <= k < |a.roots| ==> a.nodes[a.roots[k]].span.e <= total
  }

  lemma {:induction false} SpanInFile(a: Arena, i: nat, total: nat)
    requires Placed(a, total) && i < |a.nodes|
    ensures 1 <= a.nodes[i].span.s <= a.nodes[i].span.e <= total
    decreases i
  {
    if a.parent[i].Some? {
      SpanInFile(a, a.parent[i].value, total);
    } else {
      var k :| 0 <= k < |a.roots| && a.roots[k] == i;
    }
  }

  lemma {:induction false} CoverInside(a: Arena, s: set<nat>, total: nat)
    requires Placed(a, total) && forall i :: i in s ==> i < |a.nodes|
    ensures Cover(a, s) <= Range(1, total) && |Cover(a, s)| <= total
  {
    forall x | x in Cover(a, s) ensures x in Range(1, total) {
      var i :| i in s && x in Range(a.nodes[i].span.s, a.nodes[i].span.e);
      SpanInFile(a, i, total);
    }
    RangeSize(1, total);
    SubsetSize(Cover(a, s), Range(1, total));
  }

  /** The geometry that makes counting exact, for a file of `total` lines. */
  ghost predicate Exact(a: Arena, total: nat) {
    Placed(a, total) && Spaced(a, 0)
  }

  lemma {:induction false} SiblingsApart(a: Arena, p: Option<nat>, idxs: seq<nat>, total: nat, bound: Iv)
    requires Exact(a, total) && Increasing(idxs)
    requires forall k :: 0 <= k < |idxs| ==> idxs[k] < |a.nodes| && a.parent[idxs[k]] == p
    requires forall k :: 0 <= k < |idxs| ==> Inside(a.nodes[idxs[k]].span, bound)
    requires 1 <= bound.s && bound.e <= total
    ensures FoldedApart(a, Listed(idxs), total)
  {
    forall i, j | i in Listed(idxs) && j in Listed(idxs) && i != j ensures Apart(a.nodes[i].span, a.nodes[j].span, 0) {
      if i < j { assert a.parent[i] == a.parent[j]; } else { assert a.parent[j] == a.parent[i] && j < i; }
    }
  }

  lemma {:induction false} RootsStart(a: Arena, total: nat)
    requires Exact(a, total)
    ensures FoldedApart(a, Listed(a.roots), total)
    ensures |Cover(a, Listed(a.roots))| == Size(Spans(a.nodes, a.roots)) <= total
  {
    forall k | 0 <= k < |a.roots| ensures Inside(a.nodes[a.roots[k]].span, Iv(1, total)) {
    }
    SiblingsApart(a, None, a.roots, total, Iv(1, total));
    SeqCoverSize(a, a.roots, Listed(a.roots), total);
    CoverWithin(a, Listed(a.roots), total);
  }

  lemma {:induction false} CoverWithin(a: Arena, s: set<nat>, total: nat)
    requires (forall i :: i in s ==> i < |a.nodes|) && FoldedApart(a, s, total)
    ensures Cover(a, s) <= Range(1, total) && |Cover(a, s)| <= total
  {
    RangeSize(1, total);
    SubsetSize(Cover(a, s), Range(1, total));
  }

  lemma {:induction false} ChildrenApart(a: Arena, i: nat, total: nat)
    requires Exact(a, total) && i < |a.nodes| && 1 <= a.nodes[i].span.s && a.nodes[i].span.e <= total
    ensures FoldedApart(a, Listed(a.nodes[i].children), total)
    ensures |Cover(a, Listed(a.nodes[i].children))| == Size(Spans(a.nodes, a.nodes[i].children))
    ensures Cover(a, Listed(a.nodes[i].children)) <= Range(a.nodes[i].span.s, a.nodes[i].span.e)
  {
    var cs := a.nodes[i].children;
    forall k | 0 <= k < |cs| ensures a.parent[cs[k]] == Some(i) && Inside(a.nodes[cs[k]].span, a.nodes[i].span) {
    }
    SiblingsApart(a, Some(i), cs, total, a.nodes[i].span);
    SeqCoverSize(a, cs, Listed(cs), total);
  }

  lemma {:induction false} CoverUnion(a: Arena, s: set<nat>, t: set<nat>)
    requires forall i :: i in s + t ==> i < |a.nodes|
    ensures Cover(a, s + t) == Cover(a, s) + Cover(a, t)
  {
  }

  lemma {:induction false} CoverOne(a: Arena, i: nat)
    requires i < |a.nodes|
    ensures Cover(a, {i}) == Range(a.nodes[i].span.s, a.nodes[i].span.e)
  {
  }

  lemma {:induction false} CoverApart(a: Arena, folded: set<nat>, i: nat, total: nat)
    requires i in folded && (forall j :: j in folded ==> j < |a.nodes|) && FoldedApart(a, folded, total)
    ensures Cover(a, folded - {i}) !! Range(a.nodes[i].span.s, a.nodes[i].span.e)
  {
    forall x | x in Cover(a, folded - {i}) ensures x !in Range(a.nodes[i].span.s, a.nodes[i].span.e) {
      var j :| j in folded - {i} && x in Range(a.nodes[j].span.s, a.nodes[j].span.e);
      assert Apart(a.nodes[i].span, a.nodes[j].span, 0);
    }
  }

  lemma {:induction false} OpenGain(a: Arena, i: nat, total: nat)
    requires Exact(a, total) && i < |a.nodes| && 1 <= a.nodes[i].span.s && a.nodes[i].span.e <= total
    ensures Cover(a, Listed(a.nodes[i].children)) <= Range(a.nodes[i].span.s, a.nodes[i].span.e)
    ensures |Range(a.nodes[i].span.s, a.nodes[i].span.e)| - |Cover(a, Listed(a.nodes[i].children))| == Gain(a.nodes, i)
  {
    ChildrenApart(a, i, total);
    RangeSize(a.nodes[i].span.s, a.nodes[i].span.e);
    SubsetSize(Cover(a, Listed(a.nodes[i].children)), Range(a.nodes[i].span.s, a.nodes[i].span.e));
  }

  /** Replacing a folded node by its children hides exactly its gain fewer lines. */
  lemma {:induction false} OpenCounts(a: Arena, folded: set<nat>, i: nat, total: nat)
    requires Exact(a, total) && i in folded && (forall j :: j in folded ==> j < |a.nodes|)
    requires FoldedApart(a, folded, total)
    ensures var folded' := folded - {i} + Listed(a.nodes[i].children);
      FoldedApart(a, folded', total) && |Cover(a, folded')| == |Cover(a, folded)| - Gain(a.nodes, i)
  {
    OpenApart(a, folded, i, total);
    OpenGain(a, i, total);
    CoverSwaps(a, folded, i, total);
    var own, kids := Range(a.nodes[i].span.s, a.nodes[i].span.e), Cover(a, Listed(a.nodes[i].children));
    SwapCounts(Cover(a, folded - {i}), own, kids);
  }

  lemma {:induction false} CoverSwaps(a: Arena, folded: set<nat>, i: nat, total: nat)
    requires Exact(a, total) && i in folded && (forall j :: j in folded ==> j < |a.nodes|)
    requires FoldedApart(a, folded, total)
    ensures var rest, own, cs := Cover(a, folded - {i}), Range(a.nodes[i].span.s, a.nodes[i].span.e), Listed(a.nodes[i].children);
      (forall c :: c in cs ==> c < |a.nodes|) && rest !! own &&
      Cover(a, folded) == rest + own && Cover(a, folded - {i} + cs) == rest + Cover(a, cs)
  {
    CoverApart(a, folded, i, total);
    CoverOne(a, i);
    CoverUnion(a, folded - {i}, {i});
    CoverUnion(a, folded - {i}, Listed(a.nodes[i].children));
    assert folded - {i} + {i} == folded;
  }

  lemma {:induction false} SwapCounts(rest: set<int>, own: set<int>, kids: set<int>)
    requires rest !! own && kids <= own
    ensures |kids| <= |own| && |rest + kids| == |rest + own| - (|own| - |kids|)
  {
    SubsetSize(kids, own);
    assert rest !! kids;
    assert |rest + own| == |rest| + |own|;
    assert |rest + kids| == |rest| + |kids|;
  }

  lemma {:induction false} OpenApart(a: Arena, folded: set<nat>, i: nat, total: nat)
    requires Exact(a, total) && i in folded && (forall j :: j in folded ==> j < |a.nodes|)
    requires FoldedApart(a, folded, total)
    ensures FoldedApart(a, folded - {i} + Listed(a.nodes[i].children), total)
  {
    ChildrenApart(a, i, total);
    var cs := a.nodes[i].children;
    var folded' := folded - {i} + Listed(cs);
    forall x, y | x in folded' && y in folded' && x != y ensures Apart(a.nodes[x].span, a.nodes[y].span, 0) {
      forall c | c in Listed(cs) ensures Inside(a.nodes[c].span, a.nodes[i].span) {
        assert a.parent[c] == Some(i);
      }
      if x in Listed(cs) && y !in Listed(cs) {
        assert Apart(a.nodes[i].span, a.nodes[y].span, 0);
      } else if x !in Listed(cs) && y in Listed(cs) {
        assert Apart(a.nodes[x].span, a.nodes[i].span, 0);
      }
    }
  }

  // ----- The unfolding loop -----

  /** Folded nodes already passed over: unfolding one would exceed the limit. */
  ghost predicate Refused(a: Arena, folded: set<nat>, queue: seq<nat>, visible: nat, limit: nat)
    requires WellFormed(a) && forall i :: i in folded ==> i < |a.nodes|
  {
    forall i :: i in folded && i !in queue ==> visible + Gain(a.nodes, i) > limit
  }

  ghost predicate Distinct(s: seq<nat>) {
    forall i, j :: 0 <= i < j < |s| ==> s[i] != s[j]
  }

  lemma {:induction false} OpenFrontier(a: Arena, folded: set<nat>, shown: set<nat>, i: nat)
    requires WellFormed(a) && Frontier(a, folded, shown) && i in folded
    ensures Frontier(a, folded - {i} + Listed(a.nodes[i].children), shown + {i})
    ensures forall c :: c in a.nodes[i].children ==> c !in folded && c !in shown
  {
    forall c | c in a.nodes[i].children ensures c < |a.nodes| && a.parent[c] == Some(i) && c !in folded && c !in shown {
    }
  }

  /** What holds each time the loop looks at its queue. */
  ghost predicate Unfolding(a: Arena, folded: set<nat>, shown: set<nat>, queue: seq<nat>, visible: nat, limit: nat, total: nat)
    requires WellFormed(a)
  {
    && Frontier(a, folded, shown)
    && (shown != {} ==> visible <= limit)
    && Distinct(queue) && (forall i :: i in queue ==> i in folded)
    && Refused(a, folded, queue, visible, limit)
    && (Exact(a, total) ==> FoldedApart(a, folded, total) && visible == total - |Cover(a, folded)|)
  }

  lemma {:induction false} PassOver(a: Arena, folded: set<nat>, shown: set<nat>, queue: seq<nat>, visible: nat, limit: nat, total: nat)
    requires WellFormed(a) && Unfolding(a, folded, shown, queue, visible, limit, total) && queue != []
    requires queue[0] in folded && visible + Gain(a.nodes, queue[0]) > limit
    ensures Unfolding(a, folded, shown, queue[1..], visible, limit, total)
  {
    assert forall i :: i in queue ==> i == queue[0] || i in queue[1..];
  }

  lemma {:induction false} Unfold(a: Arena, folded: set<nat>, shown: set<nat>, queue: seq<nat>, visible: nat, limit: nat, total: nat)
    requires WellFormed(a) && Unfolding(a, folded, shown, queue, visible, limit, total) && queue != []
    requires queue[0] in folded && visible + Gain(a.nodes, queue[0]) <= limit
    ensures var cs := a.nodes[queue[0]].children;
      Unfolding(a, folded - {queue[0]} + Listed(cs), shown + {queue[0]}, queue[1..] + cs, visible + Gain(a.nodes, queue[0]), limit, total)
  {
    var idx := queue[0];
    var cs := a.nodes[idx].children;
    OpenFrontier(a, folded, shown, idx);
    if Exact(a, total) { OpenCounts(a, folded, idx, total); }
    UnfoldQueue(a, folded, shown, queue);
    var folded', queue' := folded - {idx} + Listed(cs), queue[1..] + cs;
    forall i | i in folded' && i !in queue' ensures visible + Gain(a.nodes, idx) + Gain(a.nodes, i) > limit {
      assert i !in cs && i in folded && i != idx && i !in queue[1..];
      assert i !in queue;
    }
  }

  lemma {:induction false} UnfoldQueue(a: Arena, folded: set<nat>, shown: set<nat>, queue: seq<nat>)
    requires WellFormed(a) && Frontier(a, folded, shown) && queue != [] && queue[0] in folded
    requires Distinct(queue) && forall i :: i in queue ==> i in folded
    ensures var cs := a.nodes[queue[0]].children;
      Distinct(queue[1..] + cs) && forall i :: i in queue[1..] + cs ==> i in folded - {queue[0]} + Listed(cs)
  {
    var cs := a.nodes[queue[0]].children;
    OpenFrontier(a, folded, shown, queue[0]);
    assert Increasing(cs);
    forall i | i in queue[1..] ensures i in folded && i != queue[0] && i !in cs {
      var k :| 0 <= k < |queue[1..]| && queue[1..][k] == i;
      assert queue[k + 1] == i;
    }
  }

  function Indices(n: nat): (s: set<nat>)
    ensures forall i: nat :: i in s <==> i < n
  {
    if n == 0 then {} else Indices(n - 1) + {n - 1}
  }

  lemma {:induction false} StartUnfolding(a: Arena, limit: nat, total: nat)
    requires WellFormed(a)
    ensures Unfolding(a, Listed(a.roots), {}, a.roots, Sat(total - Size(Spans(a.nodes, a.roots))), limit, total)
  {
    if Exact(a, total) { RootsStart(a, total); }
    forall k | 0 <= k < |a.roots| ensures a.roots[k] in Listed(a.roots) {
    }
    assert Increasing(a.roots);
  }

  /** With an empty queue every folded span has been refused. */
  lemma {:induction false} AllRefused(a: Arena, folded: set<nat>, shown: set<nat>, visible: nat, limit: nat, total: nat)
    requires WellFormed(a) && Unfolding(a, folded, shown, [], visible, limit, total)
    ensures forall i :: i in folded ==> visible + Gain(a.nodes, i) > limit
  {
  }

  // ----- The loop, turn by turn -----

  /** What the loop keeps between two looks at its queue. */
  datatype Fold = Fold(folded: set<nat>, visible: nat, queue: seq<nat>)

  /** One turn under a limit, or under none. */
  function Turn(nodes: seq<SpanNode>, s: Fold, limit: Option<nat>): Fold {
    if s.queue == [] || s.queue[0] >= |nodes| || !WithinNodes(nodes, s.queue[0]) then s
    else
      var idx, rest := s.queue[0], s.queue[1..];
      var visible := s.visible + Gain(nodes, idx);
      if idx !in s.folded || (limit.Some? && visible > limit.value) then s.(queue := rest)
      else Fold(s.folded - {idx} + Listed(nodes[idx].children), visible, rest + nodes[idx].children)
  }

  /** Every root folded. */
  function Start(nodes: seq<SpanNode>, roots: seq<nat>, total: nat): Fold
    requires forall k :: 0 <= k < |roots| ==> roots[k] < |nodes|
  {
    Fold(Listed(roots), Sat(total - Size(Spans(nodes, roots))), roots)
  }

  /** The loop's variables after `k` turns. */
  function Turns(nodes: seq<SpanNode>, start: Fold, limit: Option<nat>, k: nat): Fold {
    if k == 0 then start else Turn(nodes, Turns(nodes, start, limit, k - 1), limit)
  }

  predicate Stopped(s: Fold, until: nat) {
    s.queue == [] || s.visible >= until
  }

  /** The loop takes at least `k` turns. */
  predicate GoesOn(nodes: seq<SpanNode>, start: Fold, until: nat, limit: nat, k: nat) {
    forall j :: 0 <= j < k ==> !Stopped(Turns(nodes, start, Some(limit), j), until)
  }

  /** The loop leaves after exactly `k` turns. */
  predicate StopsAfter(nodes: seq<SpanNode>, start: Fold, until: nat, limit: nat, k: nat) {
    GoesOn(nodes, start, until, limit, k) && Stopped(Turns(nodes, start, Some(limit), k), until)
  }

  predicate AllWithin(nodes: seq<SpanNode>, queue: seq<nat>) {
    (forall i :: 0 <= i < |nodes| ==> WithinNodes(nodes, i)) && forall k :: 0 <= k < |queue| ==> queue[k] < |nodes|
  }

  /** An empty queue stays empty. */
  lemma {:induction false} StaysEmpty(nodes: seq<SpanNode>, start: Fold, limit: Option<nat>, j: nat, k: nat)
    requires j <= k && Turns(nodes, start, limit, j).queue == []
    ensures Turns(nodes, start, limit, k) == Turns(nodes, start, limit, j)
    decreases k
  {
    if j < k { StaysEmpty(nodes, start, limit, j, k - 1); }
  }

  lemma {:induction false} TurnIs(nodes: seq<SpanNode>, s: Fold, limit: nat)
    requires AllWithin(nodes, s.queue) && s.queue != []
    ensures AllWithin(nodes, Turn(nodes, s, Some(limit)).queue)
    ensures var idx, rest := s.queue[0], s.queue[1..];
      Turn(nodes, s, Some(limit)) ==
        if idx !in s.folded || s.visible + Gain(nodes, idx) > limit then s.(queue := rest)
        else Fold(s.folded - {idx} + Listed(nodes[idx].children), s.visible + Gain(nodes, idx), rest + nodes[idx].children)
  {
    assert WithinNodes(nodes, s.queue[0]);
  }

  /** The loop over the queue. It ends because some number of turns empties the queue. */
  method UnfoldAll(nodes: seq<SpanNode>, start: Fold, until: nat, limit: nat, ghost last: nat) returns (s: Fold, ghost k: nat)
    requires AllWithin(nodes, start.queue) && Turns(nodes, start, Some(limit), last).queue == []
    ensures Stopped(s, until) && s == Turns(nodes, start, Some(limit), k)
    ensures StopsAfter(nodes, start, until, limit, k)
  {
    var folded := start.folded;
    var visible: nat := start.visible;
    var queue := start.queue;
    k := 0;
    while queue != [] && visible < until
      invariant AllWithin(nodes, queue) && k <= last
      invariant Fold(folded, visible, queue) == Turns(nodes, start, Some(limit), k)
      invariant GoesOn(nodes, start, until, limit, k)
      decreases last - k
    {
      if k == last { assert false; }
      TurnIs(nodes, Fold(folded, visible, queue), limit);
      var idx := queue[0];
      queue := queue[1..];
      k := k + 1;
      if idx in folded {
        var revealed := Gain(nodes, idx);
        if visible + revealed <= limit {
          queue := queue + nodes[idx].children;
          folded := folded - {idx} + Listed(nodes[idx].children);
          visible := visible + revealed;
        }
      }
    }
    s := Fold(folded, visible, queue);
  }

  // ----- What the turns keep -----

  /** The loop's facts, of its variables as one value. */
  ghost predicate Keeps(a: Arena, s: Fold, shown: set<nat>, limit: nat, total: nat)
    requires WellFormed(a)
  {
    Unfolding(a, s.folded, shown, s.queue, s.visible, limit, total)
  }

  lemma {:induction false} OneTurn(a: Arena, total: nat, limit: nat, s: Fold, shown: set<nat>, next: Fold) returns (more: set<nat>)
    requires WellFormed(a) && Keeps(a, s, shown, limit, total) && next == Turn(a.nodes, s, Some(limit))
    ensures Keeps(a, next, more, limit, total)
    ensures s.queue != [] ==> (more == shown && |next.queue| < |s.queue|) || Indices(|a.nodes|) - more < Indices(|a.nodes|) - shown
  {
    more := shown;
    if s.queue != [] {
      var idx := s.queue[0];
      assert idx in s.folded;
      if s.visible + Gain(a.nodes, idx) > limit {
        PassOver(a, s.folded, shown, s.queue, s.visible, limit, total);
      } else {
        Unfold(a, s.folded, shown, s.queue, s.visible, limit, total);
        assert idx in Indices(|a.nodes|) - shown;
        more := shown + {idx};
      }
    }
  }

  /** After any further turns they hold with some set of unfolded spans. */
  lemma {:induction false} TurnsUnfold(a: Arena, total: nat, limit: nat, start: Fold, j: nat, shown: set<nat>, k: nat)
      returns (more: set<nat>)
    requires WellFormed(a) && j <= k && Keeps(a, Turns(a.nodes, start, Some(limit), j), shown, limit, total)
    ensures Keeps(a, Turns(a.nodes, start, Some(limit), k), more, limit, total)
    ensures j == k ==> more == shown
    decreases k - j
  {
    if j == k {
      more := shown;
    } else {
      var s, next := Turns(a.nodes, start, Some(limit), j), Turns(a.nodes, start, Some(limit), j + 1);
      var after := OneTurn(a, total, limit, s, shown, next);
      more := TurnsUnfold(a, total, limit, start, j + 1, after, k);
    }
  }

  /** The queue holds folded spans only, so none is ever skipped for having been unfolded. */
  lemma {:induction false} NoneSkipped(a: Arena, total: nat, limit: nat, k: nat)
    requires WellFormed(a)
    ensures var s := Turns(a.nodes, Start(a.nodes, a.roots, total), Some(limit), k);
      forall i :: i in s.queue ==> i in s.folded
  {
    StartKeeps(a, total, limit);
    var shown := TurnsUnfold(a, total, limit, Start(a.nodes, a.roots, total), 0, {}, k);
  }

  lemma {:induction false} StartKeeps(a: Arena, total: nat, limit: nat)
    requires WellFormed(a)
    ensures AllWithin(a.nodes, a.roots) && Keeps(a, Start(a.nodes, a.roots, total), {}, limit, total)
  {
    StartUnfolding(a, limit, total);
  }

  /** Some number of turns empties the queue. */
  lemma {:induction false} TurnsEnd(a: Arena, total: nat, limit: nat, start: Fold, k: nat, shown: set<nat>) returns (last: nat)
    requires WellFormed(a) && Keeps(a, Turns(a.nodes, start, Some(limit), k), shown, limit, total)
    ensures last >= k && Turns(a.nodes, start, Some(limit), last).queue == []
    decreases Indices(|a.nodes|) - shown, |Turns(a.nodes, start, Some(limit), k).queue|
  {
    var s := Turns(a.nodes, start, Some(limit), k);
    if s.queue == [] {
      last := k;
    } else {
      var more := OneTurn(a, total, limit, s, shown, Turns(a.nodes, start, Some(limit), k + 1));
      last := TurnsEnd(a, total, limit, start, k + 1, more);
    }
  }

  lemma {:induction false} StopsAtOnce(nodes: seq<SpanNode>, start: Fold, limit: nat, k: nat)
    requires StopsAfter(nodes, start, 0, limit, k)
    ensures k == 0
  {
    var first := Turns(nodes, start, Some(limit), 0);
  }

  /** The variables when the loop leaves. */
  lemma {:induction false} StoppedMeans(a: Arena, total: nat, until: nat, limit: nat, start: Fold, k: nat) returns (shown: set<nat>)
    requires WellFormed(a) && Keeps(a, start, {}, limit, total) && StopsAfter(a.nodes, start, until, limit, k)
    ensures var s := Turns(a.nodes, start, Some(limit), k);
            && Frontier(a, s.folded, shown) && (until == 0 ==> shown == {}) && (shown != {} ==> s.visible <= limit)
            && (until > 0 && s.visible < until ==> forall i :: i in s.folded ==> s.visible + Gain(a.nodes, i) > limit)
            && (Exact(a, total) ==> FoldedApart(a, s.folded, total) && s.visible == total - |Cover(a, s.folded)|)
  {
    shown := TurnsUnfold(a, total, limit, start, 0, {}, k);
    var s := Turns(a.nodes, start, Some(limit), k);
    if until == 0 { StopsAtOnce(a.nodes, start, limit, k); }
    if s.visible < until { AllRefused(a, s.folded, shown, s.visible, limit, total); }
  }

  /**
   Breadth-first unfolding under a budget. Terminates with a frontier of the forest; exceeds
   the limit only if nothing was unfolded; and when it ends short of the target, every folded
   span left would have exceeded the limit.
   */
  method SelectFoldedSpans(nodes: seq<SpanNode>, roots: seq<nat>, ghost a: Arena, total: nat, until: nat, limit: nat)
      returns (folded: set<nat>, visible: nat, ghost shown: set<nat>, ghost k: nat)
    requires WellFormed(a) && nodes == a.nodes && roots == a.roots
    ensures Frontier(a, folded, shown)
    ensures until == 0 ==> shown == {}
    ensures shown != {} ==> visible <= limit
    ensures until > 0 && visible < until ==> forall i :: i in folded ==> visible + Gain(a.nodes, i) > limit
    ensures Exact(a, total) ==> FoldedApart(a, folded, total) && visible == total - |Cover(a, folded)|
    ensures StopsAfter(nodes, Start(nodes, roots, total), until, limit, k)
    ensures (folded, visible) == FoldAt(nodes, roots, total, limit, k)
  {
    StartKeeps(a, total, limit);
    var start := Start(nodes, roots, total);
    var s := start;
    if until == 0 || s.folded == {} {
      k := 0;
      assert roots != [] ==> roots[0] in s.folded;
    } else {
      ghost var last := TurnsEnd(a, total, limit, start, 0, {});
      s, k := UnfoldAll(nodes, start, until, limit, last);
    }
    shown := StoppedMeans(a, total, until, limit, start, k);
    folded, visible := s.folded, s.visible;
  }

  /** What is folded after `k` turns, and the counter. */
  function FoldAt(nodes: seq<SpanNode>, roots: seq<nat>, total: nat, limit: nat, k: nat): (set<nat>, nat)
    requires forall k :: 0 <= k < |roots| ==> roots[k] < |nodes|
  {
    var s := Turns(nodes, Start(nodes, roots, total), Some(limit), k);
    (s.folded, s.visible)
  }
}
