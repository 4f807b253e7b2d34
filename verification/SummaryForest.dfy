/** The forest of elidable spans collected from a syntax tree, and the collector that fills it. */
module SummaryForest {
  import opened Wrappers
  import opened Intervals

  /**
   A syntax node by 1-based lines. `end` is the line of the position one past its last byte,
   `contentEnd` the line of its last content, one less when the node ends with a newline.
   The three flags stand for the per-language tables of node kinds.
   */
  datatype Syn = Syn(comment: bool, elidable: bool, groupable: bool,
                     start: nat, end: nat, contentEnd: nat, children: seq<Syn>)

  function LineCount(t: Syn): nat {
    if t.end < t.start then 1 else t.end - t.start + 1
  }

  /**
   Children lie inside their parent, in order; two of them may share a line. A node of no width
   at the start of a line has its content end on the line before; no statement is such a node.
   */
  ghost predicate WellPlaced(t: Syn)
    decreases t
  {
    && 1 <= t.start <= t.end && 1 <= t.contentEnd <= t.end <= t.contentEnd + 1
    && (t.groupable ==> t.start <= t.contentEnd)
    && (forall i :: 0 <= i < |t.children| ==> t.start <= t.children[i].start && t.children[i].end <= t.end)
    && (forall i, j :: 0 <= i < j < |t.children| ==> t.children[i].end <= t.children[j].start)
    && (forall c :: c in t.children ==> WellPlaced(c))
  }

  // ----- The arena -----

  datatype SpanNode = SpanNode(span: Iv, children: seq<nat>)

  /** Contents of a forest; `parent` records under which node each index was pushed. */
  datatype Arena = Arena(nodes: seq<SpanNode>, roots: seq<nat>, parent: seq<Option<nat>>)

  const EMPTY := Arena([], [], [])

  ghost predicate Increasing(s: seq<nat>) {
    forall i, j :: 0 <= i < j < |s| ==> s[i] < s[j]
  }

  predicate Inside(a: Iv, b: Iv) {
    b.s <= a.s && a.e <= b.e
  }

  /** At least `gap` lines lie between the two; with no gap they only do not overlap. */
  predicate Apart(a: Iv, b: Iv, gap: nat) {
    a.e + gap < b.s || b.e + gap < a.s
  }

  ghost predicate LinksUp(a: Arena) {
    && |a.parent| == |a.nodes|
    && (forall i :: 0 <= i < |a.nodes| && a.parent[i].Some? ==>
          a.parent[i].value < i && i in a.nodes[a.parent[i].value].children)
    && (forall i :: 0 <= i < |a.nodes| && a.parent[i].None? ==> i in a.roots)
  }

  ghost predicate LinksDown(a: Arena)
    requires |a.parent| == |a.nodes|
  {
    && (forall p, k :: 0 <= p < |a.nodes| && 0 <= k < |a.nodes[p].children| ==>
          a.nodes[p].children[k] < |a.nodes| && a.parent[a.nodes[p].children[k]] == Some(p))
    && (forall k :: 0 <= k < |a.roots| ==> a.roots[k] < |a.nodes| && a.parent[a.roots[k]] == None)
  }

  ghost predicate ListsIncrease(a: Arena) {
    Increasing(a.roots) && forall p :: 0 <= p < |a.nodes| ==> Increasing(a.nodes[p].children)
  }

  ghost predicate SpansProper(a: Arena) {
    forall i :: 0 <= i < |a.nodes| ==> 1 <= a.nodes[i].span.s <= a.nodes[i].span.e
  }

  /** Every index is listed once, under its one parent, which precedes it. */
  ghost predicate WellFormed(a: Arena) {
    LinksUp(a) && LinksDown(a) && ListsIncrease(a) && SpansProper(a)
  }

  /** A child's span lies inside its parent's, not necessarily strictly. */
  ghost predicate Nested(a: Arena) {
    && Sized(a)
    && forall i :: 0 <= i < |a.nodes| && a.parent[i].Some? ==> Inside(a.nodes[i].span, a.nodes[a.parent[i].value].span)
  }

  /** Every node has a parent entry, and every parent exists. */
  predicate Sized(a: Arena) {
    |a.parent| == |a.nodes| && forall i :: 0 <= i < |a.parent| && a.parent[i].Some? ==> a.parent[i].value < |a.nodes|
  }

  /** Spans with the same parent keep at least `gap` lines between them. */
  ghost predicate Spaced(a: Arena, gap: nat) {
    && Sized(a)
    && forall i, j :: 0 <= i < j < |a.nodes| && a.parent[i] == a.parent[j] ==> Apart(a.nodes[i].span, a.nodes[j].span, gap)
  }

  function Pushed(a: Arena, p: Option<nat>, span: Iv): Arena
    requires p.Some? ==> p.value < |a.nodes|
  {
    var idx := |a.nodes|;
    var grown := a.nodes + [SpanNode(span, [])];
    match p
    case Some(q) =>
      Arena(grown[q := a.nodes[q].(children := a.nodes[q].children + [idx])], a.roots, a.parent + [p])
    case None => Arena(grown, a.roots + [idx], a.parent + [p])
  }

  lemma {:induction false} PushLinksUp(a: Arena, p: Option<nat>, span: Iv)
    requires LinksUp(a) && (p.Some? ==> p.value < |a.nodes|)
    ensures LinksUp(Pushed(a, p, span))
  {
    var b, idx := Pushed(a, p, span), |a.nodes|;
    forall i | 0 <= i < |b.nodes| && b.parent[i].Some?
      ensures b.parent[i].value < i && i in b.nodes[b.parent[i].value].children
    {
      if i == idx {
        assert b.nodes[p.value].children[|a.nodes[p.value].children|] == idx;
      } else {
        var q := a.parent[i].value;
        var k :| 0 <= k < |a.nodes[q].children| && a.nodes[q].children[k] == i;
        assert b.nodes[q].children[k] == i;
      }
    }
    assert p.None? ==> b.roots[|a.roots|] == idx;
  }

  lemma {:induction false} PushLinksDown(a: Arena, p: Option<nat>, span: Iv)
    requires |a.parent| == |a.nodes| && LinksDown(a) && (p.Some? ==> p.value < |a.nodes|)
    ensures LinksDown(Pushed(a, p, span))
  {
  }

  lemma {:induction false} PushIncreases(a: Arena, p: Option<nat>, span: Iv)
    requires |a.parent| == |a.nodes| && LinksDown(a) && ListsIncrease(a) && (p.Some? ==> p.value < |a.nodes|)
    ensures ListsIncrease(Pushed(a, p, span))
  {
    var b := Pushed(a, p, span);
    forall q | 0 <= q < |b.nodes| ensures Increasing(b.nodes[q].children) {
      if q < |a.nodes| { assert Increasing(a.nodes[q].children); }
    }
  }

  lemma {:induction false} PushValid(a: Arena, p: Option<nat>, span: Iv)
    requires WellFormed(a) && (p.Some? ==> p.value < |a.nodes|) && 1 <= span.s <= span.e
    ensures WellFormed(Pushed(a, p, span))
  {
    PushLinksUp(a, p, span);
    PushLinksDown(a, p, span);
    PushIncreases(a, p, span);
  }

  // ----- Runs of groupable siblings -----

  function SatSub(a: nat, b: nat): nat { if a < b then 0 else a - b }

  function MinNat(a: nat, b: nat): nat { if a < b then a else b }

  /** Start of the run still open after the first `n` children. */
  function OpenRun(cs: seq<Syn>, n: nat): (r: Option<nat>)
    requires n <= |cs|
    ensures r.Some? ==> r.value < n && forall i :: r.value <= i < n ==> cs[i].groupable
  {
    if n == 0 || !cs[n - 1].groupable then None
    else
      var before := OpenRun(cs, n - 1);
      if before.Some? then before else Some(n - 1)
  }

  /** First and last index of each run closed within the first `n` children. */
  function ClosedRuns(cs: seq<Syn>, n: nat): seq<(nat, nat)>
    requires n <= |cs|
  {
    if n == 0 then []
    else if cs[n - 1].groupable then ClosedRuns(cs, n - 1)
    else ClosedRuns(cs, n - 1) + Closing(cs, n - 1)
  }

  function Closing(cs: seq<Syn>, n: nat): seq<(nat, nat)>
    requires n <= |cs|
  {
    var open := OpenRun(cs, n);
    if open.Some? then [(open.value, n - 1)] else []
  }

  function Runs(cs: seq<Syn>): seq<(nat, nat)> {
    ClosedRuns(cs, |cs|) + Closing(cs, |cs|)
  }

  ghost predicate RunsOrdered(rs: seq<(nat, nat)>, bound: nat) {
    && (forall k :: 0 <= k < |rs| ==> rs[k].0 <= rs[k].1 < bound)
    && (forall j, k :: 0 <= j < k < |rs| ==> rs[j].1 < rs[k].0)
  }

  lemma {:induction false} ClosedRunsOrdered(cs: seq<Syn>, n: nat)
    requires n <= |cs|
    ensures RunsOrdered(ClosedRuns(cs, n), n)
    ensures OpenRun(cs, n).Some? ==> forall k :: 0 <= k < |ClosedRuns(cs, n)| ==> ClosedRuns(cs, n)[k].1 < OpenRun(cs, n).value
    decreases n
  {
    if n > 0 { ClosedRunsOrdered(cs, n - 1); }
  }

  /** Every member of a run is a groupable sibling. */
  ghost predicate RunsGroup(cs: seq<Syn>, rs: seq<(nat, nat)>) {
    forall k, i :: 0 <= k < |rs| && rs[k].0 <= i <= rs[k].1 && i < |cs| ==> cs[i].groupable
  }

  lemma {:induction false} ClosedRunsGroup(cs: seq<Syn>, n: nat)
    requires n <= |cs|
    ensures RunsGroup(cs, ClosedRuns(cs, n))
    decreases n
  {
    if n > 0 { ClosedRunsGroup(cs, n - 1); }
  }

  /** The lines strictly between the first member's content and the last member. */
  function RunSpan(first: Syn, last: Syn, count: nat, minBody: nat): Option<Iv> {
    var lines := SatSub(last.end, first.start) + 1;
    var start := MinNat(first.contentEnd, SatSub(last.start, 1)) + 1;
    var end := SatSub(last.start, 1);
    if count < 2 || lines < minBody || start > end then None else Some(Iv(start, end))
  }

  function RunSpanAt(cs: seq<Syn>, r: (nat, nat), minBody: nat): Option<Iv> {
    if r.0 <= r.1 < |cs| then RunSpan(cs[r.0], cs[r.1], r.1 - r.0 + 1, minBody) else None
  }

  // ----- What the collector pushes -----

  /** The lines a node may contribute to: all but its first and last. */
  function Window(t: Syn): Iv {
    Iv(t.start + 1, t.end - 1)
  }

  datatype Limits = Limits(body: nat, comment: nat)

  /** The span a node elides on its own account. */
  function OwnSpan(t: Syn, lim: Limits): Option<Iv> {
    var from := if t.comment then t.start + 2 else t.start + 1;
    var needed := if t.comment then lim.comment else lim.body;
    if (t.comment || t.elidable) && LineCount(t) >= needed && from <= SatSub(t.end, 1)
    then Some(Iv(from, SatSub(t.end, 1))) else None
  }

  predicate HasParent(a: Arena, p: Option<nat>) {
    p.Some? ==> p.value < |a.nodes|
  }

  function PushRuns(a: Arena, p: Option<nat>, cs: seq<Syn>, rs: seq<(nat, nat)>, minBody: nat): (b: Arena)
    requires HasParent(a, p)
    ensures |b.nodes| >= |a.nodes|
  {
    if rs == [] then a
    else
      var before := PushRuns(a, p, cs, rs[..|rs| - 1], minBody);
      var span := RunSpanAt(cs, rs[|rs| - 1], minBody);
      if span.Some? then Pushed(before, p, span.value) else before
  }

  /** The arena after collecting `t` below the elidable node `p`. */
  function Collected(a: Arena, t: Syn, p: Option<nat>, lim: Limits): (b: Arena)
    requires HasParent(a, p)
    ensures |b.nodes| >= |a.nodes|
    decreases t, |t.children| + 1
  {
    var own := OwnSpan(t, lim);
    var a1 := if own.Some? then Pushed(a, p, own.value) else a;
    if t.comment then a1
    else
      var q := if own.Some? then Some(|a.nodes|) else p;
      CollectedChildren(PushRuns(a1, q, t.children, Runs(t.children), lim.body), t, |t.children|, q, lim)
  }

  function CollectedChildren(a: Arena, t: Syn, n: nat, p: Option<nat>, lim: Limits): (b: Arena)
    requires HasParent(a, p) && n <= |t.children|
    ensures |b.nodes| >= |a.nodes|
    decreases t, n
  {
    if n == 0 then a
    else Collected(CollectedChildren(a, t, n - 1, p, lim), t.children[n - 1], p, lim)
  }

  class ElidableForest {
    var nodes: seq<SpanNode>
    var roots: seq<nat>
    ghost var parent: seq<Option<nat>>

    ghost function Contents(): Arena
      reads this
    {
      Arena(nodes, roots, parent)
    }

    constructor ()
      ensures Contents() == EMPTY
    {
      nodes, roots, parent := [], [], [];
    }

    method Push(p: Option<nat>, span: Iv) returns (idx: nat)
      requires p.Some? ==> p.value < |nodes|
      modifies this
      ensures idx == |old(nodes)| && Contents() == Pushed(old(Contents()), p, span)
    {
      idx := |nodes|;
      nodes := nodes + [SpanNode(span, [])];
      match p {
        case Some(q) => nodes := nodes[q := nodes[q].(children := nodes[q].children + [idx])];
        case None => roots := roots + [idx];
      }
      parent := parent + [p];
    }

    /** Pushes the span of a finished run of groupable siblings. */
    method FlushGroupableRun(first: Option<Syn>, last: Option<Syn>, count: nat, minBody: nat, p: Option<nat>)
      requires p.Some? ==> p.value < |nodes|
      modifies this
      ensures var span := if first.Some? && last.Some? then RunSpan(first.value, last.value, count, minBody) else None;
        Contents() == if span.Some? then Pushed(old(Contents()), p, span.value) else old(Contents())
    {
      if count < 2 || first.None? || last.None? { return; }
      var span := RunSpan(first.value, last.value, count, minBody);
      if span.Some? { var _ := Push(p, span.value); }
    }

    /** Depth-first collection: the node's own span, the runs among its children, then the children. */
    method CollectElidableTree(t: Syn, p: Option<nat>, lim: Limits)
      requires p.Some? ==> p.value < |nodes|
      modifies this
      ensures Contents() == Collected(old(Contents()), t, p, lim)
      decreases t
    {
      var own := OwnSpan(t, lim);
      var q := p;
      if own.Some? {
        var idx := Push(p, own.value);
        q := Some(idx);
      }
      if t.comment { return; }
      ghost var a1 := Contents();
      CollectRuns(t.children, q, lim.body);
      ghost var a2 := Contents();
      var i := 0;
      while i < |t.children|
        invariant 0 <= i <= |t.children| && HasParent(a2, q)
        invariant Contents() == CollectedChildren(a2, t, i, q, lim)
      {
        CollectElidableTree(t.children[i], q, lim);
        i := i + 1;
      }
    }

    /** The scan for consecutive groupable siblings. */
    method CollectRuns(cs: seq<Syn>, p: Option<nat>, minBody: nat)
      requires p.Some? ==> p.value < |nodes|
      modifies this
      ensures Contents() == PushRuns(old(Contents()), p, cs, Runs(cs), minBody)
    {
      ghost var a := Contents();
      var first: Option<Syn>, last: Option<Syn>, count := None, None, 0;
      var i := 0;
      while i < |cs|
        invariant 0 <= i <= |cs| && HasParent(a, p) && |nodes| >= |a.nodes|
        invariant Contents() == PushRuns(a, p, cs, ClosedRuns(cs, i), minBody)
        invariant RunState(cs, i, first, last, count)
      {
        if cs[i].groupable {
          if first.None? { first := Some(cs[i]); }
          last := Some(cs[i]);
          count := count + 1;
        } else {
          ClosingPushes(a, p, cs, i, minBody);
          FlushGroupableRun(first, last, count, minBody, p);
          first, last, count := None, None, 0;
        }
        i := i + 1;
      }
      ClosingPushes(a, p, cs, i, minBody);
      FlushGroupableRun(first, last, count, minBody, p);
    }
  }

  /** The scan's variables describe the open run. */
  ghost predicate RunState(cs: seq<Syn>, n: nat, first: Option<Syn>, last: Option<Syn>, count: nat)
    requires n <= |cs|
  {
    match OpenRun(cs, n)
    case None => first.None? && last.None? && count == 0
    case Some(f) => first == Some(cs[f]) && last == Some(cs[n - 1]) && count == n - f
  }

  lemma {:induction false} ClosingPushes(a: Arena, p: Option<nat>, cs: seq<Syn>, n: nat, minBody: nat)
    requires HasParent(a, p) && n <= |cs|
    ensures var before := PushRuns(a, p, cs, ClosedRuns(cs, n), minBody);
      var span := if OpenRun(cs, n).Some? then RunSpan(cs[OpenRun(cs, n).value], cs[n - 1], n - OpenRun(cs, n).value, minBody) else None;
      PushRuns(a, p, cs, ClosedRuns(cs, n) + Closing(cs, n), minBody) ==
        if span.Some? then Pushed(before, p, span.value) else before
  {
    var closed := ClosedRuns(cs, n);
    var rs := closed + Closing(cs, n);
    if OpenRun(cs, n).Some? {
      assert Closing(cs, n) == [(OpenRun(cs, n).value, n - 1)];
      assert rs[..|rs| - 1] == closed && rs[|rs| - 1] == (OpenRun(cs, n).value, n - 1);
    } else {
      assert rs == closed;
    }
  }
}
