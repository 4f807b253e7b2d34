/** Overlapping sibling spans, and so wrong counts, come from loud statements inside elided runs only. */
module SummaryOverlaps {
  import opened Wrappers
  import opened Sets
  import opened Intervals
  import opened SummaryForest
  import opened SummaryGeometry
  import opened Summary
  import opened SummaryExactness

  // ----- Overlapping spans come from loud statements inside elided runs -----

  ghost predicate Overlaps(a: Arena) {
    exists i, j :: OverlapAt(a, i, j)
  }

  predicate OverlapAt(a: Arena, i: nat, j: nat) {
    && i < j < |a.nodes| && |a.parent| == |a.nodes| && a.parent[i] == a.parent[j]
    && !Apart(a.nodes[i].span, a.nodes[j].span, 0)
  }

  lemma {:induction false} OverlapsGrow(a: Arena, b: Arena, p: Option<nat>)
    requires Grew(a, b, p) && Overlaps(a)
    ensures Overlaps(b)
  {
    var i, j :| OverlapAt(a, i, j);
    assert OverlapAt(b, i, j);
  }

  /** A node pushed below `p` since `a`, inside `w`. */
  predicate AddedIn(a: Arena, b: Arena, p: Option<nat>, w: Iv, i: nat) {
    |a.nodes| <= i < |b.nodes| && |b.parent| == |b.nodes| && b.parent[i] == p && Inside(b.nodes[i].span, w)
    && b.nodes[i].span.s <= b.nodes[i].span.e
  }

  ghost predicate Adds(a: Arena, b: Arena, p: Option<nat>, w: Iv) {
    exists i :: AddedIn(a, b, p, w, i)
  }

  lemma {:induction false} AddsLater(a: Arena, b: Arena, c: Arena, p: Option<nat>, q: Option<nat>, w: Iv)
    requires Adds(a, b, p, w) && Grew(b, c, q)
    ensures Adds(a, c, p, w)
  {
    var i :| AddedIn(a, b, p, w, i);
    assert AddedIn(a, c, p, w, i);
  }

  lemma {:induction false} AddsEarlier(a: Arena, b: Arena, c: Arena, p: Option<nat>, w: Iv)
    requires Adds(b, c, p, w) && |a.nodes| <= |b.nodes|
    ensures Adds(a, c, p, w)
  {
    var i :| AddedIn(b, c, p, w, i);
    assert AddedIn(a, c, p, w, i);
  }

  lemma {:induction false} RunAdds(a: Arena, p: Option<nat>, t: Syn, rs: seq<(nat, nat)>, minBody: nat, k: nat)
    requires Sized(a) && HasParent(a, p) && WellPlaced(t) && RunsGroup(t.children, rs) && k < |rs|
    requires RunSpanAt(t.children, rs[k], minBody).Some?
    ensures Adds(a, PushRuns(a, p, t.children, rs, minBody), p, RunSpanAt(t.children, rs[k], minBody).value)
    decreases |rs|
  {
    var init := rs[..|rs| - 1];
    var before, b := PushRuns(a, p, t.children, init, minBody), PushRuns(a, p, t.children, rs, minBody);
    var span := RunSpanAt(t.children, rs[|rs| - 1], minBody);
    RunsGrow(a, p, t, init, minBody);
    if k == |rs| - 1 {
      RunInWindow(t, rs[k], minBody);
      assert AddedIn(a, b, p, span.value, |before.nodes|);
    } else {
      assert init[k] == rs[k];
      RunAdds(a, p, t, init, minBody, k);
      if span.Some? {
        RunInWindow(t, rs[|rs| - 1], minBody);
        PushGrows(before, p, span.value);
        AddsLater(a, before, b, p, p, RunSpanAt(t.children, rs[k], minBody).value);
      }
    }
  }

  lemma {:induction false} ChildrenStay(a: Arena, t: Syn, m: nat, n: nat, p: Option<nat>, lim: Limits)
    requires Sized(a) && HasParent(a, p) && WellPlaced(t) && m <= n <= |t.children|
    ensures Grew(CollectedChildren(a, t, m, p, lim), CollectedChildren(a, t, n, p, lim), p)
    decreases n
  {
    ChildrenGrow(a, t, m, p, lim);
    if m < n {
      var before := CollectedChildren(a, t, n - 1, p, lim);
      ChildrenStay(a, t, m, n - 1, p, lim);
      ChildrenGrow(a, t, n - 1, p, lim);
      ChildWindow(t, n - 1);
      CollectedGrows(before, t.children[n - 1], p, lim);
      GrewTrans(CollectedChildren(a, t, m, p, lim), before, CollectedChildren(a, t, n, p, lim), p, p);
    }
  }

  /** A node that is not quiet puts some span directly below `p`. */
  lemma {:induction false} LoudAdds(a: Arena, t: Syn, p: Option<nat>, lim: Limits)
    requires Sized(a) && HasParent(a, p) && WellPlaced(t) && !Quiet(t, lim)
    ensures Adds(a, Collected(a, t, p, lim), p, Window(t))
    decreases t
  {
    var own := OwnSpan(t, lim);
    CollectedGrows(a, t, p, lim);
    if own.Some? {
      SpanInWindow(t, lim);
      PushGrows(a, p, own.value);
      var a1 := Pushed(a, p, own.value);
      assert AddedIn(a, a1, p, Window(t), |a.nodes|);
      OwnStays(a, t, p, lim);
      AddsLater(a, a1, Collected(a, t, p, lim), p, Some(|a.nodes|), Window(t));
    } else {
      LoudInside(a, t, p, lim);
    }
  }

  lemma {:induction false} OwnStays(a: Arena, t: Syn, p: Option<nat>, lim: Limits)
    requires Sized(a) && HasParent(a, p) && WellPlaced(t) && OwnSpan(t, lim).Some?
    ensures Grew(Pushed(a, p, OwnSpan(t, lim).value), Collected(a, t, p, lim), Some(|a.nodes|))
  {
    var a1, q := Pushed(a, p, OwnSpan(t, lim).value), Some(|a.nodes|);
    SpanInWindow(t, lim);
    PushGrows(a, p, OwnSpan(t, lim).value);
    if !t.comment { InsideGrows(a1, t, q, lim); }
  }

  /** What the runs and children of a node add below `q`. */
  function Insides(a: Arena, t: Syn, q: Option<nat>, lim: Limits): Arena
    requires HasParent(a, q)
  {
    CollectedChildren(PushRuns(a, q, t.children, Runs(t.children), lim.body), t, |t.children|, q, lim)
  }

  lemma {:induction false} InsideGrows(a: Arena, t: Syn, q: Option<nat>, lim: Limits)
    requires Sized(a) && HasParent(a, q) && WellPlaced(t)
    ensures var b := PushRuns(a, q, t.children, Runs(t.children), lim.body);
            Sized(b) && HasParent(b, q) && Grew(a, b, q) && Grew(b, Insides(a, t, q, lim), q) && Grew(a, Insides(a, t, q, lim), q)
  {
    var b := PushRuns(a, q, t.children, Runs(t.children), lim.body);
    RunsAreOrdered(t.children);
    RunsGrow(a, q, t, Runs(t.children), lim.body);
    ChildrenGrow(b, t, |t.children|, q, lim);
    GrewTrans(a, b, Insides(a, t, q, lim), q, q);
  }

  lemma {:induction false} ChildAdds(a: Arena, t: Syn, m: nat, q: Option<nat>, lim: Limits)
    requires Sized(a) && HasParent(a, q) && WellPlaced(t) && m < |t.children| && !Quiet(t.children[m], lim)
    ensures Adds(a, CollectedChildren(a, t, |t.children|, q, lim), q, Window(t.children[m]))
    decreases t, 0
  {
    var before := CollectedChildren(a, t, m, q, lim);
    ChildWindow(t, m);
    ChildrenGrow(a, t, m, q, lim);
    LoudAdds(before, t.children[m], q, lim);
    AddsEarlier(a, before, CollectedChildren(a, t, m + 1, q, lim), q, Window(t.children[m]));
    ChildrenStay(a, t, m + 1, |t.children|, q, lim);
    AddsLater(a, CollectedChildren(a, t, m + 1, q, lim), CollectedChildren(a, t, |t.children|, q, lim), q, q, Window(t.children[m]));
  }

  lemma {:induction false} AddsWider(a: Arena, b: Arena, p: Option<nat>, w: Iv, v: Iv)
    requires Adds(a, b, p, w) && Inside(w, v)
    ensures Adds(a, b, p, v)
  {
    var i :| AddedIn(a, b, p, w, i);
    assert AddedIn(a, b, p, v, i);
  }

  lemma {:induction false} LoudInside(a: Arena, t: Syn, p: Option<nat>, lim: Limits)
    requires Sized(a) && HasParent(a, p) && WellPlaced(t) && !Quiet(t, lim) && OwnSpan(t, lim).None?
    ensures Adds(a, Collected(a, t, p, lim), p, Window(t))
    decreases t, 2
  {
    var rs := Runs(t.children);
    if r :| r in rs && RunSpanAt(t.children, r, lim.body).Some? {
      var k :| 0 <= k < |rs| && rs[k] == r;
      LoudRun(a, t, p, lim, k);
    } else {
      var c :| c in t.children && !Quiet(c, lim);
      var m :| 0 <= m < |t.children| && t.children[m] == c;
      LoudChild(a, t, p, lim, m);
    }
  }

  lemma {:induction false} LoudRun(a: Arena, t: Syn, p: Option<nat>, lim: Limits, k: nat)
    requires Sized(a) && HasParent(a, p) && WellPlaced(t) && !t.comment
    requires k < |Runs(t.children)| && RunSpanAt(t.children, Runs(t.children)[k], lim.body).Some?
    ensures Adds(a, Insides(a, t, p, lim), p, Window(t))
  {
    var rs := Runs(t.children);
    var b := PushRuns(a, p, t.children, rs, lim.body);
    InsideGrows(a, t, p, lim);
    RunsAreOrdered(t.children);
    RunAdds(a, p, t, rs, lim.body, k);
    RunInWindow(t, rs[k], lim.body);
    AddsWider(a, b, p, RunSpanAt(t.children, rs[k], lim.body).value, Window(t));
    AddsLater(a, b, Insides(a, t, p, lim), p, p, Window(t));
  }

  lemma {:induction false} LoudChild(a: Arena, t: Syn, p: Option<nat>, lim: Limits, m: nat)
    requires Sized(a) && HasParent(a, p) && WellPlaced(t) && !t.comment && m < |t.children| && !Quiet(t.children[m], lim)
    ensures Adds(a, Insides(a, t, p, lim), p, Window(t))
    decreases t, 1
  {
    var b := PushRuns(a, p, t.children, Runs(t.children), lim.body);
    InsideGrows(a, t, p, lim);
    RunsAreOrdered(t.children);
    ChildAdds(b, t, m, p, lim);
    ChildWindow(t, m);
    AddsWider(b, Insides(a, t, p, lim), p, Window(t.children[m]), Window(t));
    AddsEarlier(a, b, Insides(a, t, p, lim), p, Window(t));
  }

  /** An elided run with a loud statement strictly inside it leaves overlapping siblings. */
  lemma {:induction false} LoudRunOverlaps(a: Arena, t: Syn, q: Option<nat>, lim: Limits, r: (nat, nat), m: nat)
    requires Sized(a) && HasParent(a, q) && WellPlaced(t)
    requires r in Runs(t.children) && RunSpanAt(t.children, r, lim.body).Some?
    requires r.0 < m < r.1 && m < |t.children| && !Quiet(t.children[m], lim)
    ensures Overlaps(Insides(a, t, q, lim))
  {
    var rs := Runs(t.children);
    var b, c := PushRuns(a, q, t.children, rs, lim.body), Insides(a, t, q, lim);
    var k :| 0 <= k < |rs| && rs[k] == r;
    var span := RunSpanAt(t.children, r, lim.body).value;
    InsideGrows(a, t, q, lim);
    RunsAreOrdered(t.children);
    RunAdds(a, q, t, rs, lim.body, k);
    RunIsPushed(a, q, t, rs, lim.body, k);
    ChildAdds(b, t, m, q, lim);
    var i :| 0 <= i < |b.nodes| && b.parent[i] == q && b.nodes[i].span == span;
    var j :| AddedIn(b, c, q, Window(t.children[m]), j);
    MemberInRun(t, r, m, lim.body);
    assert OverlapAt(c, i, j);
  }

  lemma {:induction false} RunIsPushed(a: Arena, p: Option<nat>, t: Syn, rs: seq<(nat, nat)>, minBody: nat, k: nat)
    requires Sized(a) && HasParent(a, p) && WellPlaced(t) && RunsGroup(t.children, rs) && k < |rs|
    requires RunSpanAt(t.children, rs[k], minBody).Some?
    ensures var b := PushRuns(a, p, t.children, rs, minBody);
            |b.parent| == |b.nodes| &&
            exists i :: 0 <= i < |b.nodes| && b.parent[i] == p && b.nodes[i].span == RunSpanAt(t.children, rs[k], minBody).value
    decreases |rs|
  {
    var init := rs[..|rs| - 1];
    var before, b := PushRuns(a, p, t.children, init, minBody), PushRuns(a, p, t.children, rs, minBody);
    RunsGrow(a, p, t, init, minBody);
    RunsGrow(a, p, t, rs, minBody);
    if k == |rs| - 1 {
      assert b.parent[|before.nodes|] == p;
    } else {
      assert init[k] == rs[k];
      RunIsPushed(a, p, t, init, minBody, k);
      var i :| 0 <= i < |before.nodes| && before.parent[i] == p && before.nodes[i].span == RunSpanAt(t.children, rs[k], minBody).value;
      assert b.parent[i] == p && b.nodes[i].span == before.nodes[i].span;
    }
  }

  /** A member strictly inside lies within the run's span. */
  lemma {:induction false} MemberInRun(t: Syn, r: (nat, nat), m: nat, minBody: nat)
    requires WellPlaced(t) && RunSpanAt(t.children, r, minBody).Some? && t.children[r.0].groupable && r.0 < m < r.1
    ensures m < |t.children| && Inside(Window(t.children[m]), RunSpanAt(t.children, r, minBody).value)
  {
    RunInWindow(t, r, minBody);
    assert t.children[r.0] in t.children && WellPlaced(t.children[r.0]);
  }

  lemma {:induction false} UnquietOverlaps(a: Arena, t: Syn, p: Option<nat>, lim: Limits)
    requires Sized(a) && HasParent(a, p) && WellPlaced(t) && !RunsQuiet(t, lim, 0)
    ensures Overlaps(Collected(a, t, p, lim))
    decreases t
  {
    var own := OwnSpan(t, lim);
    if own.Some? {
      SpanInWindow(t, lim);
      PushGrows(a, p, own.value);
    }
    var a1 := if own.Some? then Pushed(a, p, own.value) else a;
    var q := if own.Some? then Some(|a.nodes|) else p;
    assert Collected(a, t, p, lim) == Insides(a1, t, q, lim);
    if r :| r in Runs(t.children) && RunSpanAt(t.children, r, lim.body).Some? && !QuietWithin(t.children, r, lim, 0) {
      var m :| r.0 < m < r.1 && m < |t.children| && !Quiet(t.children[m], lim);
      LoudRunOverlaps(a1, t, q, lim, r, m);
    } else {
      var c :| c in t.children && !RunsQuiet(c, lim, 0);
      var n :| 0 <= n < |t.children| && t.children[n] == c;
      UnquietChildOverlaps(a1, t, n, q, lim);
    }
  }

  lemma {:induction false} UnquietChildOverlaps(a: Arena, t: Syn, n: nat, q: Option<nat>, lim: Limits)
    requires Sized(a) && HasParent(a, q) && WellPlaced(t) && n < |t.children| && !RunsQuiet(t.children[n], lim, 0)
    ensures Overlaps(Insides(a, t, q, lim))
    decreases t, 0
  {
    var b := PushRuns(a, q, t.children, Runs(t.children), lim.body);
    InsideGrows(a, t, q, lim);
    var before := BeforeChild(b, t, n, q, lim);
    UnquietOverlaps(before, t.children[n], q, lim);
    OverlapsToEnd(b, t, n, q, lim, Collected(before, t.children[n], q, lim));
  }

  lemma {:induction false} BeforeChild(b: Arena, t: Syn, n: nat, q: Option<nat>, lim: Limits) returns (before: Arena)
    requires Sized(b) && HasParent(b, q) && WellPlaced(t) && n < |t.children|
    ensures before == CollectedChildren(b, t, n, q, lim) && Sized(before) && HasParent(before, q) && WellPlaced(t.children[n])
  {
    before := CollectedChildren(b, t, n, q, lim);
    ChildWindow(t, n);
    ChildrenGrow(b, t, n, q, lim);
  }

  lemma {:induction false} OverlapsToEnd(b: Arena, t: Syn, n: nat, q: Option<nat>, lim: Limits, after: Arena)
    requires Sized(b) && HasParent(b, q) && WellPlaced(t) && n < |t.children|
    requires after == Collected(CollectedChildren(b, t, n, q, lim), t.children[n], q, lim) && Overlaps(after)
    ensures Overlaps(CollectedChildren(b, t, |t.children|, q, lim))
  {
    ChildrenStay(b, t, n + 1, |t.children|, q, lim);
    OverlapsGrow(after, CollectedChildren(b, t, |t.children|, q, lim), q);
  }

  // ----- The whole tree -----

  /**
   The counter is the number of lines kept, for every target and limit, if and only if no
   statement strictly inside an elided run collects anything.
   */
  lemma {:induction false} TreeCountsRightIff(t: Syn, lim: Limits, total: nat)
    requires WellPlaced(t) && t.end <= total + 1
    ensures WellFormed(Forest(t, lim)) && (AlwaysRight(Forest(t, lim), total) <==> RunsQuiet(t, lim, 0))
  {
    var f := Forest(t, lim);
    ForestGeometry(t, lim, 0);
    RightIffSpaced(f, total);
    if !RunsQuiet(t, lim, 0) {
      UnquietOverlaps(EMPTY, t, None, lim);
      var i, j :| OverlapAt(f, i, j);
    }
  }

  // ----- Two trees -----

  const LIMITS := Limits(3, 3)

  /** A statement over whole lines. */
  function Statement(start: nat, end: nat, children: seq<Syn>): Syn {
    Syn(false, false, true, start, end, end, children)
  }

  /** Three imports, the second with a list of names over lines 2 to 9. */
  const IMPORTS := [Statement(1, 1, []), Statement(2, 9, [Syn(false, true, false, 2, 9, 9, [])]), Statement(10, 10, [])]

  const MISCOUNTED := Syn(false, false, false, 1, 10, 10, IMPORTS)

  lemma {:induction false} ThreeInARun(cs: seq<Syn>)
    requires |cs| == 3 && forall i :: 0 <= i < 3 ==> cs[i].groupable
    ensures Runs(cs) == [(0, 2)]
  {
    assert OpenRun(cs, 1) == Some(0) && OpenRun(cs, 2) == Some(0) && OpenRun(cs, 3) == Some(0);
    assert ClosedRuns(cs, 1) == [] && ClosedRuns(cs, 2) == [] && ClosedRuns(cs, 3) == [];
  }

  lemma {:induction false} NothingInside(a: Arena, t: Syn, p: Option<nat>)
    requires HasParent(a, p) && t.children == [] && OwnSpan(t, LIMITS).None?
    ensures Collected(a, t, p, LIMITS) == a
  {
    assert Runs([]) == [];
  }

  lemma {:induction false} ThreePush(a: Arena, p: Option<nat>, cs: seq<Syn>, span: Iv)
    requires HasParent(a, p) && |cs| == 3 && (forall i :: 0 <= i < 3 ==> cs[i].groupable) && RunSpanAt(cs, (0, 2), 3) == Some(span)
    ensures PushRuns(a, p, cs, Runs(cs), 3) == Pushed(a, p, span)
  {
    var rs := [(0, 2)];
    ThreeInARun(cs);
    assert rs[..0] == [];
    assert PushRuns(a, p, cs, [], 3) == a;
  }

  /** Only the middle one of three children adds to the arena. */
  lemma {:induction false} ThreeChildren(a: Arena, t: Syn, p: Option<nat>, b: Arena)
    requires HasParent(a, p) && HasParent(b, p) && |t.children| == 3
    requires Collected(a, t.children[0], p, LIMITS) == a && Collected(a, t.children[1], p, LIMITS) == b
    requires Collected(b, t.children[2], p, LIMITS) == b
    ensures CollectedChildren(a, t, 3, p, LIMITS) == b
  {
    assert CollectedChildren(a, t, 1, p, LIMITS) == a;
    assert CollectedChildren(a, t, 2, p, LIMITS) == b;
  }

  lemma {:induction false} OneChild(a: Arena, t: Syn, b: Arena)
    requires |t.children| == 1 && !t.comment && OwnSpan(t, LIMITS).None? && !t.children[0].groupable
    requires Collected(a, t.children[0], None, LIMITS) == b
    ensures Collected(a, t, None, LIMITS) == b
  {
    assert OpenRun(t.children, 1) == None && OpenRun(t.children, 0) == None;
    assert ClosedRuns(t.children, 0) == [] && ClosedRuns(t.children, 1) == [];
    assert Runs(t.children) == [];
    assert CollectedChildren(a, t, 0, None, LIMITS) == a;
    assert CollectedChildren(a, t, 1, None, LIMITS) == b;
  }

  /** The run of imports, and the list of names inside it. */
  const OVERLAPPING := Arena([SpanNode(Iv(2, 9), []), SpanNode(Iv(3, 8), [])], [0, 1], [None, None])

  lemma {:induction false} MiddleImport(a: Arena)
    requires a == Arena([SpanNode(Iv(2, 9), [])], [0], [None])
    ensures Collected(a, IMPORTS[1], None, LIMITS) == OVERLAPPING
  {
    var names := IMPORTS[1].children[0];
    assert Runs([]) == [];
    assert OwnSpan(names, LIMITS) == Some(Iv(3, 8));
    assert Collected(a, names, None, LIMITS) == Pushed(a, None, Iv(3, 8));
    OneChild(a, IMPORTS[1], OVERLAPPING);
  }

  lemma {:induction false} MiscountedForest()
    ensures Forest(MISCOUNTED, LIMITS) == OVERLAPPING
  {
    var a := Pushed(EMPTY, None, Iv(2, 9));
    assert RunSpanAt(IMPORTS, (0, 2), 3) == Some(Iv(2, 9));
    ThreePush(EMPTY, None, IMPORTS, Iv(2, 9));
    NothingInside(a, IMPORTS[0], None);
    MiddleImport(a);
    NothingInside(OVERLAPPING, IMPORTS[2], None);
    ThreeChildren(a, MISCOUNTED, None, OVERLAPPING);
  }

  lemma {:induction false} OverlappingStart()
    ensures Start(OVERLAPPING.nodes, [0, 1], 10) == Fold({0, 1}, 0, [0, 1])
  {
    var nodes := OVERLAPPING.nodes;
    assert Spans(nodes, [0, 1]) == [Iv(2, 9)] + [Iv(3, 8)];
    SizeJoin([Iv(2, 9)], [Iv(3, 8)]);
    OneSize(Iv(2, 9));
    OneSize(Iv(3, 8));
  }

  lemma {:induction false} OverlappingTurns(start: Fold)
    requires start == Fold({0, 1}, 0, [0, 1])
    ensures StopsAfter(OVERLAPPING.nodes, start, 1, 0, 2)
    ensures Turns(OVERLAPPING.nodes, start, Some(0), 2) == Fold({0, 1}, 0, [])
  {
    var nodes := OVERLAPPING.nodes;
    assert Spans(nodes, []) == [];
    assert Gain(nodes, 0) == 8 && Gain(nodes, 1) == 6;
    assert Turns(nodes, start, Some(0), 0) == start;
    assert Turns(nodes, start, Some(0), 1) == Fold({0, 1}, 0, [1]);
  }

  lemma {:induction false} OverlappingKept()
    ensures Kept(OVERLAPPING, {0, 1}, 10) == 2
  {
    KeptPair(OVERLAPPING, 0, 1, 10);
  }

  /** Of two folded spans, one inside the other, only the outer one counts. */
  lemma {:induction false} KeptPair(a: Arena, i: nat, j: nat, total: nat)
    requires i < |a.nodes| && j < |a.nodes|
    requires a.nodes[i].span.s <= a.nodes[j].span.s && a.nodes[j].span.e <= a.nodes[i].span.e && a.nodes[i].span.s <= a.nodes[i].span.e
    ensures Kept(a, {i, j}, total) == total - (a.nodes[i].span.e - a.nodes[i].span.s + 1)
  {
    var outer, inner := a.nodes[i].span, a.nodes[j].span;
    CoverPair(a, i, j);
    RangeInside(outer.s, outer.e, inner.s, inner.e);
    RangeSize(outer.s, outer.e);
  }

  lemma {:induction false} CoverPair(a: Arena, i: nat, j: nat)
    requires i < |a.nodes| && j < |a.nodes|
    ensures Cover(a, {i, j}) == Range(a.nodes[i].span.s, a.nodes[i].span.e) + Range(a.nodes[j].span.s, a.nodes[j].span.e)
  {
    CoverUnion(a, {i}, {j});
    CoverOne(a, i);
    CoverOne(a, j);
    assert {i} + {j} == {i, j};
  }

  lemma {:induction false} RangeInside(s: int, e: int, from: int, to: int)
    requires s <= from && to <= e
    ensures Range(s, e) + Range(from, to) == Range(s, e)
  {
  }

  /** Of its ten lines two are kept; the counter says none, for it took off the list of names twice. */
  lemma {:induction false} MiscountedCountsWrong()
    ensures var f := Forest(MISCOUNTED, LIMITS);
            && f == OVERLAPPING
            && var start := Start(f.nodes, [0, 1], 10);
            && StopsAfter(f.nodes, start, 1, 0, 2)
            && Turns(f.nodes, start, Some(0), 2).visible == 0 && Kept(f, Turns(f.nodes, start, Some(0), 2).folded, 10) == 2
  {
    MiscountedForest();
    OverlappingStart();
    OverlappingTurns(Start(OVERLAPPING.nodes, [0, 1], 10));
    OverlappingKept();
  }

  /** A block whose first and last line hold its first and last import. */
  const FILLED := Syn(false, true, false, 1, 10, 10, [Statement(1, 1, []), Statement(2, 9, []), Statement(10, 10, [])])

  /** A child's span can be its parent's. */
  lemma {:induction false} ChildFillsParent()
    ensures Forest(FILLED, LIMITS) == Arena([SpanNode(Iv(2, 9), [1]), SpanNode(Iv(2, 9), [])], [0], [None, Some(0)])
  {
    var cs := FILLED.children;
    var a := Pushed(EMPTY, None, Iv(2, 9));
    var b := Pushed(a, Some(0), Iv(2, 9));
    assert a == Arena([SpanNode(Iv(2, 9), [])], [0], [None]);
    var none: seq<nat> := [];
    assert none + [1] == [1];
    assert b.nodes == [SpanNode(Iv(2, 9), [1]), SpanNode(Iv(2, 9), [])];
    assert RunSpanAt(cs, (0, 2), 3) == Some(Iv(2, 9));
    ThreePush(a, Some(0), cs, Iv(2, 9));
    NothingInside(b, cs[0], Some(0));
    NothingInside(b, cs[1], Some(0));
    NothingInside(b, cs[2], Some(0));
    ThreeChildren(b, FILLED, Some(0), b);
    assert OwnSpan(FILLED, LIMITS) == Some(Iv(2, 9));
  }
}
