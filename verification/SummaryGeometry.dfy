/** Where collected spans lie: inside their parent's span, and apart from their siblings'. */
module SummaryGeometry {
  import opened Wrappers
  import opened Intervals
  import opened SummaryForest

  // ----- Growth -----

  /** `b` extends `a`: old nodes keep span and parent, new ones hang below `p` or below new nodes. */
  ghost predicate Grew(a: Arena, b: Arena, p: Option<nat>) {
    && |a.parent| == |a.nodes| <= |b.nodes| == |b.parent|
    && (forall i :: 0 <= i < |a.nodes| ==> b.nodes[i].span == a.nodes[i].span && b.parent[i] == a.parent[i])
    && (forall i :: |a.nodes| <= i < |b.nodes| ==>
          b.parent[i] == p || (b.parent[i].Some? && b.parent[i].value >= |a.nodes|))
  }

  lemma {:induction false} GrewTrans(a: Arena, b: Arena, c: Arena, p: Option<nat>, q: Option<nat>)
    requires Grew(a, b, p) && Grew(b, c, q)
    requires q == p || (q.Some? && q.value >= |a.nodes|)
    ensures Grew(a, c, p)
  {
  }

  /** New nodes directly below `p` lie inside `w`. */
  ghost predicate NewInside(a: Arena, b: Arena, p: Option<nat>, w: Iv) {
    forall i :: |a.nodes| <= i < |b.nodes| && i < |b.parent| && b.parent[i] == p ==> Inside(b.nodes[i].span, w)
  }

  /** Everything already below `p` keeps a line between itself and `w`. */
  ghost predicate Clear(a: Arena, p: Option<nat>, w: Iv, gap: nat) {
    forall i :: 0 <= i < |a.nodes| && i < |a.parent| && a.parent[i] == p ==> Apart(a.nodes[i].span, w, gap)
  }

  ghost predicate ParentHolds(a: Arena, p: Option<nat>, w: Iv) {
    p.Some? ==> p.value < |a.nodes| && Inside(w, a.nodes[p.value].span)
  }

  lemma {:induction false} PushGrows(a: Arena, p: Option<nat>, span: Iv)
    requires Sized(a) && HasParent(a, p) && 1 <= span.s <= span.e
    ensures Sized(Pushed(a, p, span)) && Grew(a, Pushed(a, p, span), p)
  {
  }

  lemma {:induction false} PushNested(a: Arena, p: Option<nat>, span: Iv)
    requires Sized(a) && Nested(a) && ParentHolds(a, p, span) && 1 <= span.s <= span.e
    ensures Sized(Pushed(a, p, span)) && Nested(Pushed(a, p, span))
  {
    PushGrows(a, p, span);
  }

  lemma {:induction false} PushSpaced(a: Arena, p: Option<nat>, span: Iv, gap: nat)
    requires Sized(a) && Spaced(a, gap) && HasParent(a, p) && Clear(a, p, span, gap) && 1 <= span.s <= span.e
    ensures Sized(Pushed(a, p, span)) && Spaced(Pushed(a, p, span), gap)
  {
    PushGrows(a, p, span);
  }

  lemma {:induction false} SpanInWindow(t: Syn, lim: Limits)
    requires WellPlaced(t) && OwnSpan(t, lim).Some?
    ensures Inside(OwnSpan(t, lim).value, Window(t)) && 1 <= OwnSpan(t, lim).value.s <= OwnSpan(t, lim).value.e
  {
  }

  /** A run's span lies between the first line of its first member and the first of its last. */
  lemma {:induction false} RunInWindow(t: Syn, r: (nat, nat), minBody: nat)
    requires WellPlaced(t) && RunSpanAt(t.children, r, minBody).Some? && t.children[r.0].groupable
    ensures var s := RunSpanAt(t.children, r, minBody).value;
      r.0 < r.1 < |t.children| && s.s == t.children[r.0].contentEnd + 1 && 1 <= s.s <= s.e &&
      t.children[r.0].start < s.s && s.e < t.children[r.1].start && Inside(s, Window(t))
  {
    assert t.children[r.0] in t.children && t.children[r.1] in t.children;
    assert WellPlaced(t.children[r.0]) && WellPlaced(t.children[r.1]);
  }

  lemma {:induction false} RunsAreOrdered(cs: seq<Syn>)
    ensures RunsOrdered(Runs(cs), |cs|) && RunsGroup(cs, Runs(cs))
  {
    ClosedRunsOrdered(cs, |cs|);
    ClosedRunsGroup(cs, |cs|);
  }

  // ----- Growth of a collection -----

  lemma {:induction false} RunsGrow(a: Arena, p: Option<nat>, t: Syn, rs: seq<(nat, nat)>, minBody: nat)
    requires Sized(a) && HasParent(a, p) && WellPlaced(t) && RunsGroup(t.children, rs)
    ensures var b := PushRuns(a, p, t.children, rs, minBody);
      Sized(b) && Grew(a, b, p) && NewInside(a, b, p, Window(t))
    decreases |rs|
  {
    if rs != [] {
      var before := PushRuns(a, p, t.children, rs[..|rs| - 1], minBody);
      RunsGrow(a, p, t, rs[..|rs| - 1], minBody);
      var span := RunSpanAt(t.children, rs[|rs| - 1], minBody);
      if span.Some? {
        RunInWindow(t, rs[|rs| - 1], minBody);
        PushGrows(before, p, span.value);
        GrewTrans(a, before, Pushed(before, p, span.value), p, p);
      }
    }
  }

  lemma {:induction false} ChildWindow(t: Syn, k: nat)
    requires WellPlaced(t) && k < |t.children|
    ensures WellPlaced(t.children[k]) && Inside(Window(t.children[k]), Window(t))
  {
    assert t.children[k] in t.children;
  }

  lemma {:induction false} CollectedGrows(a: Arena, t: Syn, p: Option<nat>, lim: Limits)
    requires Sized(a) && HasParent(a, p) && WellPlaced(t)
    ensures var b := Collected(a, t, p, lim); Sized(b) && Grew(a, b, p) && NewInside(a, b, p, Window(t))
    decreases t, |t.children| + 1, 1
  {
    var own := OwnSpan(t, lim);
    if own.Some? {
      SpanInWindow(t, lim);
      PushGrows(a, p, own.value);
    }
    var a1 := if own.Some? then Pushed(a, p, own.value) else a;
    if !t.comment {
      var q := if own.Some? then Some(|a.nodes|) else p;
      BodyGrows(a1, t, q, lim);
      GrewTrans(a, a1, BodyOf(a1, t, q, lim), p, q);
    }
  }

  /** The arena after a node's runs and children. */
  function BodyOf(a: Arena, t: Syn, q: Option<nat>, lim: Limits): Arena
    requires HasParent(a, q)
  {
    CollectedChildren(PushRuns(a, q, t.children, Runs(t.children), lim.body), t, |t.children|, q, lim)
  }

  lemma {:induction false} BodyGrows(a: Arena, t: Syn, q: Option<nat>, lim: Limits)
    requires Sized(a) && HasParent(a, q) && WellPlaced(t)
    ensures var b := BodyOf(a, t, q, lim); Sized(b) && Grew(a, b, q) && NewInside(a, b, q, Window(t))
    decreases t, |t.children| + 1, 0
  {
    var a2 := PushRuns(a, q, t.children, Runs(t.children), lim.body);
    RunsAreOrdered(t.children);
    RunsGrow(a, q, t, Runs(t.children), lim.body);
    ChildrenGrow(a2, t, |t.children|, q, lim);
    GrewTrans(a, a2, BodyOf(a, t, q, lim), q, q);
  }

  lemma {:induction false} ChildrenGrow(a: Arena, t: Syn, n: nat, p: Option<nat>, lim: Limits)
    requires Sized(a) && HasParent(a, p) && WellPlaced(t) && n <= |t.children|
    ensures var b := CollectedChildren(a, t, n, p, lim);
      Sized(b) && Grew(a, b, p) && NewInside(a, b, p, Window(t))
    decreases t, n
  {
    if n > 0 {
      var before := CollectedChildren(a, t, n - 1, p, lim);
      ChildrenGrow(a, t, n - 1, p, lim);
      ChildWindow(t, n - 1);
      CollectedGrows(before, t.children[n - 1], p, lim);
      GrewTrans(a, before, CollectedChildren(a, t, n, p, lim), p, p);
    }
  }

  // ----- Well-formedness -----

  lemma {:induction false} RunsValid(a: Arena, p: Option<nat>, t: Syn, rs: seq<(nat, nat)>, minBody: nat)
    requires WellFormed(a) && HasParent(a, p) && WellPlaced(t) && RunsGroup(t.children, rs)
    ensures WellFormed(PushRuns(a, p, t.children, rs, minBody)) && HasParent(PushRuns(a, p, t.children, rs, minBody), p)
    decreases |rs|
  {
    if rs != [] {
      RunsValid(a, p, t, rs[..|rs| - 1], minBody);
      var span := RunSpanAt(t.children, rs[|rs| - 1], minBody);
      if span.Some? {
        RunInWindow(t, rs[|rs| - 1], minBody);
        PushValid(PushRuns(a, p, t.children, rs[..|rs| - 1], minBody), p, span.value);
      }
    }
  }

  lemma {:induction false} CollectedValid(a: Arena, t: Syn, p: Option<nat>, lim: Limits)
    requires WellFormed(a) && HasParent(a, p) && WellPlaced(t)
    ensures WellFormed(Collected(a, t, p, lim)) && HasParent(Collected(a, t, p, lim), p)
    decreases t, |t.children| + 1
  {
    var own := OwnSpan(t, lim);
    if own.Some? {
      SpanInWindow(t, lim);
      PushValid(a, p, own.value);
    }
    var a1 := if own.Some? then Pushed(a, p, own.value) else a;
    if !t.comment {
      var q := if own.Some? then Some(|a.nodes|) else p;
      RunsAreOrdered(t.children);
      RunsValid(a1, q, t, Runs(t.children), lim.body);
      ChildrenValid(PushRuns(a1, q, t.children, Runs(t.children), lim.body), t, |t.children|, q, lim);
      CollectedGrows(a, t, p, lim);
    }
  }

  lemma {:induction false} ChildrenValid(a: Arena, t: Syn, n: nat, p: Option<nat>, lim: Limits)
    requires WellFormed(a) && HasParent(a, p) && WellPlaced(t) && n <= |t.children|
    ensures WellFormed(CollectedChildren(a, t, n, p, lim)) && HasParent(CollectedChildren(a, t, n, p, lim), p)
    decreases t, n
  {
    if n > 0 {
      ChildrenValid(a, t, n - 1, p, lim);
      ChildWindow(t, n - 1);
      CollectedValid(CollectedChildren(a, t, n - 1, p, lim), t.children[n - 1], p, lim);
    }
  }

  // ----- Containment -----

  lemma {:induction false} RunsNested(a: Arena, p: Option<nat>, t: Syn, rs: seq<(nat, nat)>, minBody: nat)
    requires Sized(a) && Nested(a) && ParentHolds(a, p, Window(t)) && WellPlaced(t) && RunsGroup(t.children, rs)
    ensures var b := PushRuns(a, p, t.children, rs, minBody); Sized(b) && Nested(b) && ParentHolds(b, p, Window(t))
    decreases |rs|
  {
    RunsGrow(a, p, t, rs, minBody);
    if rs != [] {
      RunsNested(a, p, t, rs[..|rs| - 1], minBody);
      if RunSpanAt(t.children, rs[|rs| - 1], minBody).Some? {
        RunInWindow(t, rs[|rs| - 1], minBody);
        PushNested(PushRuns(a, p, t.children, rs[..|rs| - 1], minBody), p, RunSpanAt(t.children, rs[|rs| - 1], minBody).value);
      }
    }
  }

  /** Spans collected from any tree lie inside the span of the node they hang below. */
  lemma {:induction false} CollectedNested(a: Arena, t: Syn, p: Option<nat>, lim: Limits)
    requires Sized(a) && Nested(a) && ParentHolds(a, p, Window(t)) && WellPlaced(t)
    ensures var b := Collected(a, t, p, lim); Sized(b) && Nested(b)
    decreases t, |t.children| + 1
  {
    CollectedGrows(a, t, p, lim);
    var own := OwnSpan(t, lim);
    if own.Some? {
      SpanInWindow(t, lim);
      PushGrows(a, p, own.value);
      PushNested(a, p, own.value);
    }
    var a1 := if own.Some? then Pushed(a, p, own.value) else a;
    if !t.comment {
      var q := if own.Some? then Some(|a.nodes|) else p;
      RunsAreOrdered(t.children);
      RunsNested(a1, q, t, Runs(t.children), lim.body);
      ChildrenNested(PushRuns(a1, q, t.children, Runs(t.children), lim.body), t, |t.children|, q, lim);
    }
  }

  lemma {:induction false} ChildrenNested(a: Arena, t: Syn, n: nat, p: Option<nat>, lim: Limits)
    requires Sized(a) && Nested(a) && ParentHolds(a, p, Window(t)) && WellPlaced(t) && n <= |t.children|
    ensures var b := CollectedChildren(a, t, n, p, lim); Sized(b) && Nested(b) && ParentHolds(b, p, Window(t))
    decreases t, n
  {
    ChildrenGrow(a, t, n, p, lim);
    if n > 0 {
      ChildrenNested(a, t, n - 1, p, lim);
      ChildWindow(t, n - 1);
      CollectedNested(CollectedChildren(a, t, n - 1, p, lim), t.children[n - 1], p, lim);
    }
  }

  // ----- Spacing -----

  /** Collecting the node pushes nothing. */
  ghost predicate Quiet(t: Syn, lim: Limits)
    decreases t
  {
    && OwnSpan(t, lim).None?
    && (!t.comment ==>
          && (forall r :: r in Runs(t.children) ==> RunSpanAt(t.children, r, lim.body).None?)
          && (forall c :: c in t.children ==> Quiet(c, lim)))
  }

  /**
   The members strictly inside an elided run hold nothing elidable of their own. For a gap of a
   line, nor does a first member that ends with its line's break.
   */
  ghost predicate QuietWithin(cs: seq<Syn>, r: (nat, nat), lim: Limits, gap: nat) {
    forall m :: r.0 <= m < r.1 && m < |cs| && (r.0 < m || (gap > 0 && cs[m].contentEnd < cs[m].end)) ==> Quiet(cs[m], lim)
  }

  /** So it is with every elided run of the tree. */
  ghost predicate RunsQuiet(t: Syn, lim: Limits, gap: nat)
    decreases t
  {
    t.comment ||
    (&& (forall r :: r in Runs(t.children) && RunSpanAt(t.children, r, lim.body).Some? ==> QuietWithin(t.children, r, lim, gap))
     && (forall c :: c in t.children ==> RunsQuiet(c, lim, gap)))
  }

  lemma {:induction false} QuietRunsPush(a: Arena, p: Option<nat>, cs: seq<Syn>, rs: seq<(nat, nat)>, minBody: nat)
    requires HasParent(a, p) && forall r :: r in rs ==> RunSpanAt(cs, r, minBody).None?
    ensures PushRuns(a, p, cs, rs, minBody) == a
    decreases |rs|
  {
    if rs != [] { QuietRunsPush(a, p, cs, rs[..|rs| - 1], minBody); }
  }

  lemma {:induction false} QuietCollects(a: Arena, t: Syn, p: Option<nat>, lim: Limits)
    requires HasParent(a, p) && Quiet(t, lim)
    ensures Collected(a, t, p, lim) == a
    decreases t, |t.children| + 1
  {
    if !t.comment {
      QuietRunsPush(a, p, t.children, Runs(t.children), lim.body);
      QuietChildren(a, t, |t.children|, p, lim);
    }
  }

  lemma {:induction false} QuietChildren(a: Arena, t: Syn, n: nat, p: Option<nat>, lim: Limits)
    requires HasParent(a, p) && n <= |t.children| && forall c :: c in t.children ==> Quiet(c, lim)
    ensures CollectedChildren(a, t, n, p, lim) == a
    decreases t, n
  {
    if n > 0 {
      QuietChildren(a, t, n - 1, p, lim);
      QuietCollects(a, t.children[n - 1], p, lim);
    }
  }


  /** A pushed run is apart from the window of every child that is not one of its members. */
  lemma {:induction false} RunApart(t: Syn, r: (nat, nat), k: nat, minBody: nat, gap: nat)
    requires WellPlaced(t) && RunSpanAt(t.children, r, minBody).Some? && k < |t.children| && !(r.0 <= k <= r.1)
    requires t.children[r.0].groupable && gap <= 1
    ensures Apart(RunSpanAt(t.children, r, minBody).value, Window(t.children[k]), gap)
  {
    RunInWindow(t, r, minBody);
    assert t.children[r.1] in t.children;
    assert WellPlaced(t.children[r.1]);
  }

  /** Nodes below `q` are either old or pushed for one of the runs. */
  ghost predicate FromRuns(a: Arena, b: Arena, q: Option<nat>, t: Syn, rs: seq<(nat, nat)>, minBody: nat) {
    forall i :: |a.nodes| <= i < |b.nodes| ==> OfRun(t, rs, minBody, b.nodes[i].span)
  }

  /** The span is that of one of the runs. */
  ghost predicate OfRun(t: Syn, rs: seq<(nat, nat)>, minBody: nat, span: Iv) {
    exists k :: 0 <= k < |rs| && RunSpanAt(t.children, rs[k], minBody) == Some(span)
  }

  lemma {:induction false} RunOf(t: Syn, rs: seq<(nat, nat)>, minBody: nat, span: Iv) returns (k: nat)
    requires OfRun(t, rs, minBody, span)
    ensures k < |rs| && RunSpanAt(t.children, rs[k], minBody) == Some(span)
  {
    k :| 0 <= k < |rs| && RunSpanAt(t.children, rs[k], minBody) == Some(span);
  }

  /** Two runs of one parent: the earlier one ends before the later one's first member. */
  lemma {:induction false} TwoRunsApart(t: Syn, r: (nat, nat), later: (nat, nat), minBody: nat, gap: nat)
    requires WellPlaced(t) && r.1 < later.0 && gap <= 1
    requires RunSpanAt(t.children, r, minBody).Some? && RunSpanAt(t.children, later, minBody).Some?
    requires t.children[r.0].groupable && t.children[later.0].groupable
    ensures Apart(RunSpanAt(t.children, r, minBody).value, RunSpanAt(t.children, later, minBody).value, gap)
  {
    RunInWindow(t, r, minBody);
    RunInWindow(t, later, minBody);
    assert t.children[r.1] in t.children && WellPlaced(t.children[r.1]);
  }

  lemma {:induction false} RunClear(a: Arena, before: Arena, q: Option<nat>, t: Syn, rs: seq<(nat, nat)>, minBody: nat, gap: nat)
    requires rs != [] && RunsOrdered(rs, |t.children|) && RunsGroup(t.children, rs) && WellPlaced(t) && gap <= 1
    requires RunSpanAt(t.children, rs[|rs| - 1], minBody).Some?
    requires Grew(a, before, q) && Clear(a, q, Window(t), gap) && FromRuns(a, before, q, t, rs[..|rs| - 1], minBody)
    ensures Clear(before, q, RunSpanAt(t.children, rs[|rs| - 1], minBody).value, gap)
  {
    var init, last := rs[..|rs| - 1], rs[|rs| - 1];
    var span := RunSpanAt(t.children, last, minBody).value;
    RunInWindow(t, last, minBody);
    forall i | 0 <= i < |before.nodes| && before.parent[i] == q ensures Apart(before.nodes[i].span, span, gap) {
      if i >= |a.nodes| {
        var k := RunOf(t, init, minBody, before.nodes[i].span);
        assert rs[k] == init[k];
        TwoRunsApart(t, rs[k], last, minBody, gap);
      } else {
        assert Apart(a.nodes[i].span, Window(t), gap);
      }
    }
  }

  lemma {:induction false} RunsSpaced(a: Arena, q: Option<nat>, t: Syn, rs: seq<(nat, nat)>, minBody: nat, gap: nat)
    requires Sized(a) && Spaced(a, gap) && HasParent(a, q) && WellPlaced(t)
    requires RunsOrdered(rs, |t.children|) && RunsGroup(t.children, rs) && Clear(a, q, Window(t), gap) && gap <= 1
    ensures var b := PushRuns(a, q, t.children, rs, minBody); Sized(b) && Spaced(b, gap) && FromRuns(a, b, q, t, rs, minBody)
    decreases |rs|
  {
    RunsGrow(a, q, t, rs, minBody);
    if rs != [] {
      var init, last := rs[..|rs| - 1], rs[|rs| - 1];
      var before := PushRuns(a, q, t.children, init, minBody);
      RunsSpaced(a, q, t, init, minBody, gap);
      RunsGrow(a, q, t, init, minBody);
      var span := RunSpanAt(t.children, last, minBody);
      if span.Some? {
        RunInWindow(t, last, minBody);
        RunClear(a, before, q, t, rs, minBody, gap);
        PushSpaced(before, q, span.value, gap);
      }
      RunsSource(a, before, PushRuns(a, q, t.children, rs, minBody), q, t, rs, minBody);
    }
  }

  lemma {:induction false} RunsSource(a: Arena, before: Arena, b: Arena, q: Option<nat>, t: Syn, rs: seq<(nat, nat)>, minBody: nat)
    requires rs != [] && FromRuns(a, before, q, t, rs[..|rs| - 1], minBody) && |before.parent| == |before.nodes|
    requires HasParent(before, q)
    requires var span := RunSpanAt(t.children, rs[|rs| - 1], minBody);
      b == if span.Some? then Pushed(before, q, span.value) else before
    ensures FromRuns(a, b, q, t, rs, minBody)
  {
    forall i | |a.nodes| <= i < |b.nodes| ensures OfRun(t, rs, minBody, b.nodes[i].span) {
      if i < |before.nodes| {
        var k := RunOf(t, rs[..|rs| - 1], minBody, before.nodes[i].span);
        assert rs[k] == rs[..|rs| - 1][k];
        assert b.nodes[i].span == before.nodes[i].span;
      } else {
        assert RunSpanAt(t.children, rs[|rs| - 1], minBody) == Some(b.nodes[i].span);
      }
    }
  }

  /** A child that is not quiet is apart from all pushed runs, its own included if it begins or ends it. */
  lemma {:induction false} LoudChildApart(a: Arena, b: Arena, q: Option<nat>, t: Syn, lim: Limits, k: nat, i: nat, gap: nat)
    requires WellPlaced(t) && k < |t.children| && RunsQuiet(t, lim, gap) && !t.comment && !Quiet(t.children[k], lim) && gap <= 1
    requires FromRuns(a, b, q, t, Runs(t.children), lim.body) && |a.nodes| <= i < |b.nodes|
    ensures Apart(b.nodes[i].span, Window(t.children[k]), gap)
  {
    var rs := Runs(t.children);
    RunsAreOrdered(t.children);
    var j := RunOf(t, rs, lim.body, b.nodes[i].span);
    var r := rs[j];
    assert r in rs && QuietWithin(t.children, r, lim, gap);
    if r.0 <= k <= r.1 {
      RunInWindow(t, r, lim.body);
      assert k == r.0 || k == r.1;
      assert t.children[k] in t.children && WellPlaced(t.children[k]);
    } else {
      RunApart(t, r, k, lim.body, gap);
    }
  }

  /** Every child is quiet or clear of what the runs and earlier nodes put below `q`. */
  lemma {:induction false} ChildrenStartClear(a: Arena, b: Arena, q: Option<nat>, t: Syn, lim: Limits, k: nat, gap: nat)
    requires gap <= 1 && Sized(b) && Grew(a, b, q) && WellPlaced(t) && k < |t.children|
    requires Clear(a, q, Window(t), gap) && FromRuns(a, b, q, t, Runs(t.children), lim.body)
    requires RunsQuiet(t, lim, gap) && !t.comment
    ensures Quiet(t.children[k], lim) || Clear(b, q, Window(t.children[k]), gap)
  {
    ChildWindow(t, k);
    if !Quiet(t.children[k], lim) {
      forall i | 0 <= i < |b.nodes| && b.parent[i] == q ensures Apart(b.nodes[i].span, Window(t.children[k]), gap) {
        if i >= |a.nodes| {
          LoudChildApart(a, b, q, t, lim, k, i, gap);
        } else {
          assert Apart(a.nodes[i].span, Window(t), gap);
        }
      }
    }
  }

  lemma {:induction false} CollectedSpaced(a: Arena, t: Syn, p: Option<nat>, lim: Limits, gap: nat)
    requires gap <= 1 && Sized(a) && Spaced(a, gap) && HasParent(a, p) && WellPlaced(t) && RunsQuiet(t, lim, gap)
    requires Clear(a, p, Window(t), gap)
    ensures var b := Collected(a, t, p, lim); Sized(b) && Spaced(b, gap)
    decreases t, |t.children| + 1
  {
    var own := OwnSpan(t, lim);
    if own.Some? {
      SpanInWindow(t, lim);
      PushGrows(a, p, own.value);
      PushSpaced(a, p, own.value, gap);
    }
    var a1 := if own.Some? then Pushed(a, p, own.value) else a;
    if !t.comment {
      var q := if own.Some? then Some(|a.nodes|) else p;
      FreshParentClear(a, a1, p, q, Window(t), gap);
      var a2 := PushRuns(a1, q, t.children, Runs(t.children), lim.body);
      RunsAreOrdered(t.children);
      RunsSpaced(a1, q, t, Runs(t.children), lim.body, gap);
      RunsGrow(a1, q, t, Runs(t.children), lim.body);
      AllReady(a1, a2, q, t, lim, gap);
      ChildrenSpaced(a2, t, |t.children|, q, lim, gap);
    }
  }

  lemma {:induction false} AllReady(a: Arena, b: Arena, q: Option<nat>, t: Syn, lim: Limits, gap: nat)
    requires gap <= 1 && Sized(b) && Grew(a, b, q) && WellPlaced(t)
    requires Clear(a, q, Window(t), gap) && FromRuns(a, b, q, t, Runs(t.children), lim.body)
    requires RunsQuiet(t, lim, gap) && !t.comment
    ensures ChildrenReady(b, t, q, lim, gap)
  {
    forall k | 0 <= k < |t.children|
      ensures RunsQuiet(t.children[k], lim, gap) && (Quiet(t.children[k], lim) || Clear(b, q, Window(t.children[k]), gap))
    {
      assert t.children[k] in t.children;
      ChildrenStartClear(a, b, q, t, lim, k, gap);
    }
  }

  /** Nothing hangs below an index before it exists. */
  lemma {:induction false} FreshParentClear(a: Arena, a1: Arena, p: Option<nat>, q: Option<nat>, w: Iv, gap: nat)
    requires Sized(a) && Sized(a1) && Grew(a, a1, p) && HasParent(a, p) && Clear(a, p, w, gap)
    requires (q == p && a1 == a) || (q == Some(|a.nodes|) && |a1.nodes| == |a.nodes| + 1 && a1.parent == a.parent + [p])
    ensures Clear(a1, q, w, gap)
  {
    assert forall i :: 0 <= i < |a.parent| ==> a.parent[i] != Some(|a.nodes|);
  }

  /** Each child has quiet runs, and is quiet itself or clear of what hangs below `q` so far. */
  ghost predicate ChildrenReady(a: Arena, t: Syn, q: Option<nat>, lim: Limits, gap: nat) {
    forall k :: 0 <= k < |t.children| ==>
      RunsQuiet(t.children[k], lim, gap) && (Quiet(t.children[k], lim) || Clear(a, q, Window(t.children[k]), gap))
  }

  lemma {:induction false} ChildrenFrom(a: Arena, t: Syn, n: nat, q: Option<nat>, lim: Limits)
    requires Sized(a) && HasParent(a, q) && WellPlaced(t) && n <= |t.children|
    ensures FromChildren(a, CollectedChildren(a, t, n, q, lim), q, t, n)
    decreases n
  {
    if n > 0 {
      var before := CollectedChildren(a, t, n - 1, q, lim);
      ChildrenFrom(a, t, n - 1, q, lim);
      ChildrenGrow(a, t, n - 1, q, lim);
      ChildWindow(t, n - 1);
      CollectedGrows(before, t.children[n - 1], q, lim);
      ChildrenSource(a, before, Collected(before, t.children[n - 1], q, lim), q, t, n);
    }
  }

  /** One child: a quiet one adds nothing, another one is clear of what is there. */
  lemma {:induction false} ChildSpaced(before: Arena, c: Syn, q: Option<nat>, lim: Limits, gap: nat)
    requires gap <= 1 && Sized(before) && Spaced(before, gap) && HasParent(before, q) && WellPlaced(c) && RunsQuiet(c, lim, gap)
    requires Quiet(c, lim) || Clear(before, q, Window(c), gap)
    ensures Sized(Collected(before, c, q, lim)) && Spaced(Collected(before, c, q, lim), gap)
    decreases c, |c.children| + 2
  {
    if Quiet(c, lim) { QuietCollects(before, c, q, lim); } else { CollectedSpaced(before, c, q, lim, gap); }
  }

  /** What earlier children add stays clear of a later one. */
  lemma {:induction false} ClearStays(a: Arena, t: Syn, n: nat, q: Option<nat>, lim: Limits, gap: nat)
    requires gap <= 1 && Sized(a) && HasParent(a, q) && WellPlaced(t) && 0 < n <= |t.children| && Clear(a, q, Window(t.children[n - 1]), gap)
    ensures Clear(CollectedChildren(a, t, n - 1, q, lim), q, Window(t.children[n - 1]), gap)
  {
    ChildrenGrow(a, t, n - 1, q, lim);
    ChildrenFrom(a, t, n - 1, q, lim);
    ChildClear(a, CollectedChildren(a, t, n - 1, q, lim), q, t, n, gap);
  }

  lemma {:induction false} ReadyAt(a: Arena, t: Syn, k: nat, q: Option<nat>, lim: Limits, gap: nat)
    requires ChildrenReady(a, t, q, lim, gap) && k < |t.children|
    ensures RunsQuiet(t.children[k], lim, gap) && (Quiet(t.children[k], lim) || Clear(a, q, Window(t.children[k]), gap))
  {
  }

  lemma {:induction false} StillParent(a: Arena, t: Syn, n: nat, q: Option<nat>, lim: Limits)
    requires Sized(a) && HasParent(a, q) && WellPlaced(t) && n <= |t.children|
    ensures Sized(CollectedChildren(a, t, n, q, lim)) && HasParent(CollectedChildren(a, t, n, q, lim), q)
  {
    ChildrenGrow(a, t, n, q, lim);
  }

  lemma {:induction false} ChildrenSpaced(a: Arena, t: Syn, n: nat, q: Option<nat>, lim: Limits, gap: nat)
    requires gap <= 1 && Sized(a) && Spaced(a, gap) && HasParent(a, q) && WellPlaced(t) && n <= |t.children|
    requires ChildrenReady(a, t, q, lim, gap)
    ensures var b := CollectedChildren(a, t, n, q, lim); Sized(b) && Spaced(b, gap)
    decreases t, n
  {
    if n > 0 {
      ChildrenSpaced(a, t, n - 1, q, lim, gap);
      StillParent(a, t, n - 1, q, lim);
      ChildWindow(t, n - 1);
      ReadyAt(a, t, n - 1, q, lim, gap);
      if Clear(a, q, Window(t.children[n - 1]), gap) { ClearStays(a, t, n, q, lim, gap); }
      ChildSpaced(CollectedChildren(a, t, n - 1, q, lim), t.children[n - 1], q, lim, gap);
    }
  }

  lemma {:induction false} ChildClear(a: Arena, before: Arena, q: Option<nat>, t: Syn, n: nat, gap: nat)
    requires gap <= 1 && 0 < n <= |t.children| && WellPlaced(t) && Sized(before)
    requires Grew(a, before, q) && FromChildren(a, before, q, t, n - 1)
    requires Clear(a, q, Window(t.children[n - 1]), gap)
    ensures Clear(before, q, Window(t.children[n - 1]), gap)
  {
    var c := t.children[n - 1];
    forall i | 0 <= i < |before.nodes| && before.parent[i] == q ensures Apart(before.nodes[i].span, Window(c), gap) {
      if i >= |a.nodes| {
        var j :| 0 <= j < n - 1 && j < |t.children| && Inside(before.nodes[i].span, Window(t.children[j]));
        assert t.children[j].end <= c.start;
      } else {
        assert Apart(a.nodes[i].span, Window(c), gap);
      }
    }
  }

  /** New nodes directly below `q` lie in the window of one of the first `n` children. */
  ghost predicate FromChildren(a: Arena, b: Arena, q: Option<nat>, t: Syn, n: nat) {
    forall i :: |a.nodes| <= i < |b.nodes| && i < |b.parent| && b.parent[i] == q ==>
      exists j :: 0 <= j < n && j < |t.children| && Inside(b.nodes[i].span, Window(t.children[j]))
  }

  lemma {:induction false} ChildrenSource(a: Arena, before: Arena, b: Arena, q: Option<nat>, t: Syn, n: nat)
    requires 0 < n <= |t.children| && FromChildren(a, before, q, t, n - 1)
    requires Grew(before, b, q) && NewInside(before, b, q, Window(t.children[n - 1]))
    ensures FromChildren(a, b, q, t, n)
  {
    forall i | |a.nodes| <= i < |b.nodes| && b.parent[i] == q
      ensures exists j :: 0 <= j < n && j < |t.children| && Inside(b.nodes[i].span, Window(t.children[j]))
    {
      if i < |before.nodes| {
        var j :| 0 <= j < n - 1 && j < |t.children| && Inside(before.nodes[i].span, Window(t.children[j]));
        assert Inside(b.nodes[i].span, Window(t.children[j]));
      } else {
        assert Inside(b.nodes[i].span, Window(t.children[n - 1]));
      }
    }
  }

  // ----- From the root -----

  function Forest(t: Syn, lim: Limits): Arena {
    Collected(EMPTY, t, None, lim)
  }

  /**
   Any tree's forest is nested and lies inside the tree's own lines; sibling spans keep `gap`
   lines between them when the runs are quiet for that gap.
   */
  lemma {:induction false} ForestGeometry(t: Syn, lim: Limits, gap: nat)
    requires WellPlaced(t) && gap <= 1
    ensures var f := Forest(t, lim);
      WellFormed(f) && Nested(f) && NewInside(EMPTY, f, None, Window(t)) && (RunsQuiet(t, lim, gap) ==> Spaced(f, gap))
  {
    CollectedValid(EMPTY, t, None, lim);
    CollectedGrows(EMPTY, t, None, lim);
    CollectedNested(EMPTY, t, None, lim);
    if RunsQuiet(t, lim, gap) { CollectedSpaced(EMPTY, t, None, lim, gap); }
  }
}
