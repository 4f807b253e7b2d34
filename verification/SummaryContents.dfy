/**
 Which spans a tree's forest holds, and below which span each, said over the nodes' own lines:
 comments and bodies long enough, and the insides of maximal runs, none of them below a comment.
 */
module SummaryContents {
  import opened Wrappers
  import opened Intervals
  import opened SummaryForest
  import opened SummaryGeometry

  // ----- What a tree asks for -----

  predicate Proper(iv: Iv) {
    iv.s <= iv.e
  }

  /** A comment of at least `lim.comment` lines, less its first two lines and its last. */
  predicate CommentBlock(t: Syn, lim: Limits, iv: Iv) {
    t.comment && t.end - t.start + 1 >= lim.comment && iv == Iv(t.start + 2, t.end - 1) && Proper(iv)
  }

  /** An elidable node of at least `lim.body` lines, less its first line and its last. */
  predicate BodyBlock(t: Syn, lim: Limits, iv: Iv) {
    !t.comment && t.elidable && t.end - t.start + 1 >= lim.body && iv == Iv(t.start + 1, t.end - 1) && Proper(iv)
  }

  /** Groupable siblings from `i` to `j`, with none next to them. */
  predicate MaximalRun(cs: seq<Syn>, i: nat, j: nat) {
    && i <= j < |cs|
    && (forall k :: i <= k <= j ==> cs[k].groupable)
    && (i > 0 ==> !cs[i - 1].groupable)
    && (j + 1 < |cs| ==> !cs[j + 1].groupable)
  }

  /** Two or more in a row, over at least `lim.body` lines, less the first's content and the last. */
  predicate RunInside(cs: seq<Syn>, i: nat, j: nat, lim: Limits, iv: Iv) {
    && MaximalRun(cs, i, j) && i < j && cs[j].end - cs[i].start + 1 >= lim.body
    && iv == Iv(cs[i].contentEnd + 1, cs[j].start - 1) && Proper(iv)
  }

  ghost predicate RunBlock(t: Syn, lim: Limits, iv: Iv) {
    !t.comment && exists i: nat, j: nat :: RunInside(t.children, i, j, lim, iv)
  }

  /** The innermost span around the children of `t`. */
  function Around(t: Syn, lim: Limits, outer: Option<Iv>): Option<Iv> {
    var iv := Iv(t.start + 1, t.end - 1);
    if BodyBlock(t, lim, iv) then Some(iv) else outer
  }

  /** The tree holds the span `iv`, and `par` is the innermost span around it. */
  ghost predicate Yields(t: Syn, outer: Option<Iv>, lim: Limits, iv: Iv, par: Option<Iv>)
    decreases t
  {
    || ((CommentBlock(t, lim, iv) || BodyBlock(t, lim, iv)) && par == outer)
    || (RunBlock(t, lim, iv) && par == Around(t, lim, outer))
    || (!t.comment && exists c :: c in t.children && Yields(c, Around(t, lim, outer), lim, iv, par))
  }

  // ----- Runs are the maximal ones -----

  /** Closed before `n`: a maximal run among the first `n` children that ends before the last of them. */
  predicate ClosedAt(cs: seq<Syn>, n: nat, i: nat, j: nat)
    requires n <= |cs|
  {
    MaximalRun(cs, i, j) && j + 1 < n
  }

  predicate OpenAt(cs: seq<Syn>, n: nat, i: nat)
    requires n <= |cs|
  {
    i < n && (forall k :: i <= k < n ==> cs[k].groupable) && (i > 0 ==> !cs[i - 1].groupable)
  }

  lemma {:induction false} OpenRunIs(cs: seq<Syn>, n: nat)
    requires n <= |cs|
    ensures forall i: nat :: OpenRun(cs, n) == Some(i) <==> OpenAt(cs, n, i)
    decreases n
  {
    if n > 0 {
      OpenRunIs(cs, n - 1);
      forall i: nat ensures OpenRun(cs, n) == Some(i) <==> OpenAt(cs, n, i) {
        if cs[n - 1].groupable {
          assert i < n - 1 ==> (OpenAt(cs, n, i) <==> OpenAt(cs, n - 1, i));
          if OpenRun(cs, n - 1).Some? { assert OpenAt(cs, n - 1, OpenRun(cs, n - 1).value); }
          if i == n - 1 { NoneOpen(cs, n - 1); }
        }
      }
    }
  }

  lemma {:induction false} NoneOpen(cs: seq<Syn>, n: nat)
    requires n <= |cs|
    ensures OpenRun(cs, n).None? <==> n == 0 || !cs[n - 1].groupable
  {
  }

  lemma {:induction false} ClosingIs(cs: seq<Syn>, n: nat, i: nat, j: nat)
    requires n <= |cs|
    ensures (i, j) in Closing(cs, n) <==> OpenAt(cs, n, i) && j == n - 1
  {
    OpenRunIs(cs, n);
  }

  lemma {:induction false} ClosedRunsAre(cs: seq<Syn>, n: nat, i: nat, j: nat)
    requires n <= |cs|
    ensures (i, j) in ClosedRuns(cs, n) <==> ClosedAt(cs, n, i, j)
    decreases n
  {
    if n > 0 {
      ClosedRunsAre(cs, n - 1, i, j);
      ClosingIs(cs, n - 1, i, j);
    }
  }

  lemma {:induction false} RunsAreMaximal(cs: seq<Syn>, i: nat, j: nat)
    ensures (i, j) in Runs(cs) <==> MaximalRun(cs, i, j)
  {
    ClosedRunsAre(cs, |cs|, i, j);
    ClosingIs(cs, |cs|, i, j);
  }

  // ----- What a step adds -----

  function SpanOf(a: Arena, p: Option<nat>): Option<Iv> {
    if p.Some? && p.value < |a.nodes| then Some(a.nodes[p.value].span) else None
  }

  /** Node `i` has span `iv`, below `par`. */
  predicate Holds(a: Arena, i: nat, iv: Iv, par: Option<Iv>) {
    i < |a.nodes| && i < |a.parent| && a.nodes[i].span == iv && SpanOf(a, a.parent[i]) == par
  }

  /** Some node from `from` on has span `iv`, below `par`. */
  ghost predicate Adds(from: nat, a: Arena, iv: Iv, par: Option<Iv>) {
    exists i :: from <= i && Holds(a, i, iv, par)
  }

  /** `b` extends `a` without changing it. */
  ghost predicate Extends(a: Arena, b: Arena) {
    && Sized(a) && Sized(b) && |a.nodes| <= |b.nodes|
    && (forall i :: 0 <= i < |a.nodes| ==> b.nodes[i].span == a.nodes[i].span && b.parent[i] == a.parent[i])
  }

  lemma {:induction false} AddsTwice(a: Arena, b: Arena, c: Arena, iv: Iv, par: Option<Iv>)
    requires Extends(a, b) && Extends(b, c)
    ensures Extends(a, c)
    ensures Adds(|a.nodes|, c, iv, par) <==> Adds(|a.nodes|, b, iv, par) || Adds(|b.nodes|, c, iv, par)
  {
    forall i | 0 <= i < |b.nodes| ensures Holds(b, i, iv, par) <==> Holds(c, i, iv, par) {
    }
    if Adds(|a.nodes|, b, iv, par) {
      var i :| |a.nodes| <= i && Holds(b, i, iv, par);
      assert Holds(c, i, iv, par);
    }
    if Adds(|a.nodes|, c, iv, par) {
      var i :| |a.nodes| <= i && Holds(c, i, iv, par);
      if i < |b.nodes| { assert Holds(b, i, iv, par); }
    }
  }

  lemma {:induction false} AddsNothing(a: Arena, iv: Iv, par: Option<Iv>)
    ensures !Adds(|a.nodes|, a, iv, par)
  {
  }

  lemma {:induction false} PushAdds(a: Arena, p: Option<nat>, span: Iv, iv: Iv, par: Option<Iv>)
    requires Sized(a) && HasParent(a, p)
    ensures var b := Pushed(a, p, span);
      Extends(a, b) && (Adds(|a.nodes|, b, iv, par) <==> iv == span && par == SpanOf(a, p))
  {
    var b := Pushed(a, p, span);
    assert Holds(b, |a.nodes|, iv, par) <==> iv == span && par == SpanOf(a, p);
  }

  // ----- Runs -----

  lemma {:induction false} SpanOfRun(t: Syn, i: nat, j: nat, lim: Limits, iv: Iv)
    requires WellPlaced(t) && MaximalRun(t.children, i, j)
    ensures RunSpanAt(t.children, (i, j), lim.body) == Some(iv) <==> RunInside(t.children, i, j, lim, iv)
  {
    var cs := t.children;
    assert cs[i] in cs && cs[j] in cs;
    assert i < j ==> cs[i].end <= cs[j].start;
  }

  ghost predicate RunOf(cs: seq<Syn>, rs: seq<(nat, nat)>, minBody: nat, iv: Iv) {
    exists k :: 0 <= k < |rs| && RunSpanAt(cs, rs[k], minBody) == Some(iv)
  }

  lemma {:induction false} RunsAdd(a: Arena, q: Option<nat>, cs: seq<Syn>, rs: seq<(nat, nat)>, minBody: nat, iv: Iv, par: Option<Iv>)
    requires Sized(a) && HasParent(a, q)
    ensures var b := PushRuns(a, q, cs, rs, minBody);
      Extends(a, b) && (Adds(|a.nodes|, b, iv, par) <==> RunOf(cs, rs, minBody, iv) && par == SpanOf(a, q))
    decreases |rs|
  {
    if rs == [] {
      AddsNothing(a, iv, par);
    } else {
      var init, last := rs[..|rs| - 1], rs[|rs| - 1];
      var before, span := PushRuns(a, q, cs, init, minBody), RunSpanAt(cs, last, minBody);
      RunsAdd(a, q, cs, init, minBody, iv, par);
      RunOfLast(cs, rs, minBody, iv);
      if span.Some? {
        PushAdds(before, q, span.value, iv, par);
        AddsTwice(a, before, Pushed(before, q, span.value), iv, par);
      }
    }
  }

  lemma {:induction false} RunOfLast(cs: seq<Syn>, rs: seq<(nat, nat)>, minBody: nat, iv: Iv)
    requires rs != []
    ensures RunOf(cs, rs, minBody, iv) <==>
      RunOf(cs, rs[..|rs| - 1], minBody, iv) || RunSpanAt(cs, rs[|rs| - 1], minBody) == Some(iv)
  {
    var init := rs[..|rs| - 1];
    if RunOf(cs, init, minBody, iv) {
      var k :| 0 <= k < |init| && RunSpanAt(cs, init[k], minBody) == Some(iv);
      assert rs[k] == init[k];
    }
    if RunOf(cs, rs, minBody, iv) {
      var k :| 0 <= k < |rs| && RunSpanAt(cs, rs[k], minBody) == Some(iv);
      if k < |init| { assert init[k] == rs[k]; }
    }
  }

  lemma {:induction false} RunOfTree(t: Syn, lim: Limits, iv: Iv)
    requires WellPlaced(t) && !t.comment
    ensures RunOf(t.children, Runs(t.children), lim.body, iv) <==> RunBlock(t, lim, iv)
  {
    var cs, rs := t.children, Runs(t.children);
    if RunOf(cs, rs, lim.body, iv) {
      var k :| 0 <= k < |rs| && RunSpanAt(cs, rs[k], lim.body) == Some(iv);
      var (i, j) := rs[k];
      assert (i, j) in rs;
      RunsAreMaximal(cs, i, j);
      SpanOfRun(t, i, j, lim, iv);
    }
    if RunBlock(t, lim, iv) {
      var i: nat, j: nat :| RunInside(cs, i, j, lim, iv);
      RunsAreMaximal(cs, i, j);
      SpanOfRun(t, i, j, lim, iv);
      var k :| 0 <= k < |rs| && rs[k] == (i, j);
    }
  }

  // ----- Trees -----

  lemma {:induction false} OwnIs(t: Syn, lim: Limits, iv: Iv)
    requires WellPlaced(t)
    ensures OwnSpan(t, lim) == Some(iv) <==> CommentBlock(t, lim, iv) || BodyBlock(t, lim, iv)
    ensures !t.comment ==> Around(t, lim, None) == OwnSpan(t, lim)
  {
  }

  /** The first `n` children hold it. */
  ghost predicate YieldsBelow(t: Syn, n: nat, outer: Option<Iv>, lim: Limits, iv: Iv, par: Option<Iv>)
    requires n <= |t.children|
  {
    exists k :: 0 <= k < n && Yields(t.children[k], outer, lim, iv, par)
  }

  lemma {:induction false} TreeAdds(a: Arena, t: Syn, p: Option<nat>, lim: Limits, iv: Iv, par: Option<Iv>)
    requires Sized(a) && HasParent(a, p) && WellPlaced(t)
    ensures var b := Collected(a, t, p, lim);
      Extends(a, b) && (Adds(|a.nodes|, b, iv, par) <==> Yields(t, SpanOf(a, p), lim, iv, par))
    decreases t, |t.children| + 1, 1
  {
    var own := OwnSpan(t, lim);
    OwnIs(t, lim, iv);
    var a1 := if own.Some? then Pushed(a, p, own.value) else a;
    if own.Some? { PushAdds(a, p, own.value, iv, par); } else { AddsNothing(a, iv, par); }
    if !t.comment {
      var q := if own.Some? then Some(|a.nodes|) else p;
      assert SpanOf(a1, q) == Around(t, lim, SpanOf(a, p));
      BodyAdds(a1, t, q, lim, iv, par);
      AddsTwice(a, a1, BodyOf(a1, t, q, lim), iv, par);
    }
  }

  lemma {:induction false} BodyAdds(a: Arena, t: Syn, q: Option<nat>, lim: Limits, iv: Iv, par: Option<Iv>)
    requires Sized(a) && HasParent(a, q) && WellPlaced(t) && !t.comment
    ensures var b, outer := BodyOf(a, t, q, lim), SpanOf(a, q);
      Extends(a, b) && (Adds(|a.nodes|, b, iv, par) <==>
        (RunBlock(t, lim, iv) && par == outer) || exists c :: c in t.children && Yields(c, outer, lim, iv, par))
    decreases t, |t.children| + 1, 0
  {
    var mid := PushRuns(a, q, t.children, Runs(t.children), lim.body);
    RunsAdd(a, q, t.children, Runs(t.children), lim.body, iv, par);
    RunOfTree(t, lim, iv);
    ChildrenAdd(mid, t, |t.children|, q, lim, iv, par);
    AddsTwice(a, mid, BodyOf(a, t, q, lim), iv, par);
    assert SpanOf(mid, q) == SpanOf(a, q);
    if c :| c in t.children && Yields(c, SpanOf(a, q), lim, iv, par) {
      var k :| 0 <= k < |t.children| && t.children[k] == c;
      assert YieldsBelow(t, |t.children|, SpanOf(a, q), lim, iv, par);
    }
  }

  lemma {:induction false} ChildrenAdd(a: Arena, t: Syn, n: nat, q: Option<nat>, lim: Limits, iv: Iv, par: Option<Iv>)
    requires Sized(a) && HasParent(a, q) && WellPlaced(t) && n <= |t.children|
    ensures var b := CollectedChildren(a, t, n, q, lim);
      Extends(a, b) && (Adds(|a.nodes|, b, iv, par) <==> YieldsBelow(t, n, SpanOf(a, q), lim, iv, par))
    decreases t, n, 0
  {
    if n == 0 {
      AddsNothing(a, iv, par);
    } else {
      var before := CollectedChildren(a, t, n - 1, q, lim);
      var c := t.children[n - 1];
      assert c in t.children;
      ChildrenAdd(a, t, n - 1, q, lim, iv, par);
      TreeAdds(before, c, q, lim, iv, par);
      AddsTwice(a, before, Collected(before, c, q, lim), iv, par);
      assert SpanOf(before, q) == SpanOf(a, q);
    }
  }

  /**
   The forest of any tree holds exactly the spans the tree asks for: of long enough comments and
   elidable nodes, and of maximal runs, each below the innermost span around it.
   */
  lemma {:induction false} ForestHolds(t: Syn, lim: Limits, iv: Iv, par: Option<Iv>)
    requires WellPlaced(t)
    ensures (exists i :: Holds(Forest(t, lim), i, iv, par)) <==> Yields(t, None, lim, iv, par)
  {
    var f := Forest(t, lim);
    TreeAdds(EMPTY, t, None, lim, iv, par);
    if i :| Holds(f, i, iv, par) { assert Adds(0, f, iv, par); }
    if Adds(0, f, iv, par) {
      var i :| 0 <= i && Holds(f, i, iv, par);
    }
  }
}
