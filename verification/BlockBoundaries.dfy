/**
 Boundary lines of syntactic blocks around a visible window, and the climb to the outermost
 block that begins on a line. Syntax trees are arbitrary trees of line ranges.
 */
module BlockBoundaries {
  import opened Intervals

  /** `end` is the line of the node's last content. */
  datatype Node = Node(named: bool, start: nat, end: nat, children: seq<Node>)

  /** Every node strictly below `t`. */
  ghost function Below(t: Node): set<Node>
    decreases t
  {
    set c, d | c in t.children && d in {c} + Below(c) :: d
  }

  /** `x` is the off-window endpoint of a multi-line named node with its other endpoint in the window. */
  ghost predicate Straddles(ranges: seq<Iv>, n: Node, x: int) {
    && n.named && n.start < n.end
    && ((x == n.end && In(ranges, n.start) && !In(ranges, n.end)) ||
        (x == n.start && In(ranges, n.end) && !In(ranges, n.start)))
  }

  ghost predicate OnBoundary(ranges: seq<Iv>, nodes: set<Node>, x: int) {
    exists n :: n in nodes && Straddles(ranges, n, x)
  }

  /** Depth-first walk; the whole-file root itself contributes nothing. */
  method Collect(node: Node, isRoot: bool, merged: seq<Iv>, before: set<int>) returns (out: set<int>)
    requires Canonical(merged)
    ensures forall x :: x in out <==>
      x in before || OnBoundary(merged, Below(node), x) || (!isRoot && Straddles(merged, node, x))
    decreases node
  {
    out := before;
    if node.named && !isRoot && node.end > node.start {
      var startVisible := IsVisible(merged, node.start);
      var endVisible := IsVisible(merged, node.end);
      if startVisible && !endVisible {
        out := out + {node.end as int};
      } else if endVisible && !startVisible {
        out := out + {node.start as int};
      }
    }
    ghost var own := out;
    var i := 0;
    while i < |node.children|
      invariant 0 <= i <= |node.children|
      invariant forall x :: x in out <==> x in own || OnBoundary(merged, Upto(node, i), x)
    {
      var child := node.children[i];
      assert child in node.children;
      ghost var sofar := out;
      out := Collect(child, false, merged, out);
      forall x ensures x in out <==> x in own || OnBoundary(merged, Upto(node, i + 1), x) {
        UptoStep(merged, node, i, x);
        assert x in sofar <==> x in own || OnBoundary(merged, Upto(node, i), x);
      }
      i := i + 1;
    }
    assert Upto(node, i) == Below(node);
  }

  /** Nodes below the first `n` children, these included. */
  ghost function Upto(t: Node, n: nat): set<Node>
    requires n <= |t.children|
  {
    set c, d | c in t.children[..n] && d in {c} + Below(c) :: d
  }

  lemma {:induction false} UptoStep(merged: seq<Iv>, t: Node, i: nat, x: int)
    requires i < |t.children|
    ensures OnBoundary(merged, Upto(t, i + 1), x) <==>
      OnBoundary(merged, Upto(t, i), x) || OnBoundary(merged, Below(t.children[i]), x) || Straddles(merged, t.children[i], x)
  {
    var child := t.children[i];
    assert t.children[..i + 1] == t.children[..i] + [child];
    assert Upto(t, i + 1) == Upto(t, i) + ({child} + Below(child));
    if OnBoundary(merged, Upto(t, i + 1), x) {
      var n :| n in Upto(t, i + 1) && Straddles(merged, n, x);
      assert n in Upto(t, i) || n in Below(child) || n == child;
    }
    if Straddles(merged, child, x) { assert child in Upto(t, i + 1); }
    if OnBoundary(merged, Below(child), x) {
      var n :| n in Below(child) && Straddles(merged, n, x);
      assert n in Upto(t, i + 1);
    }
    if OnBoundary(merged, Upto(t, i), x) {
      var n :| n in Upto(t, i) && Straddles(merged, n, x);
      assert n in Upto(t, i + 1);
    }
  }

  /**
   Boundaries of a window given as raw ranges: exactly the off-window endpoints of the
   straddling named multi-line nodes below the root, in terms of the ranges as given.
   */
  method EnclosingBoundaries(root: Node, ranges: seq<Iv>) returns (out: set<int>)
    ensures forall x :: x in out <==> exists n :: n in Below(root) && StraddlesRaw(ranges, n, x)
  {
    var merged := NormalizeRanges(ranges);
    out := Collect(root, true, merged, {});
    forall n, x ensures Straddles(merged, n, x) <==> StraddlesRaw(ranges, n, x) {
    }
    forall x ensures x in out <==> exists n :: n in Below(root) && StraddlesRaw(ranges, n, x) {
      if x in out {
        var n :| n in Below(root) && Straddles(merged, n, x);
        assert StraddlesRaw(ranges, n, x);
      }
      if exists n :: n in Below(root) && StraddlesRaw(ranges, n, x) {
        var n :| n in Below(root) && StraddlesRaw(ranges, n, x);
        assert Straddles(merged, n, x);
      }
    }
  }

  /** Straddling stated on the caller's own ranges; unusable ones show nothing. */
  ghost predicate StraddlesRaw(ranges: seq<Iv>, n: Node, x: int) {
    && n.named && n.start < n.end
    && ((x == n.end && InWhere(ranges, Usable, n.start) && !InWhere(ranges, Usable, n.end)) ||
        (x == n.start && InWhere(ranges, Usable, n.end) && !InWhere(ranges, Usable, n.start)))
  }

  // ----- The climb -----

  /** Start rows never increase from a node to its ancestors. */
  ghost predicate StartsDescend(path: seq<Node>) {
    forall i, j :: 0 <= i < j < |path| ==> path[j].start <= path[i].start
  }

  /**
   Climbs a path of ancestors (leaf first, root last) while the parent is not the root and
   still begins on `row`; the result is the outermost such node below the root.
   */
  method Climb(path: seq<Node>, row: nat) returns (k: nat)
    requires path != [] && StartsDescend(path)
    requires path[0].start == row
    ensures k < |path| && path[k].start == row
    ensures k == 0 || k < |path| - 1
    ensures forall j :: k < j < |path| - 1 ==> path[j].start < row
  {
    k := 0;
    while k + 1 < |path|
      invariant k < |path| && path[k].start == row
      invariant k == 0 || k < |path| - 1
    {
      if k + 1 == |path| - 1 { return; }
      if path[k + 1].start != row { return; }
      k := k + 1;
    }
  }
}
