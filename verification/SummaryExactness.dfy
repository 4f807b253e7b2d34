/**
 When the unfolding counter is the number of lines the summary keeps: for every target and
 limit if and only if no two spans of one parent overlap.
 */
module SummaryExactness {
  import opened Wrappers
  import opened Sets
  import opened Intervals
  import opened SummaryForest
  import opened SummaryGeometry
  import opened Summary

  /** Lines no folded span covers. */
  ghost function Kept(a: Arena, folded: set<nat>, total: nat): int {
    if forall i :: i in folded ==> i < |a.nodes| then total - |Cover(a, folded)| else 0
  }

  ghost predicate Right(a: Arena, s: Fold, total: nat) {
    s.visible == Kept(a, s.folded, total)
  }

  /** However many turns it takes, the loop leaves with the right count. */
  ghost predicate CountsRight(a: Arena, start: Fold, total: nat, until: nat, limit: nat) {
    forall k :: StopsAfter(a.nodes, start, until, limit, k) ==> Right(a, Turns(a.nodes, start, Some(limit), k), total)
  }

  // ----- Turns without a limit -----

  ghost predicate FreeKeeps(a: Arena, s: Fold, shown: set<nat>)
    requires WellFormed(a)
  {
    Frontier(a, s.folded, shown) && Distinct(s.queue) && Listed(s.queue) == s.folded
  }

  lemma {:induction false} FreeStart(a: Arena, total: nat)
    requires WellFormed(a)
    ensures AllWithin(a.nodes, a.roots) && FreeKeeps(a, Start(a.nodes, a.roots, total), {})
  {
    StartKeeps(a, total, 0);
  }

  lemma {:induction false} FreeTurn(a: Arena, s: Fold, shown: set<nat>, next: Fold)
    requires WellFormed(a) && FreeKeeps(a, s, shown) && s.queue != [] && next == Turn(a.nodes, s, None)
    ensures s.queue[0] < |a.nodes| && WithinNodes(a.nodes, s.queue[0]) && s.queue[0] in s.folded && s.queue[0] !in shown
    ensures next == Fold(s.folded - {s.queue[0]} + Listed(a.nodes[s.queue[0]].children), s.visible + Gain(a.nodes, s.queue[0]),
                         s.queue[1..] + a.nodes[s.queue[0]].children)
    ensures FreeKeeps(a, next, shown + {s.queue[0]})
  {
    var idx := s.queue[0];
    assert idx in Listed(s.queue);
    OpenFrontier(a, s.folded, shown, idx);
    UnfoldQueue(a, s.folded, shown, s.queue);
    forall i ensures i in Listed(s.queue[1..]) <==> i in s.folded - {idx} {
      if i in s.folded - {idx} {
        var k :| 0 <= k < |s.queue| && s.queue[k] == i;
        assert s.queue[1..][k - 1] == i;
      }
    }
  }

  lemma {:induction false} VisibleGrows(nodes: seq<SpanNode>, start: Fold, limit: Option<nat>, j: nat, k: nat)
    requires j <= k
    ensures Turns(nodes, start, limit, j).visible <= Turns(nodes, start, limit, k).visible
    decreases k
  {
    if j < k { VisibleGrows(nodes, start, limit, j, k - 1); }
  }

  /** A limit no smaller than what is seen does not matter so far. */
  lemma {:induction false} LimitFree(nodes: seq<SpanNode>, start: Fold, limit: nat, k: nat)
    requires Turns(nodes, start, None, k).visible <= limit
    ensures Turns(nodes, start, Some(limit), k) == Turns(nodes, start, None, k)
    decreases k
  {
    if k > 0 {
      VisibleGrows(nodes, start, None, k - 1, k);
      LimitFree(nodes, start, limit, k - 1);
      SameTurn(nodes, Turns(nodes, start, None, k - 1), limit);
    }
  }

  lemma {:induction false} SameTurn(nodes: seq<SpanNode>, s: Fold, limit: nat)
    requires Turn(nodes, s, None).visible <= limit
    ensures Turn(nodes, s, Some(limit)) == Turn(nodes, s, None)
  {
  }

  // ----- A first wrong count is met by some target and limit -----

  /** Children cover no more than their parent. */
  lemma {:induction false} OpenShrinks(a: Arena, folded: set<nat>, i: nat, total: nat)
    requires Placed(a, total) && i in folded && forall j :: j in folded ==> j < |a.nodes|
    ensures forall c :: c in Listed(a.nodes[i].children) ==> c < |a.nodes|
    ensures Kept(a, folded - {i} + Listed(a.nodes[i].children), total) >= Kept(a, folded, total)
  {
    var less := folded - {i} + Listed(a.nodes[i].children);
    forall x | x in Cover(a, less) ensures x in Cover(a, folded) {
      var j :| j in less && x in Range(a.nodes[j].span.s, a.nodes[j].span.e);
      if j !in folded {
        assert a.parent[j] == Some(i) && Inside(a.nodes[j].span, a.nodes[i].span);
        assert x in Range(a.nodes[i].span.s, a.nodes[i].span.e);
      }
    }
    SubsetSize(Cover(a, less), Cover(a, folded));
  }

  /** Once the counter has reached the limit it stays, and no more is covered than before. */
  lemma {:induction false} StuckAtLimit(a: Arena, total: nat, limit: nat, start: Fold, j: nat, k: nat, shown: set<nat>)
    requires Placed(a, total) && j <= k && Keeps(a, Turns(a.nodes, start, Some(limit), j), shown, limit, total)
    requires Turns(a.nodes, start, Some(limit), j).visible == limit
    ensures var s, end := Turns(a.nodes, start, Some(limit), j), Turns(a.nodes, start, Some(limit), k);
            end.visible == limit && Kept(a, end.folded, total) >= Kept(a, s.folded, total)
    decreases k - j
  {
    if j < k {
      var s, next := Turns(a.nodes, start, Some(limit), j), Turns(a.nodes, start, Some(limit), j + 1);
      var more := OneTurn(a, total, limit, s, shown, next);
      StuckTurn(a, total, limit, s, shown, next);
      StuckAtLimit(a, total, limit, start, j + 1, k, more);
    }
  }

  lemma {:induction false} StuckTurn(a: Arena, total: nat, limit: nat, s: Fold, shown: set<nat>, next: Fold)
    requires Placed(a, total) && Keeps(a, s, shown, limit, total) && next == Turn(a.nodes, s, Some(limit)) && s.visible == limit
    ensures next.visible == limit && Kept(a, next.folded, total) >= Kept(a, s.folded, total)
  {
    if s.queue != [] && s.visible + Gain(a.nodes, s.queue[0]) <= limit {
      OpenShrinks(a, s.folded, s.queue[0], total);
    }
  }

  lemma {:induction false} FirstEmpty(nodes: seq<SpanNode>, start: Fold, limit: nat, last: nat) returns (k: nat)
    requires Turns(nodes, start, Some(limit), last).queue == []
    ensures k <= last && Turns(nodes, start, Some(limit), k).queue == []
    ensures forall j :: 0 <= j < k ==> Turns(nodes, start, Some(limit), j).queue != []
    decreases last
  {
    if last > 0 && Turns(nodes, start, Some(limit), last - 1).queue == [] {
      k := FirstEmpty(nodes, start, limit, last - 1);
    } else {
      k := last;
      forall j | 0 <= j < last ensures Turns(nodes, start, Some(limit), j).queue != [] {
        if Turns(nodes, start, Some(limit), j).queue == [] { StaysEmpty(nodes, start, Some(limit), j, last - 1); }
      }
    }
  }

  /** A target beyond the limit is never reached; only the empty queue stops the loop. */
  lemma {:induction false} StopsWhenEmpty(nodes: seq<SpanNode>, start: Fold, limit: nat, end: nat)
    requires Turns(nodes, start, Some(limit), end).queue == [] && Turns(nodes, start, Some(limit), end).visible <= limit
    requires forall j :: 0 <= j < end ==> Turns(nodes, start, Some(limit), j).queue != []
    ensures StopsAfter(nodes, start, limit + 1, limit, end)
  {
    forall j | 0 <= j < end ensures !Stopped(Turns(nodes, start, Some(limit), j), limit + 1) {
      VisibleGrows(nodes, start, Some(limit), j, end);
    }
  }

  /** From a count at the limit on, the loop ends with that count. */
  lemma {:induction false} EndsStuck(a: Arena, total: nat, limit: nat, start: Fold, k: nat) returns (end: nat)
    requires Placed(a, total) && Keeps(a, start, {}, limit, total) && Turns(a.nodes, start, Some(limit), k).visible == limit
    ensures StopsAfter(a.nodes, start, limit + 1, limit, end)
    ensures Turns(a.nodes, start, Some(limit), end).visible == limit
    ensures Kept(a, Turns(a.nodes, start, Some(limit), end).folded, total) >= Kept(a, Turns(a.nodes, start, Some(limit), k).folded, total)
  {
    var shown := TurnsUnfold(a, total, limit, start, 0, {}, k);
    var last := TurnsEnd(a, total, limit, start, k, shown);
    end := FirstEmpty(a.nodes, start, limit, last);
    if end <= k {
      StaysEmpty(a.nodes, start, Some(limit), end, k);
    } else {
      StuckAtLimit(a, total, limit, start, k, end, shown);
    }
    StopsWhenEmpty(a.nodes, start, limit, end);
  }

  /** A count below what is kept stays so when the limit is that count and the target is beyond it. */
  lemma {:induction false} TooLowIsMet(a: Arena, total: nat, start: Fold, limit: nat, k: nat)
    requires Placed(a, total) && Keeps(a, start, {}, limit, total) && Turns(a.nodes, start, None, k).visible == limit
    requires limit < Kept(a, Turns(a.nodes, start, None, k).folded, total)
    ensures !CountsRight(a, start, total, limit + 1, limit)
  {
    LimitFree(a.nodes, start, limit, k);
    var end := EndsStuck(a, total, limit, start, k);
    NotRight(a, start, total, limit + 1, limit, end);
  }

  lemma {:induction false} NotRight(a: Arena, start: Fold, total: nat, until: nat, limit: nat, k: nat)
    requires StopsAfter(a.nodes, start, until, limit, k) && !Right(a, Turns(a.nodes, start, Some(limit), k), total)
    ensures !CountsRight(a, start, total, until, limit)
  {
  }

  /** A count reached by a turn that reveals something is met when it is both target and limit. */
  lemma {:induction false} ReachedIsMet(a: Arena, total: nat, k: nat)
    requires WellFormed(a) && k > 0
    requires var start := Start(a.nodes, a.roots, total);
             Turns(a.nodes, start, None, k - 1).visible < Turns(a.nodes, start, None, k).visible
    ensures var start := Start(a.nodes, a.roots, total);
            var s := Turns(a.nodes, start, None, k);
            StopsAfter(a.nodes, start, s.visible, s.visible, k) && Turns(a.nodes, start, Some(s.visible), k) == s
  {
    var start := Start(a.nodes, a.roots, total);
    var limit := Turns(a.nodes, start, None, k).visible;
    LimitFree(a.nodes, start, limit, k);
    forall j | 0 <= j < k ensures !Stopped(Turns(a.nodes, start, Some(limit), j), limit) {
      VisibleGrows(a.nodes, start, None, j, k - 1);
      LimitFree(a.nodes, start, limit, j);
      if Turns(a.nodes, start, None, j).queue == [] {
        StaysEmpty(a.nodes, start, None, j, k - 1);
        StaysEmpty(a.nodes, start, None, j, k);
      }
    }
  }

  ghost predicate AlwaysRight(a: Arena, total: nat)
    requires WellFormed(a)
  {
    forall until: nat, limit: nat :: until > 0 ==> CountsRight(a, Start(a.nodes, a.roots, total), total, until, limit)
  }

  lemma {:induction false} FreeState(a: Arena, total: nat, j: nat, shown: set<nat>, k: nat) returns (more: set<nat>)
    requires WellFormed(a) && j <= k && FreeKeeps(a, Turns(a.nodes, Start(a.nodes, a.roots, total), None, j), shown)
    ensures FreeKeeps(a, Turns(a.nodes, Start(a.nodes, a.roots, total), None, k), more)
    decreases k - j
  {
    var start := Start(a.nodes, a.roots, total);
    var s := Turns(a.nodes, start, None, j);
    if j == k {
      more := shown;
    } else if s.queue == [] {
      StaysEmpty(a.nodes, start, None, j, k);
      more := shown;
    } else {
      FreeTurn(a, s, shown, Turns(a.nodes, start, None, j + 1));
      more := FreeState(a, total, j + 1, shown + {s.queue[0]}, k);
    }
  }

  lemma {:induction false} NotTooLow(a: Arena, total: nat, k: nat)
    requires Placed(a, total) && AlwaysRight(a, total)
    ensures var s := Turns(a.nodes, Start(a.nodes, a.roots, total), None, k); s.visible >= Kept(a, s.folded, total)
  {
    var start := Start(a.nodes, a.roots, total);
    var s := Turns(a.nodes, start, None, k);
    if s.visible < Kept(a, s.folded, total) {
      StartKeeps(a, total, s.visible);
      TooLowIsMet(a, total, start, s.visible, k);
      assert false;
    }
  }

  /** A turn from a right count: what it reveals is met, and what it does not reveal is not covered any less. */
  lemma {:induction false} NotTooHigh(a: Arena, total: nat, k: nat)
    requires Placed(a, total) && AlwaysRight(a, total) && k > 0
    requires Right(a, Turns(a.nodes, Start(a.nodes, a.roots, total), None, k - 1), total)
    ensures var s := Turns(a.nodes, Start(a.nodes, a.roots, total), None, k); s.visible <= Kept(a, s.folded, total)
  {
    var start := Start(a.nodes, a.roots, total);
    var before, s := Turns(a.nodes, start, None, k - 1), Turns(a.nodes, start, None, k);
    if before.queue != [] {
      FreeStart(a, total);
      var shown := FreeState(a, total, 0, {}, k - 1);
      FreeTurn(a, before, shown, s);
      if before.visible < s.visible {
        ReachedIsMet(a, total, k);
        assert CountsRight(a, start, total, s.visible, s.visible);
      } else {
        OpenShrinks(a, before.folded, before.queue[0], total);
      }
    }
  }

  /** If every target and limit gets the right count, no turn without a limit miscounts. */
  lemma {:induction false} FreeRight(a: Arena, total: nat, k: nat)
    requires Placed(a, total) && AlwaysRight(a, total)
    ensures Right(a, Turns(a.nodes, Start(a.nodes, a.roots, total), None, k), total)
    decreases k
  {
    NotTooLow(a, total, k);
    if k == 0 {
      StartNotTooHigh(a, total);
    } else {
      FreeRight(a, total, k - 1);
      NotTooHigh(a, total, k);
    }
  }

  // ----- Right counts all along leave no two siblings overlapping -----

  lemma {:induction false} LinesAtMost(l: seq<Iv>)
    requires Valid(l)
    ensures |Lines(l)| <= Size(l)
    decreases |l|
  {
    if l != [] {
      LinesAtMost(l[..|l| - 1]);
      RangeSize(l[|l| - 1].s, l[|l| - 1].e);
      UnionSize(Lines(l[..|l| - 1]), Range(l[|l| - 1].s, l[|l| - 1].e));
    }
  }

  lemma {:induction false} UnionSize(a: set<int>, b: set<int>)
    ensures |a + b| <= |a| + |b|
    ensures |a + b| == |a| + |b| ==> a !! b
  {
    assert |a + b| == |a| + |b - a|;
    assert b == (b - a) + (a * b);
  }

  /** Where every line is counted once, intervals do not overlap. */
  lemma {:induction false} CountedOnce(l: seq<Iv>)
    requires Valid(l) && |Lines(l)| == Size(l)
    ensures PairwiseDisjoint(l)
    decreases |l|
  {
    if l != [] {
      var init, last := l[..|l| - 1], l[|l| - 1];
      LinesAtMost(init);
      RangeSize(last.s, last.e);
      UnionSize(Lines(init), Range(last.s, last.e));
      CountedOnce(init);
      assert l == init + [last];
      Unshared(init, last);
    }
  }

  lemma {:induction false} Unshared(l: seq<Iv>, last: Iv)
    requires Valid(l) && PairwiseDisjoint(l) && last.s <= last.e && Lines(l) !! Range(last.s, last.e)
    ensures PairwiseDisjoint(l + [last])
  {
    LinesAreIn(l);
    forall i | 0 <= i < |l| ensures l[i].e < last.s || last.e < l[i].s {
      if l[i].s <= last.e && last.s <= l[i].e { assert In(l, Max(l[i].s, last.s)); }
    }
  }

  lemma {:induction false} SizeJoin(l: seq<Iv>, m: seq<Iv>)
    ensures Size(l + m) == Size(l) + Size(m)
    decreases |m|
  {
    if m == [] {
      assert l + m == l;
    } else {
      assert (l + m)[..|l + m| - 1] == l + m[..|m| - 1];
      SizeJoin(l, m[..|m| - 1]);
    }
  }

  /** What has been counted and what is still folded. */
  ghost function Potential(a: Arena, s: Fold): int
    requires forall k :: 0 <= k < |s.queue| ==> s.queue[k] < |a.nodes|
  {
    s.visible + Size(Spans(a.nodes, s.queue))
  }

  lemma {:induction false} PotentialTurn(a: Arena, s: Fold, shown: set<nat>, next: Fold)
    requires WellFormed(a) && FreeKeeps(a, s, shown) && s.queue != [] && next == Turn(a.nodes, s, None)
    ensures AllWithin(a.nodes, s.queue) && AllWithin(a.nodes, next.queue)
    ensures Potential(a, s) <= Potential(a, next)
  {
    FreeTurn(a, s, shown, next);
    QueueWithin(a, s, shown);
    QueueWithin(a, next, shown + {s.queue[0]});
    QueueSizes(a.nodes, s.queue, a.nodes[s.queue[0]].children);
  }

  lemma {:induction false} QueueSizes(nodes: seq<SpanNode>, queue: seq<nat>, cs: seq<nat>)
    requires queue != [] && (forall k :: 0 <= k < |queue| ==> queue[k] < |nodes|) && forall k :: 0 <= k < |cs| ==> cs[k] < |nodes|
    ensures Size(Spans(nodes, queue[1..] + cs)) ==
            Size(Spans(nodes, queue)) - (nodes[queue[0]].span.e - nodes[queue[0]].span.s + 1) + Size(Spans(nodes, cs))
  {
    var first, rest := nodes[queue[0]].span, Spans(nodes, queue[1..]);
    assert Spans(nodes, queue) == [first] + rest;
    assert Spans(nodes, queue[1..] + cs) == rest + Spans(nodes, cs);
    SizeJoin([first], rest);
    SizeJoin(rest, Spans(nodes, cs));
    OneSize(first);
  }

  lemma {:induction false} OneSize(iv: Iv)
    ensures Size([iv]) == iv.e - iv.s + 1
  {
    assert [iv][..0] == [];
  }

  lemma {:induction false} QueueWithin(a: Arena, s: Fold, shown: set<nat>)
    requires WellFormed(a) && FreeKeeps(a, s, shown)
    ensures AllWithin(a.nodes, s.queue)
  {
    forall k | 0 <= k < |s.queue| ensures s.queue[k] < |a.nodes| {
      assert s.queue[k] in Listed(s.queue);
    }
  }

  lemma {:induction false} StartNotTooHigh(a: Arena, total: nat)
    requires Placed(a, total)
    ensures var s := Start(a.nodes, a.roots, total);
            s.visible <= Kept(a, s.folded, total) && AllWithin(a.nodes, s.queue) && Potential(a, s) >= total
  {
    FreeStart(a, total);
    CoverInside(a, Listed(a.roots), total);
    SpansValid(a, a.roots);
    CoverAtMost(a, a.roots);
  }

  lemma {:induction false} CoverAtMost(a: Arena, idxs: seq<nat>)
    requires (forall k :: 0 <= k < |idxs| ==> idxs[k] < |a.nodes|) && Valid(Spans(a.nodes, idxs))
    ensures |Cover(a, Listed(idxs))| <= Size(Spans(a.nodes, idxs))
  {
    CoverOfSeq(a, idxs, Listed(idxs));
    LinesAtMost(Spans(a.nodes, idxs));
  }

  lemma {:induction false} SpansValid(a: Arena, idxs: seq<nat>)
    requires WellFormed(a) && forall k :: 0 <= k < |idxs| ==> idxs[k] < |a.nodes|
    ensures Valid(Spans(a.nodes, idxs))
  {
  }

  /** The turns end with everything unfolded, and the potential never falls on the way. */
  lemma {:induction false} FreeEnd(a: Arena, total: nat, k: nat, shown: set<nat>) returns (last: nat)
    requires WellFormed(a)
    requires FreeKeeps(a, Turns(a.nodes, Start(a.nodes, a.roots, total), None, k), shown)
    ensures var start := Start(a.nodes, a.roots, total);
            var s, end := Turns(a.nodes, start, None, k), Turns(a.nodes, start, None, last);
            last >= k && end.queue == [] && end.folded == {} && AllWithin(a.nodes, s.queue) && Potential(a, s) <= end.visible
    decreases Indices(|a.nodes|) - shown
  {
    var start := Start(a.nodes, a.roots, total);
    var s := Turns(a.nodes, start, None, k);
    QueueWithin(a, s, shown);
    if s.queue == [] {
      last := k;
    } else {
      var next := Turns(a.nodes, start, None, k + 1);
      PotentialTurn(a, s, shown, next);
      FreeTurn(a, s, shown, next);
      assert s.queue[0] in Indices(|a.nodes|) - shown;
      last := FreeEnd(a, total, k + 1, shown + {s.queue[0]});
    }
  }

  lemma {:induction false} PotentialGrows(a: Arena, total: nat, j: nat, shown: set<nat>, k: nat) returns (more: set<nat>)
    requires WellFormed(a) && j <= k
    requires var s := Turns(a.nodes, Start(a.nodes, a.roots, total), None, j);
             FreeKeeps(a, s, shown) && AllWithin(a.nodes, s.queue) && Potential(a, s) >= total
    ensures var s := Turns(a.nodes, Start(a.nodes, a.roots, total), None, k);
            FreeKeeps(a, s, more) && AllWithin(a.nodes, s.queue) && Potential(a, s) >= total
    decreases k - j
  {
    var start := Start(a.nodes, a.roots, total);
    var s := Turns(a.nodes, start, None, j);
    if j == k {
      more := shown;
    } else if s.queue == [] {
      StaysEmpty(a.nodes, start, None, j, k);
      more := shown;
    } else {
      var next := Turns(a.nodes, start, None, j + 1);
      PotentialTurn(a, s, shown, next);
      FreeTurn(a, s, shown, next);
      more := PotentialGrows(a, total, j + 1, shown + {s.queue[0]}, k);
    }
  }

  /** With right counts the spans in the queue never overlap. */
  lemma {:induction false} QueueDisjoint(a: Arena, total: nat, k: nat)
    requires Placed(a, total) && AlwaysRight(a, total)
    ensures var s := Turns(a.nodes, Start(a.nodes, a.roots, total), None, k);
            AllWithin(a.nodes, s.queue) && PairwiseDisjoint(Spans(a.nodes, s.queue))
  {
    var start := Start(a.nodes, a.roots, total);
    var s := Turns(a.nodes, start, None, k);
    FreeStart(a, total);
    StartNotTooHigh(a, total);
    var shown := PotentialGrows(a, total, 0, {}, k);
    var last := FreeEnd(a, total, k, shown);
    FreeRight(a, total, k);
    FreeRight(a, total, last);
    assert Cover(a, {}) == {};
    CoverOfSeq(a, s.queue, s.folded);
    SpansValid(a, s.queue);
    CountedOnce(Spans(a.nodes, s.queue));
  }

  /** Nodes whose parent is unfolded, roots included, do not overlap their siblings. */
  ghost predicate ShownApart(a: Arena, shown: set<nat>)
    requires Sized(a)
  {
    forall i, j :: 0 <= i < j < |a.nodes| && a.parent[i] == a.parent[j] && (a.parent[i].Some? ==> a.parent[i].value in shown) ==>
      Apart(a.nodes[i].span, a.nodes[j].span, 0)
  }

  lemma {:induction false} QueuedApart(a: Arena, queue: seq<nat>, i: nat, j: nat)
    requires AllWithin(a.nodes, queue) && PairwiseDisjoint(Spans(a.nodes, queue)) && i in queue && j in queue && i != j
    ensures Apart(a.nodes[i].span, a.nodes[j].span, 0)
  {
    var k, l :| 0 <= k < |queue| && 0 <= l < |queue| && queue[k] == i && queue[l] == j;
    assert Spans(a.nodes, queue)[k] == a.nodes[i].span && Spans(a.nodes, queue)[l] == a.nodes[j].span;
  }

  lemma {:induction false} RootsApartFirst(a: Arena, total: nat)
    requires Placed(a, total) && AlwaysRight(a, total)
    ensures ShownApart(a, {})
  {
    QueueDisjoint(a, total, 0);
    forall i, j | 0 <= i < j < |a.nodes| && a.parent[i] == None && a.parent[j] == None
      ensures Apart(a.nodes[i].span, a.nodes[j].span, 0)
    {
      QueuedApart(a, a.roots, i, j);
    }
  }

  lemma {:induction false} ShownMore(a: Arena, queue: seq<nat>, shown: set<nat>, idx: nat)
    requires WellFormed(a) && ShownApart(a, shown)
    requires AllWithin(a.nodes, queue) && PairwiseDisjoint(Spans(a.nodes, queue))
    requires idx < |a.nodes| && forall c :: c in a.nodes[idx].children ==> c in queue
    ensures ShownApart(a, shown + {idx})
  {
    forall i, j | 0 <= i < j < |a.nodes| && a.parent[i] == a.parent[j] == Some(idx)
      ensures Apart(a.nodes[i].span, a.nodes[j].span, 0)
    {
      assert i in a.nodes[idx].children && j in a.nodes[idx].children;
      QueuedApart(a, queue, i, j);
    }
  }

  lemma {:induction false} ShownStaysApart(a: Arena, total: nat, k: nat, shown: set<nat>, idx: nat)
    requires Placed(a, total) && AlwaysRight(a, total) && ShownApart(a, shown)
    requires var s := Turns(a.nodes, Start(a.nodes, a.roots, total), None, k + 1);
             idx < |a.nodes| && forall c :: c in a.nodes[idx].children ==> c in s.queue
    ensures ShownApart(a, shown + {idx})
  {
    QueueDisjoint(a, total, k + 1);
    ShownMore(a, Turns(a.nodes, Start(a.nodes, a.roots, total), None, k + 1).queue, shown, idx);
  }

  lemma {:induction false} WalkApart(a: Arena, total: nat, k: nat, shown: set<nat>)
    requires Placed(a, total) && AlwaysRight(a, total) && ShownApart(a, shown)
    requires FreeKeeps(a, Turns(a.nodes, Start(a.nodes, a.roots, total), None, k), shown)
    ensures Spaced(a, 0)
    decreases Indices(|a.nodes|) - shown
  {
    var start := Start(a.nodes, a.roots, total);
    var s := Turns(a.nodes, start, None, k);
    if s.queue == [] {
      forall y | 0 <= y < |a.nodes| ensures y in shown {
        EverySpanAccounted(a, s.folded, shown, y);
      }
    } else {
      FreeTurn(a, s, shown, Turns(a.nodes, start, None, k + 1));
      ShownStaysApart(a, total, k, shown, s.queue[0]);
      assert s.queue[0] in Indices(|a.nodes|) - shown;
      WalkApart(a, total, k + 1, shown + {s.queue[0]});
    }
  }

  /** The counter is always right if and only if no two spans of one parent overlap. */
  lemma {:induction false} RightIffSpaced(a: Arena, total: nat)
    requires Placed(a, total)
    ensures AlwaysRight(a, total) <==> Spaced(a, 0)
  {
    if AlwaysRight(a, total) {
      RootsApartFirst(a, total);
      FreeStart(a, total);
      WalkApart(a, total, 0, {});
    }
    if Spaced(a, 0) {
      forall until: nat, limit: nat | until > 0
        ensures CountsRight(a, Start(a.nodes, a.roots, total), total, until, limit)
      {
        SpacedCountsRight(a, total, until, limit);
      }
    }
  }

  lemma {:induction false} SpacedCountsRight(a: Arena, total: nat, until: nat, limit: nat)
    requires Exact(a, total)
    ensures CountsRight(a, Start(a.nodes, a.roots, total), total, until, limit)
  {
    var start := Start(a.nodes, a.roots, total);
    StartKeeps(a, total, limit);
    forall k | StopsAfter(a.nodes, start, until, limit, k) ensures Right(a, Turns(a.nodes, start, Some(limit), k), total) {
      var shown := StoppedMeans(a, total, until, limit, start, k);
    }
  }
}
