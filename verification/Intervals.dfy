/**
 Unions of inclusive line intervals. Four independent implementations keep such a union; all
 of them produce its one canonical list, and each membership test equals point inclusion.
 */
module Intervals {
  import opened Sorting

  datatype Iv = Iv(s: int, e: int)

  /** The line `x` lies in some interval of the list. */
  ghost predicate In(l: seq<Iv>, x: int) {
    exists i :: 0 <= i < |l| && l[i].s <= x <= l[i].e
  }

  ghost predicate Valid(l: seq<Iv>) {
    forall i :: 0 <= i < |l| ==> l[i].s <= l[i].e
  }

  /** Sorted, disjoint, and no two intervals adjacent. */
  ghost predicate Canonical(l: seq<Iv>) {
    Valid(l) && forall i, j :: 0 <= i < j < |l| ==> l[i].e + 1 < l[j].s
  }

  ghost predicate SamePoints(a: seq<Iv>, b: seq<Iv>) {
    forall x :: In(a, x) <==> In(b, x)
  }

  /** The lists differ only by the added interval's points. */
  ghost predicate Adds(out: seq<Iv>, l: seq<Iv>, it: Iv) {
    forall x :: In(out, x) <==> In(l, x) || it.s <= x <= it.e
  }

  function Min(a: int, b: int): int { if a < b then a else b }

  function Max(a: int, b: int): int { if a < b then b else a }

  // ----- One normal form -----

  lemma {:induction false} InHeadTail(l: seq<Iv>, x: int)
    requires l != []
    ensures In(l, x) <==> l[0].s <= x <= l[0].e || In(l[1..], x)
  {
    if In(l, x) && !(l[0].s <= x <= l[0].e) {
      var i :| 0 <= i < |l| && l[i].s <= x <= l[i].e;
      assert l[1..][i - 1] == l[i];
    }
    if In(l[1..], x) {
      var i :| 0 <= i < |l[1..]| && l[1..][i].s <= x <= l[1..][i].e;
      assert l[i + 1] == l[1..][i];
    }
  }

  lemma {:induction false} InAppend(l: seq<Iv>, it: Iv, x: int)
    ensures In(l + [it], x) <==> In(l, x) || it.s <= x <= it.e
  {
    if In(l, x) {
      var i :| 0 <= i < |l| && l[i].s <= x <= l[i].e;
      assert (l + [it])[i] == l[i];
    }
    assert (l + [it])[|l|] == it;
  }

  lemma {:induction false} InOne(it: Iv, x: int)
    ensures In([it], x) <==> it.s <= x <= it.e
  {
    assert [it][0] == it;
  }

  lemma {:induction false} InPermuted(a: seq<Iv>, b: seq<Iv>, x: int)
    requires multiset(a) == multiset(b)
    ensures In(a, x) <==> In(b, x)
  {
    if In(a, x) {
      var i :| 0 <= i < |a| && a[i].s <= x <= a[i].e;
      assert a[i] in multiset(b) && a[i] in b;
    }
    if In(b, x) {
      var i :| 0 <= i < |b| && b[i].s <= x <= b[i].e;
      assert b[i] in multiset(a) && b[i] in a;
    }
  }

  lemma {:induction false} GapAfterFirst(l: seq<Iv>)
    requires Canonical(l) && l != []
    ensures !In(l, l[0].e + 1)
  {
  }

  lemma {:induction false} FirstInterval(a: seq<Iv>, b: seq<Iv>)
    requires Canonical(a) && Canonical(b) && SamePoints(a, b) && a != []
    ensures b != [] && b[0].s <= a[0].s
    ensures b[0].s == a[0].s ==> a[0].e <= b[0].e
  {
    assert In(a, a[0].s) && In(b, a[0].s);
    if b[0].s == a[0].s && b[0].e < a[0].e {
      assert In(a, b[0].e + 1);
      GapAfterFirst(b);
    }
  }

  /** Canonical lists with the same points are equal. */
  lemma {:induction false} CanonicalUnique(a: seq<Iv>, b: seq<Iv>)
    requires Canonical(a) && Canonical(b) && SamePoints(a, b)
    ensures a == b
    decreases |a|
  {
    if a == [] {
      if b != [] { FirstInterval(b, a); }
    } else {
      FirstInterval(a, b);
      FirstInterval(b, a);
      forall x ensures In(a[1..], x) <==> In(b[1..], x) {
        InHeadTail(a, x);
        InHeadTail(b, x);
        if a[0].s <= x <= a[0].e {
          assert !In(a[1..], x) && !In(b[1..], x);
        }
      }
      CanonicalUnique(a[1..], b[1..]);
    }
  }

  // ----- Batch merging -----

  function ByStart(): (Iv, Iv) -> bool {
    (a: Iv, b: Iv) => a.s < b.s || (a.s == b.s && a.e <= b.e)
  }

  function MergeStep(out: seq<Iv>, iv: Iv): seq<Iv> {
    if out != [] && iv.s <= out[|out| - 1].e + 1 then
      var last := out[|out| - 1];
      out[..|out| - 1] + [Iv(last.s, Max(last.e, iv.e))]
    else out + [iv]
  }

  lemma {:induction false} MergeStepAdds(out: seq<Iv>, iv: Iv)
    requires Canonical(out) && iv.s <= iv.e
    requires out != [] ==> out[|out| - 1].s <= iv.s
    ensures Canonical(MergeStep(out, iv)) && Adds(MergeStep(out, iv), out, iv)
    ensures MergeStep(out, iv)[|MergeStep(out, iv)| - 1].s <= iv.s
  {
    forall x ensures In(MergeStep(out, iv), x) <==> In(out, x) || iv.s <= x <= iv.e {
      if out != [] && iv.s <= out[|out| - 1].e + 1 {
        var init, last := out[..|out| - 1], out[|out| - 1];
        assert out == init + [last];
        InAppend(init, last, x);
        InAppend(init, Iv(last.s, Max(last.e, iv.e)), x);
      } else {
        InAppend(out, iv, x);
      }
    }
  }

  /** The pass over a list, as a fold. */
  function MergeAll(ivs: seq<Iv>): seq<Iv> {
    if ivs == [] then [] else MergeStep(MergeAll(ivs[..|ivs| - 1]), ivs[|ivs| - 1])
  }

  lemma {:induction false} SortedInit(ivs: seq<Iv>)
    requires Valid(ivs) && Sorted(ivs, ByStart()) && ivs != []
    ensures Valid(ivs[..|ivs| - 1]) && Sorted(ivs[..|ivs| - 1], ByStart())
    ensures |ivs| > 1 ==> ivs[|ivs| - 2].s <= ivs[|ivs| - 1].s
  {
    assert |ivs| > 1 ==> ByStart()(ivs[|ivs| - 2], ivs[|ivs| - 1]);
  }

  lemma {:induction false} MergeAllCanonical(ivs: seq<Iv>)
    requires Valid(ivs) && Sorted(ivs, ByStart())
    ensures Canonical(MergeAll(ivs))
    ensures if ivs == [] then MergeAll(ivs) == [] else MergeAll(ivs) != [] && MergeAll(ivs)[|MergeAll(ivs)| - 1].s <= ivs[|ivs| - 1].s
    decreases |ivs|
  {
    if ivs != [] {
      SortedInit(ivs);
      MergeAllCanonical(ivs[..|ivs| - 1]);
      MergeStepAdds(MergeAll(ivs[..|ivs| - 1]), ivs[|ivs| - 1]);
    }
  }

  lemma {:induction false} MergeStepPoint(out: seq<Iv>, iv: Iv, x: int)
    requires Canonical(out) && iv.s <= iv.e && (out != [] ==> out[|out| - 1].s <= iv.s)
    ensures In(MergeStep(out, iv), x) <==> In(out, x) || iv.s <= x <= iv.e
  {
    MergeStepAdds(out, iv);
  }

  lemma {:induction false} InLast(l: seq<Iv>, x: int)
    requires l != []
    ensures In(l, x) <==> In(l[..|l| - 1], x) || l[|l| - 1].s <= x <= l[|l| - 1].e
  {
    InAppend(l[..|l| - 1], l[|l| - 1], x);
    assert l == l[..|l| - 1] + [l[|l| - 1]];
  }

  lemma {:induction false} MergeAllPoints(ivs: seq<Iv>, x: int)
    requires Valid(ivs) && Sorted(ivs, ByStart())
    ensures In(MergeAll(ivs), x) <==> In(ivs, x)
    decreases |ivs|
  {
    if ivs != [] {
      var init, iv := ivs[..|ivs| - 1], ivs[|ivs| - 1];
      SortedInit(ivs);
      MergeAllCanonical(init);
      MergeAllPoints(init, x);
      MergeStepPoint(MergeAll(init), iv, x);
      InLast(ivs, x);
    }
  }

  lemma {:induction false} MergeAllNext(ivs: seq<Iv>, i: nat)
    requires i < |ivs|
    ensures MergeAll(ivs[..i + 1]) == MergeStep(MergeAll(ivs[..i]), ivs[i])
  {
    assert ivs[..i + 1][..i] == ivs[..i];
  }

  /** The merging pass over a sorted list: extend the last interval or push a new one. */
  method MergeSorted(ivs: seq<Iv>) returns (out: seq<Iv>)
    requires Valid(ivs) && Sorted(ivs, ByStart())
    ensures Canonical(out) && SamePoints(out, ivs)
  {
    out := [];
    var i := 0;
    while i < |ivs|
      invariant 0 <= i <= |ivs| && out == MergeAll(ivs[..i])
    {
      var iv := ivs[i];
      MergeAllNext(ivs, i);
      if out != [] && iv.s <= out[|out| - 1].e + 1 {
        out := out[..|out| - 1] + [Iv(out[|out| - 1].s, Max(out[|out| - 1].e, iv.e))];
      } else {
        out := out + [iv];
      }
      i := i + 1;
    }
    assert ivs[..i] == ivs;
    MergeAllCanonical(ivs);
    forall x ensures In(out, x) <==> In(ivs, x) { MergeAllPoints(ivs, x); }
  }

  lemma {:induction false} ByStartIsOrder()
    ensures TotalPreorder(ByStart())
  {
  }

  lemma {:induction false} SortedPoints(ivs: seq<Iv>)
    requires Valid(ivs)
    ensures var sorted := Sort(ivs, ByStart()); Valid(sorted) && Sorted(sorted, ByStart()) && SamePoints(sorted, ivs)
  {
    var sorted := Sort(ivs, ByStart());
    ByStartIsOrder();
    SortSorted(ivs, ByStart());
    forall i | 0 <= i < |sorted| ensures sorted[i].s <= sorted[i].e {
      assert sorted[i] in multiset(ivs) && sorted[i] in ivs;
    }
    forall x ensures In(sorted, x) <==> In(ivs, x) { InPermuted(sorted, ivs, x); }
  }

  /** Batch union of the read-config optimiser. */
  method Merge(ivs: seq<Iv>) returns (out: seq<Iv>)
    requires Valid(ivs)
    ensures Canonical(out) && SamePoints(out, ivs)
  {
    SortedPoints(ivs);
    out := MergeSorted(Sort(ivs, ByStart()));
  }

  /** Ranges the block resolver accepts. */
  predicate Usable(r: Iv) {
    r.s > 0 && r.e >= r.s
  }

  function Keep(l: seq<Iv>, p: Iv -> bool): seq<Iv> {
    if l == [] then [] else Keep(l[..|l| - 1], p) + (if p(l[|l| - 1]) then [l[|l| - 1]] else [])
  }

  /** `x` lies in some interval of the list that satisfies `p`. */
  ghost predicate InWhere(l: seq<Iv>, p: Iv -> bool, x: int) {
    exists i :: 0 <= i < |l| && p(l[i]) && l[i].s <= x <= l[i].e
  }

  lemma {:induction false} InWhereAppend(l: seq<Iv>, it: Iv, p: Iv -> bool, x: int)
    ensures InWhere(l + [it], p, x) <==> InWhere(l, p, x) || (p(it) && it.s <= x <= it.e)
  {
    if InWhere(l, p, x) {
      var i :| 0 <= i < |l| && p(l[i]) && l[i].s <= x <= l[i].e;
      assert (l + [it])[i] == l[i];
    }
    assert (l + [it])[|l|] == it;
  }

  lemma {:induction false} KeepPoints(l: seq<Iv>, p: Iv -> bool, x: int)
    ensures In(Keep(l, p), x) <==> InWhere(l, p, x)
    ensures forall i :: 0 <= i < |Keep(l, p)| ==> p(Keep(l, p)[i])
    decreases |l|
  {
    if l != [] {
      var init, last := l[..|l| - 1], l[|l| - 1];
      assert l == init + [last];
      KeepPoints(init, p, x);
      InWhereAppend(init, last, p, x);
      if p(last) { InAppend(Keep(init, p), last, x); } else { assert Keep(l, p) == Keep(init, p); }
    }
  }

  /** The block resolver's normalisation: drop unusable ranges, then merge. */
  method NormalizeRanges(ranges: seq<Iv>) returns (out: seq<Iv>)
    ensures Canonical(out)
    ensures forall x :: In(out, x) <==> exists i :: 0 <= i < |ranges| && 1 <= ranges[i].s <= x <= ranges[i].e
  {
    var kept := Keep(ranges, Usable);
    KeepPoints(ranges, Usable, 0);
    SortedPoints(kept);
    out := MergeSorted(Sort(kept, ByStart()));
    forall x ensures In(out, x) <==> InWhere(ranges, Usable, x) {
      KeepPoints(ranges, Usable, x);
      assert In(out, x) <==> In(Sort(kept, ByStart()), x);
    }
  }

  /** The summariser's normalisation: drop spans past the end, clamp the rest, then merge. */
  method NormalizeSpans(spans: seq<Iv>, total: nat) returns (out: seq<Iv>)
    ensures Canonical(out)
    ensures forall x :: In(out, x) <==> x <= total && total > 0 && In(spans, x)
  {
    if total == 0 { return []; }
    var kept := Keep(spans, (r: Iv) => r.s <= r.e && r.s <= total);
    KeepPoints(spans, (r: Iv) => r.s <= r.e && r.s <= total, 0);
    var clamped := Clamp(kept, total);
    SortedPoints(clamped);
    out := MergeSorted(Sort(clamped, ByStart()));
    forall x ensures In(out, x) <==> x <= total && In(spans, x) {
      KeepPoints(spans, (r: Iv) => r.s <= r.e && r.s <= total, x);
      assert In(out, x) <==> In(Sort(clamped, ByStart()), x);
      ClampPoints(kept, total, x);
      if x <= total && In(spans, x) {
        var i :| 0 <= i < |spans| && spans[i].s <= x <= spans[i].e;
        assert spans[i].s <= spans[i].e && spans[i].s <= total;
      }
    }
  }

  function Clamp(l: seq<Iv>, total: nat): (r: seq<Iv>)
    ensures |r| == |l| && forall i :: 0 <= i < |l| ==> r[i] == Iv(l[i].s, Min(l[i].e, total))
  {
    if l == [] then [] else Clamp(l[..|l| - 1], total) + [Iv(l[|l| - 1].s, Min(l[|l| - 1].e, total))]
  }

  lemma {:induction false} ClampPoints(l: seq<Iv>, total: nat, x: int)
    ensures In(Clamp(l, total), x) <==> In(l, x) && x <= total
  {
    var c := Clamp(l, total);
    if In(c, x) {
      var i :| 0 <= i < |c| && c[i].s <= x <= c[i].e;
      assert l[i].s <= x <= l[i].e;
    }
    if In(l, x) && x <= total {
      var i :| 0 <= i < |l| && l[i].s <= x <= l[i].e;
      assert c[i].s <= x <= c[i].e;
    }
  }

  // ----- Incremental union -----

  /** The canonical list with one more interval. */
  function Add(l: seq<Iv>, it: Iv): seq<Iv>
    decreases |l|
  {
    if l == [] then [it]
    else if l[0].e + 1 < it.s then [l[0]] + Add(l[1..], it)
    else if it.e + 1 < l[0].s then [it] + l
    else Add(l[1..], Iv(Min(it.s, l[0].s), Max(it.e, l[0].e)))
  }

  lemma {:induction false} AddPoints(l: seq<Iv>, it: Iv, x: int)
    requires l != [] && it.s <= it.e && l[0].s <= l[0].e
    requires l[0].e + 1 < it.s ==> (In(Add(l[1..], it), x) <==> In(l[1..], x) || it.s <= x <= it.e)
    requires var grown := Iv(Min(it.s, l[0].s), Max(it.e, l[0].e));
             !(l[0].e + 1 < it.s) && !(it.e + 1 < l[0].s) ==>
               (In(Add(l[1..], grown), x) <==> In(l[1..], x) || grown.s <= x <= grown.e)
    ensures In(Add(l, it), x) <==> In(l, x) || it.s <= x <= it.e
  {
    InHeadTail(l, x);
    if l[0].e + 1 < it.s {
      InHeadTail([l[0]] + Add(l[1..], it), x);
    } else if it.e + 1 < l[0].s {
      InHeadTail([it] + l, x);
    }
  }

  lemma {:induction false} AddCanonical(l: seq<Iv>, it: Iv)
    requires Canonical(l) && it.s <= it.e
    ensures Canonical(Add(l, it))
    ensures Add(l, it) != [] && Add(l, it)[0].s == if l == [] then it.s else Min(it.s, l[0].s)
    decreases |l|
  {
    if l != [] {
      if l[0].e + 1 < it.s {
        AddCanonical(l[1..], it);
      } else if !(it.e + 1 < l[0].s) {
        AddCanonical(l[1..], Iv(Min(it.s, l[0].s), Max(it.e, l[0].e)));
      }
    }
  }

  lemma {:induction false} AddPoint(l: seq<Iv>, it: Iv, x: int)
    requires Valid(l) && it.s <= it.e
    ensures In(Add(l, it), x) <==> In(l, x) || it.s <= x <= it.e
    decreases |l|
  {
    if l == [] {
      InOne(it, x);
    } else {
      var grown := Iv(Min(it.s, l[0].s), Max(it.e, l[0].e));
      if l[0].e + 1 < it.s {
        AddPoint(l[1..], it, x);
      } else if !(it.e + 1 < l[0].s) {
        AddPoint(l[1..], grown, x);
      }
      AddPoints(l, it, x);
    }
  }

  lemma {:induction false} AddAdds(l: seq<Iv>, it: Iv)
    requires Canonical(l) && it.s <= it.e
    ensures Canonical(Add(l, it)) && Adds(Add(l, it), l, it)
  {
    AddCanonical(l, it);
    forall x ensures In(Add(l, it), x) <==> In(l, x) || it.s <= x <= it.e { AddPoint(l, it, x); }
  }

  /** What the pass has put out, and what it still has to: `it` is the item, grown, unless placed. */
  ghost predicate Passing(all: seq<Iv>, out: seq<Iv>, placed: bool, it: Iv, rest: seq<Iv>) {
    if placed then all == out + rest && (forall j :: 0 <= j < |rest| ==> it.e + 1 < rest[j].s)
    else all == out + Add(rest, it)
  }

  lemma {:induction false} PassFar(all: seq<Iv>, out: seq<Iv>, placed: bool, it: Iv, rest: seq<Iv>)
    requires Passing(all, out, placed, it, rest) && rest != [] && it.s <= it.e && rest[0].e + 1 < it.s && !placed
    ensures Passing(all, out + [rest[0]], placed, it, rest[1..])
  {
  }

  lemma {:induction false} PassPlaces(all: seq<Iv>, out: seq<Iv>, it: Iv, rest: seq<Iv>)
    requires Passing(all, out, false, it, rest) && rest != [] && Canonical(rest)
    requires !(rest[0].e + 1 < it.s) && it.e + 1 < rest[0].s
    ensures Passing(all, out + [it], true, it, rest)
  {
    assert out + ([it] + rest) == out + [it] + rest;
  }

  lemma {:induction false} PassCopies(all: seq<Iv>, out: seq<Iv>, it: Iv, rest: seq<Iv>)
    requires Passing(all, out, true, it, rest) && rest != []
    ensures Passing(all, out + [rest[0]], true, it, rest[1..])
  {
    assert rest == [rest[0]] + rest[1..];
  }

  lemma {:induction false} PassGrows(all: seq<Iv>, out: seq<Iv>, it: Iv, rest: seq<Iv>)
    requires Passing(all, out, false, it, rest) && rest != []
    requires !(rest[0].e + 1 < it.s) && !(it.e + 1 < rest[0].s)
    ensures Passing(all, out, false, Iv(Min(it.s, rest[0].s), Max(it.e, rest[0].e)), rest[1..])
  {
  }

  lemma {:induction false} PassEnds(all: seq<Iv>, out: seq<Iv>, placed: bool, it: Iv)
    requires Passing(all, out, placed, it, [])
    ensures all == if placed then out else out + [it]
  {
  }

  lemma {:induction false} CanonicalFrom(l: seq<Iv>, i: nat)
    requires Canonical(l) && i <= |l|
    ensures Canonical(l[i..])
  {
  }

  /** The optimiser's single pass over its coverage list. */
  method AddInterval(intervals: seq<Iv>, item: Iv) returns (out: seq<Iv>)
    requires Canonical(intervals) && item.s <= item.e
    ensures out == Add(intervals, item)
    ensures Canonical(out) && Adds(out, intervals, item)
  {
    AddAdds(intervals, item);
    ghost var all := Add(intervals, item);
    var s, e := item.s, item.e;
    var placed := false;
    out := [];
    var i := 0;
    assert intervals[0..] == intervals;
    while i < |intervals|
      invariant 0 <= i <= |intervals| && s <= e && Passing(all, out, placed, Iv(s, e), intervals[i..])
    {
      var iv := intervals[i];
      ghost var rest := intervals[i..];
      assert rest[0] == iv && rest[1..] == intervals[i + 1..];
      CanonicalFrom(intervals, i);
      if iv.e + 1 < s {
        PassFar(all, out, placed, Iv(s, e), rest);
        out := out + [iv];
      } else if e + 1 < iv.s {
        if !placed {
          PassPlaces(all, out, Iv(s, e), rest);
          out := out + [Iv(s, e)];
          placed := true;
        }
        PassCopies(all, out, Iv(s, e), rest);
        out := out + [iv];
      } else {
        PassGrows(all, out, Iv(s, e), rest);
        s, e := Min(s, iv.s), Max(e, iv.e);
      }
      i := i + 1;
    }
    assert intervals[i..] == [];
    PassEnds(all, out, placed, Iv(s, e));
    if !placed { out := out + [Iv(s, e)]; }
  }

  /** Adding the items of a list one by one. */
  function AddAll(l: seq<Iv>, items: seq<Iv>): seq<Iv> {
    if items == [] then l else Add(AddAll(l, items[..|items| - 1]), items[|items| - 1])
  }

  /** Incremental and batch union agree: one-by-one addition is the canonical list of the batch. */
  lemma {:induction false} IncrementalIsBatch(items: seq<Iv>)
    requires Valid(items)
    ensures Canonical(AddAll([], items)) && SamePoints(AddAll([], items), items)
    ensures forall out :: Canonical(out) && SamePoints(out, items) ==> out == AddAll([], items)
    decreases |items|
  {
    if items != [] {
      var init, last := items[..|items| - 1], items[|items| - 1];
      IncrementalIsBatch(init);
      AddAdds(AddAll([], init), last);
      assert items == init + [last];
      forall x ensures In(AddAll([], items), x) <==> In(items, x) { InAppend(init, last, x); }
    }
    forall out | Canonical(out) && SamePoints(out, items) ensures out == AddAll([], items) {
      CanonicalUnique(out, AddAll([], items));
    }
  }

  // ----- Single-interval tests -----

  /** One list member holds the whole of `[s, e]`. */
  ghost predicate Holds(l: seq<Iv>, s: int, e: int) {
    exists i :: 0 <= i < |l| && l[i].s <= s && e <= l[i].e
  }

  ghost predicate Covers(l: seq<Iv>, s: int, e: int) {
    forall x :: s <= x <= e ==> In(l, x)
  }

  /** In a canonical list a non-empty range is covered point by point only by a single member. */
  lemma {:induction false} HoldsIffCovers(l: seq<Iv>, s: int, e: int)
    requires Canonical(l) && s <= e
    ensures Holds(l, s, e) <==> Covers(l, s, e)
  {
    if Covers(l, s, e) {
      assert In(l, s);
      var i :| 0 <= i < |l| && l[i].s <= s <= l[i].e;
      GapAfter(l, i);
    }
  }

  lemma {:induction false} GapAfter(l: seq<Iv>, i: nat)
    requires Canonical(l) && i < |l|
    ensures !In(l, l[i].e + 1)
  {
    forall j | 0 <= j < |l| ensures !(l[j].s <= l[i].e + 1 <= l[j].e) {
      if i < j { assert l[i].e + 1 < l[j].s; } else if j < i { assert l[j].e + 1 < l[i].s; }
    }
  }

  method Contained(s: int, e: int, ivs: seq<Iv>) returns (r: bool)
    ensures r <==> Holds(ivs, s, e)
    ensures Canonical(ivs) && s <= e ==> (r <==> Covers(ivs, s, e))
  {
    if Canonical(ivs) && s <= e { HoldsIffCovers(ivs, s, e); }
    for i := 0 to |ivs|
      invariant forall j :: 0 <= j < i ==> !(ivs[j].s <= s && e <= ivs[j].e)
    {
      if ivs[i].s <= s && ivs[i].e >= e { return true; }
    }
    return false;
  }

  /** The coverage test that stops at the first interval past the target. */
  method IsCovered(intervals: seq<Iv>, target: Iv) returns (r: bool)
    requires Canonical(intervals)
    ensures r <==> Holds(intervals, target.s, target.e)
    ensures target.s <= target.e ==> (r <==> Covers(intervals, target.s, target.e))
  {
    if target.s <= target.e { HoldsIffCovers(intervals, target.s, target.e); }
    for i := 0 to |intervals|
      invariant forall j :: 0 <= j < i ==> !(intervals[j].s <= target.s && target.e <= intervals[j].e)
    {
      if intervals[i].s <= target.s && target.e <= intervals[i].e { return true; }
      if intervals[i].s > target.s { return false; }
    }
    return false;
  }

  /** Visibility of one line by binary search. */
  method IsVisible(merged: seq<Iv>, line: int) returns (r: bool)
    requires Canonical(merged)
    ensures r <==> In(merged, line)
  {
    var lo, hi := 0, |merged|;
    while lo < hi
      invariant 0 <= lo <= hi <= |merged|
      invariant forall j :: 0 <= j < lo ==> merged[j].e < line
      invariant forall j :: hi <= j < |merged| ==> line < merged[j].s
    {
      var mid := (lo + hi) / 2;
      if line < merged[mid].s {
        hi := mid;
      } else if line > merged[mid].e {
        lo := mid + 1;
      } else {
        return true;
      }
    }
    return false;
  }

  // ----- Difference -----

  /** Pieces in order, none overlapping the next. */
  ghost predicate Pieces(l: seq<Iv>) {
    Valid(l) && forall i, j :: 0 <= i < j < |l| ==> l[i].e < l[j].s
  }

  /** One piece minus one interval: at most the part before and the part after. */
  function Cut(p: Iv, iv: Iv): seq<Iv> {
    if iv.e < p.s || iv.s > p.e then [p]
    else (if iv.s > p.s then [Iv(p.s, iv.s - 1)] else []) + (if iv.e < p.e then [Iv(iv.e + 1, p.e)] else [])
  }

  lemma {:induction false} CutPoints(l: seq<Iv>, p: Iv, iv: Iv, x: int)
    requires p.s <= p.e && iv.s <= iv.e
    ensures In(l + Cut(p, iv), x) <==> In(l, x) || (p.s <= x <= p.e && !(iv.s <= x <= iv.e))
  {
    if iv.e < p.s || iv.s > p.e {
      InAppend(l, p, x);
    } else {
      var first := if iv.s > p.s then l + [Iv(p.s, iv.s - 1)] else l;
      if iv.s > p.s { InAppend(l, Iv(p.s, iv.s - 1), x); }
      if iv.e < p.e { InAppend(first, Iv(iv.e + 1, p.e), x); }
      assert l + Cut(p, iv) == if iv.e < p.e then first + [Iv(iv.e + 1, p.e)] else first;
    }
  }

  function CutEach(out: seq<Iv>, iv: Iv): seq<Iv> {
    if out == [] then [] else CutEach(out[..|out| - 1], iv) + Cut(out[|out| - 1], iv)
  }

  lemma {:induction false} CutEachPieces(out: seq<Iv>, iv: Iv)
    requires Canonical(out) && iv.s <= iv.e
    ensures Canonical(CutEach(out, iv))
    ensures out != [] ==> forall j :: 0 <= j < |CutEach(out, iv)| ==> CutEach(out, iv)[j].e <= out[|out| - 1].e
    ensures out == [] ==> CutEach(out, iv) == []
    decreases |out|
  {
    if out != [] {
      var init, p := out[..|out| - 1], out[|out| - 1];
      assert init != [] ==> init[|init| - 1].e + 1 < p.s;
      CutEachPieces(init, iv);
      CutPieces(p, iv);
      PiecesJoin(CutEach(init, iv), Cut(p, iv), p.s);
    }
  }

  lemma {:induction false} CutPieces(p: Iv, iv: Iv)
    requires p.s <= p.e && iv.s <= iv.e
    ensures Canonical(Cut(p, iv)) && forall j :: 0 <= j < |Cut(p, iv)| ==> p.s <= Cut(p, iv)[j].s && Cut(p, iv)[j].e <= p.e
  {
  }

  lemma {:induction false} PiecesJoin(a: seq<Iv>, b: seq<Iv>, at: int)
    requires Canonical(a) && Canonical(b)
    requires forall j :: 0 <= j < |a| ==> a[j].e + 1 < at
    requires forall j :: 0 <= j < |b| ==> at <= b[j].s
    ensures Canonical(a + b)
  {
    var all := a + b;
    forall i, j | 0 <= i < j < |all| ensures all[i].e + 1 < all[j].s {
      assert all[i] == if i < |a| then a[i] else b[i - |a|];
      assert all[j] == if j < |a| then a[j] else b[j - |a|];
    }
  }

  lemma {:induction false} CutEachPoints(out: seq<Iv>, iv: Iv, x: int)
    requires Valid(out) && iv.s <= iv.e
    ensures In(CutEach(out, iv), x) <==> In(out, x) && !(iv.s <= x <= iv.e)
    decreases |out|
  {
    if out != [] {
      var init, p := out[..|out| - 1], out[|out| - 1];
      CutEachPoints(init, iv, x);
      CutPoints(CutEach(init, iv), p, iv, x);
      InAppend(init, p, x);
      assert out == init + [p];
    }
  }

  lemma {:induction false} CutEachNext(out: seq<Iv>, iv: Iv, i: nat)
    requires i < |out|
    ensures CutEach(out[..i + 1], iv) == CutEach(out[..i], iv) + Cut(out[i], iv)
  {
    assert out[..i + 1][..i] == out[..i];
  }

  /** Cutting every piece of a list by one interval. */
  method CutAll(out: seq<Iv>, iv: Iv) returns (cut: seq<Iv>)
    requires Canonical(out) && iv.s <= iv.e
    ensures Canonical(cut)
    ensures forall x :: In(cut, x) <==> In(out, x) && !(iv.s <= x <= iv.e)
  {
    cut := [];
    var i := 0;
    while i < |out|
      invariant 0 <= i <= |out| && cut == CutEach(out[..i], iv)
    {
      var p := out[i];
      CutEachNext(out, iv, i);
      if iv.e < p.s || iv.s > p.e {
        cut := cut + [p];
      } else {
        if iv.s > p.s { cut := cut + [Iv(p.s, iv.s - 1)]; }
        if iv.e < p.e { cut := cut + [Iv(iv.e + 1, p.e)]; }
      }
      i := i + 1;
    }
    assert out[..i] == out;
    CutEachPieces(out, iv);
    forall x ensures In(cut, x) <==> In(out, x) && !(iv.s <= x <= iv.e) { CutEachPoints(out, iv, x); }
  }

  /** Exact set difference of `[s, e]` and a list, as ordered pieces with lines between them. */
  method Subtract(s: int, e: int, ivs: seq<Iv>) returns (out: seq<Iv>)
    requires s <= e && Valid(ivs)
    ensures Canonical(out)
    ensures forall x :: In(out, x) <==> s <= x <= e && !In(ivs, x)
  {
    out := [Iv(s, e)];
    forall x ensures In(out, x) <==> s <= x <= e { InOne(Iv(s, e), x); }
    var i := 0;
    while i < |ivs| && out != []
      invariant 0 <= i <= |ivs| && Canonical(out)
      invariant forall x :: In(out, x) <==> s <= x <= e && !In(ivs[..i], x)
    {
      ghost var before := out;
      out := CutAll(out, ivs[i]);
      assert ivs[..i + 1] == ivs[..i] + [ivs[i]];
      forall x ensures In(out, x) <==> s <= x <= e && !In(ivs[..i + 1], x) {
        InAppend(ivs[..i], ivs[i], x);
        assert In(before, x) <==> s <= x <= e && !In(ivs[..i], x);
      }
      i := i + 1;
    }
    if i < |ivs| {
      forall x ensures In(ivs[..i], x) ==> In(ivs, x) {
        if In(ivs[..i], x) {
          var k :| 0 <= k < i && ivs[..i][k].s <= x <= ivs[..i][k].e;
          assert ivs[k].s <= x <= ivs[k].e;
        }
      }
      assert forall x :: !In(out, x);
    } else {
      assert ivs[..i] == ivs;
    }
  }

  // ----- Counting lines -----

  function Range(s: int, e: int): (r: set<int>)
    ensures forall x :: x in r <==> s <= x <= e
    decreases e - s
  {
    if s > e then {} else Range(s, e - 1) + {e}
  }

  lemma {:induction false} RangeSize(s: int, e: int)
    ensures |Range(s, e)| == if s <= e then e - s + 1 else 0
    decreases e - s
  {
    if s <= e { RangeSize(s, e - 1); }
  }

  function Lines(l: seq<Iv>): set<int> {
    if l == [] then {} else Lines(l[..|l| - 1]) + Range(l[|l| - 1].s, l[|l| - 1].e)
  }

  function Size(l: seq<Iv>): int {
    if l == [] then 0 else Size(l[..|l| - 1]) + (l[|l| - 1].e - l[|l| - 1].s + 1)
  }

  ghost predicate PairwiseDisjoint(l: seq<Iv>) {
    forall i, j :: 0 <= i < j < |l| ==> l[i].e < l[j].s || l[j].e < l[i].s
  }

  lemma {:induction false} LinesAreIn(l: seq<Iv>)
    ensures forall x :: x in Lines(l) <==> In(l, x)
    decreases |l|
  {
    if l != [] {
      var init, last := l[..|l| - 1], l[|l| - 1];
      assert l == init + [last];
      LinesAreIn(init);
      forall x ensures x in Lines(l) <==> In(l, x) { InAppend(init, last, x); }
    }
  }

  /** Disjoint intervals count every line once. */
  lemma {:induction false} SizeCountsLines(l: seq<Iv>)
    requires Valid(l) && PairwiseDisjoint(l)
    ensures |Lines(l)| == Size(l)
    decreases |l|
  {
    if l != [] {
      var init, last := l[..|l| - 1], l[|l| - 1];
      SizeCountsLines(init);
      LinesAreIn(init);
      RangeSize(last.s, last.e);
      assert Lines(init) !! Range(last.s, last.e);
    }
  }
}
