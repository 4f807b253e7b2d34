/**
 Text edits applied in place from right to left, and the simultaneous replacement they are
 meant to be. `ApplyEdits` rewrites a matched file; `SubText` splices references inside one
 node's text.
 */
module Splice {
  import opened Wrappers
  import opened Sorting

  datatype Edit = Edit(position: nat, deleted: nat, inserted: string) {
    function End(): nat {
      position + deleted
    }
  }

  datatype Error = Overlapping | OutOfBounds

  function ByPosition(): (Edit, Edit) -> bool {
    (a: Edit, b: Edit) => a.position <= b.position
  }

  function ByPositionDescending(): (Edit, Edit) -> bool {
    (a: Edit, b: Edit) => b.position <= a.position
  }

  /** Each edit starts at or after the end of the one before it. */
  ghost predicate Disjoint(edits: seq<Edit>) {
    forall i :: 0 < i < |edits| ==> edits[i - 1].End() <= edits[i].position
  }

  ghost predicate Fits(content: string, edits: seq<Edit>) {
    Disjoint(edits) && (edits != [] ==> edits[|edits| - 1].End() <= |content|)
  }

  /** Untouched gaps of `content` from `from` on, interleaved with the replacements in order. */
  function Weave(content: string, from: nat, edits: seq<Edit>): string
    requires Fits(content, edits) && from <= |content|
    requires edits != [] ==> from <= edits[0].position
    decreases |edits|
  {
    if edits == [] then content[from..]
    else
      var e := edits[0];
      FitsTail(content, edits);
      content[from..e.position] + e.inserted + Weave(content, e.End(), edits[1..])
  }

  lemma {:induction false} FitsTail(content: string, edits: seq<Edit>)
    requires Fits(content, edits) && edits != []
    ensures Fits(content, edits[1..]) && edits[0].End() <= |content|
    ensures |edits| > 1 ==> edits[0].End() <= edits[1].position
    decreases |edits|
  {
    if |edits| > 1 {
      assert forall i :: 0 < i < |edits[1..]| ==> edits[1..][i] == edits[i + 1] && edits[1..][i - 1] == edits[i];
      assert edits[1..][|edits| - 2] == edits[|edits| - 1];
      FitsTail(content, edits[1..]);
    }
  }

  lemma {:induction false} FitsFrom(content: string, edits: seq<Edit>, i: nat)
    requires Fits(content, edits) && i <= |edits|
    ensures Fits(content, edits[i..])
  {
    forall j | 0 < j < |edits[i..]| ensures edits[i..][j - 1].End() <= edits[i..][j].position {
      assert edits[i..][j] == edits[i + j] && edits[i..][j - 1] == edits[i + j - 1];
    }
  }

  function Replace(s: string, start: nat, end: nat, text: string): string
    requires start <= end <= |s|
  {
    s[..start] + text + s[end..]
  }

  lemma {:induction false} WeaveFirst(content: string, from: nat, edits: seq<Edit>)
    requires Fits(content, edits) && from <= |content| && edits != [] && from <= edits[0].position
    ensures edits[0].End() <= |content| && Fits(content, edits[1..])
    ensures |edits| > 1 ==> edits[0].End() <= edits[1].position
    ensures Weave(content, from, edits) ==
            content[from..edits[0].position] + (edits[0].inserted + Weave(content, edits[0].End(), edits[1..]))
  {
    FitsTail(content, edits);
    Regroup(content[from..edits[0].position], edits[0].inserted, Weave(content, edits[0].End(), edits[1..]));
  }

  lemma {:induction false} Regroup(a: string, b: string, c: string)
    ensures a + b + c == a + (b + c)
  {
  }

  lemma {:induction false} Slices(content: string, from: nat, mid: nat, to: nat)
    requires from <= mid <= to <= |content|
    ensures content[from..to] == content[from..mid] + content[mid..to]
  {
  }

  /** Text before the first edit passes through a weave. */
  lemma {:induction false} WeaveSplits(content: string, from: nat, mid: nat, edits: seq<Edit>)
    requires Fits(content, edits) && from <= mid <= |content|
    requires edits != [] ==> mid <= edits[0].position
    ensures Weave(content, from, edits) == content[from..mid] + Weave(content, mid, edits)
  {
    if edits == [] {
      Slices(content, from, mid, |content|);
      assert content[from..|content|] == content[from..] && content[mid..|content|] == content[mid..];
    } else {
      WeaveFirst(content, from, edits);
      WeaveFirst(content, mid, edits);
      var e := edits[0];
      Slices(content, from, mid, e.position);
      Regroup(content[from..mid], content[mid..e.position], e.inserted + Weave(content, e.End(), edits[1..]));
    }
  }

  lemma {:induction false} ReplaceAfter(head: string, gap: string, text: string, tail: string)
    ensures Replace(head + gap + tail, |head|, |head| + |gap|, text) == head + (text + tail)
  {
    var all := head + gap + tail;
    assert all[..|head|] == head && all[|head| + |gap|..] == tail;
  }

  /** One in-place step: an edit left of all applied ones replaces exactly its own range. */
  lemma {:induction false} ReplaceWeaves(content: string, edits: seq<Edit>, i: nat)
    requires Fits(content, edits) && i < |edits|
    ensures Fits(content, edits[i..]) && Fits(content, edits[i + 1..])
    ensures edits[i].End() <= |content|
    ensures edits[i].End() <= |Weave(content, 0, edits[i + 1..])|
    ensures Replace(Weave(content, 0, edits[i + 1..]), edits[i].position, edits[i].End(), edits[i].inserted) ==
            Weave(content, 0, edits[i..])
  {
    FitsFrom(content, edits, i);
    FitsFrom(content, edits, i + 1);
    var e, rest := edits[i], edits[i + 1..];
    assert edits[i..][0] == e && edits[i..][1..] == rest;
    WeaveFirst(content, 0, edits[i..]);
    WeaveSplits(content, 0, e.End(), rest);
    Slices(content, 0, e.position, e.End());
    ReplaceAfter(content[0..e.position], content[e.position..e.End()], e.inserted, Weave(content, e.End(), rest));
  }

  /** The overlap scan. */
  method CheckOverlaps(sorted: seq<Edit>) returns (ok: bool)
    requires Sorted(sorted, ByPosition())
    ensures ok <==> Disjoint(sorted)
  {
    var prevEnd, i := 0, 0;
    while i < |sorted|
      invariant 0 <= i <= |sorted| && Disjoint(sorted[..i])
      invariant prevEnd == if i == 0 then 0 else sorted[i - 1].End()
    {
      if sorted[i].position < prevEnd {
        assert !(sorted[i - 1].End() <= sorted[i].position);
        return false;
      }
      prevEnd := sorted[i].End();
      i := i + 1;
    }
    assert sorted[..i] == sorted;
    return true;
  }

  /** The buffer once the edits from `i` on have been applied. */
  ghost function Buffer(content: string, sorted: seq<Edit>, i: nat): string
    requires i <= |sorted| && (i < |sorted| ==> Fits(content, sorted))
  {
    if i == |sorted| then content
    else
      FitsFrom(content, sorted, i);
      Weave(content, 0, sorted[i..])
  }

  lemma {:induction false} BufferNext(content: string, sorted: seq<Edit>, i: nat)
    requires Fits(content, sorted) && i < |sorted|
    ensures sorted[i].End() <= |Buffer(content, sorted, i + 1)|
    ensures Replace(Buffer(content, sorted, i + 1), sorted[i].position, sorted[i].End(), sorted[i].inserted) == Buffer(content, sorted, i)
  {
    ReplaceWeaves(content, sorted, i);
    if i + 1 == |sorted| { assert sorted[i + 1..] == []; }
  }

  lemma {:induction false} LastInside(content: string, sorted: seq<Edit>)
    requires Disjoint(sorted) && sorted != []
    ensures Fits(content, sorted) <==> sorted[|sorted| - 1].End() <= |content|
  {
  }

  /**
   Sort, reject overlaps, then replace in place from the right. Bounds are tested against the
   buffer as already changed; even so the call succeeds exactly when the sorted edits are
   disjoint and the last one ends inside the original text.
   */
  method ApplyEdits(content: string, edits: seq<Edit>) returns (r: Result<string, Error>)
    ensures var sorted := Sort(edits, ByPosition());
      r == if !Disjoint(sorted) then Err(Overlapping)
           else if !Fits(content, sorted) then Err(OutOfBounds)
           else Ok(Weave(content, 0, sorted))
  {
    var sorted := Sort(edits, ByPosition());
    SortSorted(edits, ByPosition());
    var ok := CheckOverlaps(sorted);
    if !ok { return Err(Overlapping); }
    ghost var fits := Fits(content, sorted);
    if sorted != [] { LastInside(content, sorted); }
    var output, i := content, |sorted|;
    while i > 0
      invariant 0 <= i <= |sorted| && (i < |sorted| ==> fits)
      invariant output == Buffer(content, sorted, i)
    {
      var edit := sorted[i - 1];
      if fits { BufferNext(content, sorted, i - 1); }
      if edit.End() > |output| { return Err(OutOfBounds); }
      output := Replace(output, edit.position, edit.End(), edit.inserted);
      i := i - 1;
    }
    assert sorted[0..] == sorted;
    return Ok(output);
  }

  // ----- What the result keeps -----

  /** Net growth caused by the first `n` edits. */
  function Growth(edits: seq<Edit>): int {
    if edits == [] then 0 else |edits[0].inserted| - edits[0].deleted + Growth(edits[1..])
  }

  predicate Touches(edits: seq<Edit>, i: nat) {
    exists e :: e in edits && e.position <= i < e.End()
  }

  /** Edits that end at or before `i`, a prefix of the sorted list. */
  function Before(edits: seq<Edit>, i: nat): seq<Edit> {
    if edits == [] || edits[0].End() > i || edits[0].position > i then [] else [edits[0]] + Before(edits[1..], i)
  }

  lemma {:induction false} InMiddle(head: string, text: string, tail: string, k: nat)
    requires k < |tail|
    ensures (head + (text + tail))[|head| + |text| + k] == tail[k]
  {
  }

  lemma {:induction false} BeforeFirst(edits: seq<Edit>, i: nat)
    requires edits != [] && edits[0].End() <= i
    ensures Growth(Before(edits, i)) == |edits[0].inserted| - edits[0].deleted + Growth(Before(edits[1..], i))
  {
    var rest := Before(edits[1..], i);
    assert Before(edits, i) == [edits[0]] + rest;
    assert ([edits[0]] + rest)[1..] == rest;
  }

  lemma {:induction false} SurvivesHere(content: string, from: nat, edits: seq<Edit>, i: nat)
    requires Fits(content, edits) && edits != [] && from <= i < edits[0].position && edits[0].position <= |content|
    ensures i - from < |Weave(content, from, edits)| && Weave(content, from, edits)[i - from] == content[i]
  {
    WeaveFirst(content, from, edits);
  }

  lemma {:induction false} SurvivesLater(content: string, from: nat, edits: seq<Edit>, i: nat, k: nat)
    requires Fits(content, edits) && edits != [] && from <= edits[0].position && edits[0].End() <= |content|
    requires Fits(content, edits[1..]) && (|edits| > 1 ==> edits[0].End() <= edits[1].position)
    requires k < |Weave(content, edits[0].End(), edits[1..])| && i < |content|
    requires Weave(content, edits[0].End(), edits[1..])[k] == content[i]
    ensures var j := edits[0].position - from + |edits[0].inserted| + k;
            j < |Weave(content, from, edits)| && Weave(content, from, edits)[j] == content[i]
  {
    WeaveFirst(content, from, edits);
    InMiddle(content[from..edits[0].position], edits[0].inserted, Weave(content, edits[0].End(), edits[1..]), k);
  }

  lemma {:induction false} UntouchedRest(edits: seq<Edit>, i: nat)
    requires edits != [] && !Touches(edits, i)
    ensures !Touches(edits[1..], i) && !(edits[0].position <= i < edits[0].End())
  {
    assert edits[0] in edits;
    assert forall f :: f in edits[1..] ==> f in edits;
  }

  /** Every character no edit deletes survives, shifted by what was inserted and deleted before it. */
  lemma {:induction false} UntouchedSurvives(content: string, from: nat, edits: seq<Edit>, i: nat)
    requires Fits(content, edits) && from <= i < |content|
    requires edits != [] ==> from <= edits[0].position
    requires !Touches(edits, i)
    ensures var j := i - from + Growth(Before(edits, i));
      0 <= j < |Weave(content, from, edits)| && Weave(content, from, edits)[j] == content[i]
    decreases |edits|
  {
    if edits != [] {
      var e := edits[0];
      UntouchedRest(edits, i);
      WeaveFirst(content, from, edits);
      if i < e.position {
        SurvivesHere(content, from, edits, i);
      } else {
        UntouchedSurvives(content, e.End(), edits[1..], i);
        BeforeFirst(edits, i);
        SurvivesLater(content, from, edits, i, i - e.End() + Growth(Before(edits[1..], i)));
      }
    }
  }

  lemma {:induction false} WeaveLength(content: string, from: nat, edits: seq<Edit>)
    requires Fits(content, edits) && from <= |content|
    requires edits != [] ==> from <= edits[0].position
    ensures |Weave(content, from, edits)| == |content| - from + Growth(edits)
    decreases |edits|
  {
    if edits != [] {
      FitsTail(content, edits);
      WeaveLength(content, edits[0].End(), edits[1..]);
    }
  }

  // ----- Splicing inside one node -----

  function Reverse<T>(s: seq<T>): (r: seq<T>)
    ensures |r| == |s|
  {
    if s == [] then [] else Reverse(s[1..]) + [s[0]]
  }

  lemma {:induction false} ReverseAt<T>(s: seq<T>, i: nat)
    requires i < |s|
    ensures Reverse(s)[i] == s[|s| - 1 - i]
    decreases |s|
  {
    if i < |s| - 1 { ReverseAt(s[1..], i); }
  }

  /** The descending order in which references are spliced, read from left to right. */
  function SpliceOrder(edits: seq<Edit>): seq<Edit> {
    Reverse(Sort(edits, ByPositionDescending()))
  }

  lemma {:induction false} SpliceAt(edits: seq<Edit>, i: nat)
    requires i < |Sort(edits, ByPositionDescending())|
    ensures |SpliceOrder(edits)| == |Sort(edits, ByPositionDescending())|
    ensures Sort(edits, ByPositionDescending())[i] == SpliceOrder(edits)[|SpliceOrder(edits)| - 1 - i]
  {
    var local := Sort(edits, ByPositionDescending());
    ReverseAt(local, |local| - 1 - i);
  }

  /** References are spliced from the right; the result is the weave in splice order. */
  method SubText(text: string, edits: seq<Edit>) returns (r: string)
    requires Fits(text, SpliceOrder(edits))
    ensures r == Weave(text, 0, SpliceOrder(edits))
  {
    ghost var order := SpliceOrder(edits);
    var local := Sort(edits, ByPositionDescending());
    r := text;
    var i := 0;
    while i < |local|
      invariant 0 <= i <= |local| == |order| && r == Buffer(text, order, |order| - i)
    {
      SpliceAt(edits, i);
      BufferNext(text, order, |order| - i - 1);
      r := Replace(r, local[i].position, local[i].End(), local[i].inserted);
      i := i + 1;
    }
    assert order[0..] == order;
  }

  ghost predicate DistinctStarts(edits: seq<Edit>) {
    forall i, j :: 0 <= i < j < |edits| ==> edits[i].position != edits[j].position
  }

  ghost predicate Ascending(s: seq<Edit>) {
    forall i, j :: 0 <= i < j < |s| ==> s[i].position < s[j].position
  }

  lemma {:induction false} FirstOfAscending(a: seq<Edit>, b: seq<Edit>)
    requires Ascending(a) && Ascending(b) && multiset(a) == multiset(b) && a != []
    ensures b != [] && a[0] == b[0]
  {
    assert a[0] in multiset(b);
    assert a[0] in b;
    assert b[0] in multiset(a);
    assert b[0] in a;
  }

  lemma {:induction false} RestOfMultiset(a: seq<Edit>)
    requires a != []
    ensures multiset(a[1..]) == multiset(a) - multiset{a[0]}
  {
    assert a == [a[0]] + a[1..];
  }

  /** Two strictly ascending lists of the same edits are equal. */
  lemma {:induction false} AscendingUnique(a: seq<Edit>, b: seq<Edit>)
    requires Ascending(a) && Ascending(b) && multiset(a) == multiset(b)
    ensures a == b
    decreases |a|
  {
    if a == [] {
      assert |b| == |multiset(b)| == |multiset(a)|;
    } else {
      FirstOfAscending(a, b);
      RestOfMultiset(a);
      RestOfMultiset(b);
      AscendingUnique(a[1..], b[1..]);
      assert a == [a[0]] + a[1..] && b == [b[0]] + b[1..];
    }
  }

  lemma {:induction false} DistinctPermuted(a: seq<Edit>, b: seq<Edit>)
    requires DistinctStarts(a) && multiset(a) == multiset(b)
    ensures DistinctStarts(b)
  {
    forall i, j | 0 <= i < j < |b| ensures b[i].position != b[j].position {
      if b[i].position == b[j].position {
        assert b[i] in multiset(a) && b[j] in multiset(a);
        var k, l :| 0 <= k < |a| && 0 <= l < |a| && a[k] == b[i] && a[l] == b[j];
        assert k == l;
        TwiceIn(b, i, j);
        OnceIn(a, k);
      }
    }
  }

  lemma {:induction false} TwiceIn(s: seq<Edit>, i: nat, j: nat)
    requires i < j < |s| && s[i] == s[j]
    ensures multiset(s)[s[i]] >= 2
  {
    assert s == s[..j] + s[j..];
    assert s[i] in s[..j] && s[j] in s[j..];
    assert multiset(s) == multiset(s[..j]) + multiset(s[j..]);
  }

  lemma {:induction false} OnceIn(s: seq<Edit>, k: nat)
    requires k < |s| && DistinctStarts(s)
    ensures multiset(s)[s[k]] == 1
  {
    assert s == s[..k] + [s[k]] + s[k + 1..];
    assert s[k] !in s[..k] && s[k] !in s[k + 1..];
  }

  lemma {:induction false} ReverseMultiset(s: seq<Edit>)
    ensures multiset(Reverse(s)) == multiset(s)
  {
    if s != [] {
      ReverseMultiset(s[1..]);
      assert s == [s[0]] + s[1..];
    }
  }

  /** With distinct starting points both splicers order the edits alike. */
  lemma {:induction false} DistinctStartsAgree(edits: seq<Edit>)
    requires DistinctStarts(edits)
    ensures SpliceOrder(edits) == Sort(edits, ByPosition())
  {
    var up, down := Sort(edits, ByPosition()), Sort(edits, ByPositionDescending());
    SortSorted(edits, ByPosition());
    SortSorted(edits, ByPositionDescending());
    DistinctPermuted(edits, up);
    DistinctPermuted(edits, down);
    ReverseMultiset(down);
    forall i, j | 0 <= i < j < |down| ensures Reverse(down)[i].position < Reverse(down)[j].position {
      ReverseAt(down, i);
      ReverseAt(down, j);
    }
    AscendingUnique(up, Reverse(down));
  }

  // ----- When the two orders agree -----

  /** The edits that start at `p`, in list order. */
  function At(edits: seq<Edit>, p: nat): seq<Edit> {
    Ties(edits, Edit(p, 0, ""), ByPosition())
  }

  /** What starts at `p` reads the same backwards; so it does when at most one edit starts there. */
  predicate Mirrored(edits: seq<Edit>, p: nat) {
    Reverse(At(edits, p)) == At(edits, p)
  }

  lemma {:induction false} ReverseJoin<T>(a: seq<T>, x: T)
    ensures Reverse(a + [x]) == [x] + Reverse(a)
    decreases |a|
  {
    if a == [] {
      assert a + [x] == [x] && [x][1..] == [];
    } else {
      assert (a + [x])[1..] == a[1..] + [x];
      ReverseJoin(a[1..], x);
    }
  }

  lemma {:induction false} AtJoin(a: seq<Edit>, b: seq<Edit>, p: nat)
    ensures At(a + b, p) == At(a, p) + At(b, p)
    decreases |b|
  {
    if b == [] {
      assert a + b == a;
    } else {
      var init, last := b[..|b| - 1], b[|b| - 1];
      assert a + b == (a + init) + [last] && b == init + [last];
      AtJoin(a, init, p);
      TiesSnoc(a + init, last, Edit(p, 0, ""), ByPosition());
      TiesSnoc(init, last, Edit(p, 0, ""), ByPosition());
    }
  }

  lemma {:induction false} AtReversed(s: seq<Edit>, p: nat)
    ensures At(Reverse(s), p) == Reverse(At(s, p))
    decreases |s|
  {
    if s != [] {
      var rest, first := s[1..], [s[0]];
      assert s == first + rest;
      assert first[..0] == [];
      AtReversed(rest, p);
      AtJoin(Reverse(rest), first, p);
      AtJoin(first, rest, p);
      assert At(first, p) == if s[0].position == p then first else [];
      if s[0].position != p { assert Reverse(At(rest, p)) + [] == Reverse(At(rest, p)) && [] + At(rest, p) == At(rest, p); }
      else { assert (first + At(rest, p))[1..] == At(rest, p); }
    }
  }

  lemma {:induction false} AtDescending(s: seq<Edit>, p: nat)
    ensures Ties(s, Edit(p, 0, ""), ByPositionDescending()) == At(s, p)
    decreases |s|
  {
    if s != [] { AtDescending(s[..|s| - 1], p); }
  }

  lemma {:induction false} AtOfOrders(edits: seq<Edit>, p: nat)
    ensures At(Sort(edits, ByPosition()), p) == At(edits, p)
    ensures At(SpliceOrder(edits), p) == Reverse(At(edits, p))
  {
    var down := Sort(edits, ByPositionDescending());
    SortStable(edits, Edit(p, 0, ""), ByPosition());
    SortStable(edits, Edit(p, 0, ""), ByPositionDescending());
    AtDescending(edits, p);
    AtDescending(down, p);
    AtReversed(down, p);
  }

  lemma {:induction false} AtHas(s: seq<Edit>, p: nat)
    ensures At(s, p) != [] <==> exists e :: e in s && e.position == p
    decreases |s|
  {
    if s != [] {
      AtHas(s[..|s| - 1], p);
      assert s == s[..|s| - 1] + [s[|s| - 1]];
    }
  }

  predicate SameAt(a: seq<Edit>, b: seq<Edit>, p: nat) {
    At(a, p) == At(b, p)
  }

  /** A list sorted by position is known by what stands at each position. */
  lemma {:induction false} KnownByPositions(a: seq<Edit>, b: seq<Edit>)
    requires Sorted(a, ByPosition()) && Sorted(b, ByPosition())
    requires forall p: nat :: SameAt(a, b, p)
    ensures a == b
    decreases |a|
  {
    if a == [] {
      if b != [] {
        assert SameAt(a, b, b[0].position);
        AtHas(b, b[0].position);
      }
    } else {
      LastAgrees(a, b);
      var init, rest, last := a[..|a| - 1], b[..|b| - 1], [a[|a| - 1]];
      assert a == init + last && b == rest + last;
      forall q: nat ensures SameAt(init, rest, q) {
        AtJoin(init, last, q);
        AtJoin(rest, last, q);
        assert SameAt(a, b, q);
        CancelLast(At(init, q), At(rest, q), At(last, q));
      }
      KnownByPositions(init, rest);
    }
  }

  lemma {:induction false} CancelLast<T>(a: seq<T>, b: seq<T>, end: seq<T>)
    requires a + end == b + end
    ensures a == b
  {
    assert |a + end| == |b + end|;
    assert a == (a + end)[..|a|] && b == (b + end)[..|b|];
  }

  /** What stands at the last position ends in the last edit. */
  lemma {:induction false} AtLast(s: seq<Edit>)
    requires s != []
    ensures var here := At(s, s[|s| - 1].position); here != [] && here[|here| - 1] == s[|s| - 1]
  {
  }

  lemma {:induction false} NoneBeyond(a: seq<Edit>, b: seq<Edit>)
    requires Sorted(b, ByPosition()) && a != [] && SameAt(a, b, a[|a| - 1].position)
    ensures b != [] && a[|a| - 1].position <= b[|b| - 1].position
  {
    AtLast(a);
    AtHas(b, a[|a| - 1].position);
    var e :| e in b && e.position == a[|a| - 1].position;
    var i :| 0 <= i < |b| && b[i] == e;
    if i < |b| - 1 { assert ByPosition()(b[i], b[|b| - 1]); }
  }

  lemma {:induction false} LastAgrees(a: seq<Edit>, b: seq<Edit>)
    requires Sorted(a, ByPosition()) && Sorted(b, ByPosition()) && a != []
    requires forall p: nat :: SameAt(a, b, p)
    ensures b != [] && a[|a| - 1] == b[|b| - 1]
  {
    assert SameAt(a, b, a[|a| - 1].position);
    NoneBeyond(a, b);
    assert SameAt(a, b, b[|b| - 1].position);
    NoneBeyond(b, a);
    AtLast(a);
    AtLast(b);
  }

  /** The two splicers order any edits alike if and only if those starting at one place mirror themselves. */
  lemma {:induction false} OrdersAgreeIff(edits: seq<Edit>)
    ensures SpliceOrder(edits) == Sort(edits, ByPosition()) <==> forall p: nat :: Mirrored(edits, p)
  {
    var up, down := Sort(edits, ByPosition()), Sort(edits, ByPositionDescending());
    forall p: nat
      ensures At(up, p) == At(edits, p) && At(SpliceOrder(edits), p) == Reverse(At(edits, p))
    {
      AtOfOrders(edits, p);
    }
    if forall p: nat :: Mirrored(edits, p) {
      SortSorted(edits, ByPosition());
      SortSorted(edits, ByPositionDescending());
      forall i, j | 0 <= i < j < |down| ensures Reverse(down)[i].position <= Reverse(down)[j].position {
        ReverseAt(down, i);
        ReverseAt(down, j);
      }
      forall p: nat ensures SameAt(SpliceOrder(edits), up, p) {
        assert Mirrored(edits, p);
      }
      KnownByPositions(SpliceOrder(edits), up);
    }
  }

  /** Replacements of identifiers inside a node: none empty, no two overlapping, in any order. */
  ghost predicate OfIdentifiers(text: string, edits: seq<Edit>) {
    && (forall i :: 0 <= i < |edits| ==> edits[i].deleted > 0 && edits[i].End() <= |text|)
    && (forall i, j :: 0 <= i < j < |edits| ==> edits[i].End() <= edits[j].position || edits[j].End() <= edits[i].position)
  }

  /** What the inliner splices never starts twice at one place, so both splicers give the same text. */
  lemma {:induction false} IdentifiersAgree(text: string, edits: seq<Edit>)
    requires OfIdentifiers(text, edits)
    ensures SpliceOrder(edits) == Sort(edits, ByPosition()) && Fits(text, SpliceOrder(edits))
  {
    var up := Sort(edits, ByPosition());
    DistinctStartsAgree(edits);
    DistinctPermuted(edits, up);
    SortSorted(edits, ByPosition());
    forall i | 0 <= i < |up| ensures up[i] in edits {
      assert up[i] in multiset(up);
    }
    forall i | 0 < i < |up| ensures up[i - 1].End() <= up[i].position {
      assert ByPosition()(up[i - 1], up[i]);
      FirstEndsBefore(text, edits, up[i - 1], up[i]);
    }
  }

  lemma {:induction false} FirstEndsBefore(text: string, edits: seq<Edit>, a: Edit, b: Edit)
    requires OfIdentifiers(text, edits) && a in edits && b in edits && a.position < b.position
    ensures a.End() <= b.position
  {
    var k, l :| 0 <= k < |edits| && 0 <= l < |edits| && edits[k] == a && edits[l] == b;
    if k < l { assert a.End() <= b.position || b.End() <= a.position; }
  }
}
