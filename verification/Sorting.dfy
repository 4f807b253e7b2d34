/** Stable sorting by a total preorder, as the library sorts of the modelled code do it. */
module Sorting {

  ghost predicate TotalPreorder<T(!new)>(le: (T, T) -> bool) {
    && (forall x, y :: le(x, y) || le(y, x))
    && (forall x, y, z :: le(x, y) && le(y, z) ==> le(x, z))
  }

  ghost predicate Sorted<T>(s: seq<T>, le: (T, T) -> bool) {
    forall i, j :: 0 <= i < j < |s| ==> le(s[i], s[j])
  }

  /** Places `x` behind everything it does not precede strictly. */
  function Insert<T>(s: seq<T>, x: T, le: (T, T) -> bool): (r: seq<T>)
    ensures multiset(r) == multiset(s) + multiset{x}
    ensures |r| == |s| + 1
  {
    if s == [] || le(s[|s| - 1], x) then s + [x]
    else
      assert s == s[..|s| - 1] + [s[|s| - 1]];
      Insert(s[..|s| - 1], x, le) + [s[|s| - 1]]
  }

  function Sort<T>(s: seq<T>, le: (T, T) -> bool): (r: seq<T>)
    ensures multiset(r) == multiset(s)
    ensures |r| == |s|
  {
    if s == [] then []
    else
      assert s == s[..|s| - 1] + [s[|s| - 1]];
      Insert(Sort(s[..|s| - 1], le), s[|s| - 1], le)
  }

  lemma {:induction false} InsertSorted<T(!new)>(s: seq<T>, x: T, le: (T, T) -> bool)
    requires TotalPreorder(le) && Sorted(s, le)
    ensures Sorted(Insert(s, x, le), le)
    decreases |s|
  {
    if s == [] {
    } else if le(s[|s| - 1], x) {
      assert forall i :: 0 <= i < |s| ==> le(s[i], x);
    } else {
      var init, last := s[..|s| - 1], s[|s| - 1];
      InsertSorted(init, x, le);
      var r := Insert(init, x, le);
      forall y | y in r ensures le(y, last) {
        assert y in multiset(r);
        if y != x { assert y in multiset(init) && y in init; }
      }
    }
  }

  lemma {:induction false} SortSorted<T(!new)>(s: seq<T>, le: (T, T) -> bool)
    requires TotalPreorder(le)
    ensures Sorted(Sort(s, le), le)
    decreases |s|
  {
    if s != [] {
      SortSorted(s[..|s| - 1], le);
      InsertSorted(Sort(s[..|s| - 1], le), s[|s| - 1], le);
    }
  }

  /** Sorting moves nothing that is already in order. */
  lemma {:induction false} SortKeepsSorted<T(!new)>(s: seq<T>, le: (T, T) -> bool)
    requires Sorted(s, le)
    ensures Sort(s, le) == s
    decreases |s|
  {
    if s != [] {
      var init, last := s[..|s| - 1], s[|s| - 1];
      SortKeepsSorted(init, le);
      assert s == init + [last];
      assert init == [] || le(init[|init| - 1], last);
    }
  }

  /** Elements of `s` that `le` does not tell apart from `x`, in order. */
  function Ties<T>(s: seq<T>, x: T, le: (T, T) -> bool): seq<T> {
    if s == [] then []
    else Ties(s[..|s| - 1], x, le) + (if le(s[|s| - 1], x) && le(x, s[|s| - 1]) then [s[|s| - 1]] else [])
  }

  lemma {:induction false} TiesSnoc<T>(s: seq<T>, x: T, y: T, le: (T, T) -> bool)
    ensures Ties(s + [x], y, le) == Ties(s, y, le) + (if le(x, y) && le(y, x) then [x] else [])
  {
    assert (s + [x])[..|s|] == s;
  }

  lemma {:induction false} InsertStable<T(!new)>(s: seq<T>, x: T, y: T, le: (T, T) -> bool)
    requires TotalPreorder(le) && Sorted(s, le)
    ensures Ties(Insert(s, x, le), y, le) == Ties(s, y, le) + (if le(x, y) && le(y, x) then [x] else [])
    decreases |s|
  {
    if s == [] || le(s[|s| - 1], x) {
      TiesSnoc(s, x, y, le);
    } else {
      var init, last := s[..|s| - 1], s[|s| - 1];
      assert s == init + [last];
      InsertStable(init, x, y, le);
      TiesSnoc(init, last, y, le);
      TiesSnoc(Insert(init, x, le), last, y, le);
      assert le(last, y) && le(y, x) ==> le(last, x);
    }
  }

  /** Equal elements keep their order. */
  lemma {:induction false} SortStable<T(!new)>(s: seq<T>, y: T, le: (T, T) -> bool)
    requires TotalPreorder(le)
    ensures Ties(Sort(s, le), y, le) == Ties(s, y, le)
    decreases |s|
  {
    if s != [] {
      SortSorted(s[..|s| - 1], le);
      SortStable(s[..|s| - 1], y, le);
      InsertStable(Sort(s[..|s| - 1], le), s[|s| - 1], y, le);
    }
  }

  lemma {:induction false} TiesConcat<T>(s: seq<T>, t: seq<T>, y: T, le: (T, T) -> bool)
    ensures Ties(s + t, y, le) == Ties(s, y, le) + Ties(t, y, le)
    decreases |t|
  {
    if t == [] {
      assert s + t == s;
    } else {
      var init, last := t[..|t| - 1], t[|t| - 1];
      assert t == init + [last] && s + t == (s + init) + [last];
      TiesConcat(s, init, y, le);
      TiesSnoc(s + init, last, y, le);
    }
  }

  lemma {:induction false} TiedInside<T>(s: seq<T>, y: T, le: (T, T) -> bool)
    ensures Ties(s, y, le) != [] ==> exists i :: 0 <= i < |s| && le(s[i], y) && le(y, s[i])
    decreases |s|
  {
    if s != [] { TiedInside(s[..|s| - 1], y, le); }
  }

  lemma {:induction false} LastTies<T>(s: seq<T>, y: T, le: (T, T) -> bool)
    requires s != [] && le(s[|s| - 1], y) && le(y, s[|s| - 1])
    ensures Ties(s, y, le) != [] && Ties(s, y, le)[|Ties(s, y, le)| - 1] == s[|s| - 1]
  {
  }

  ghost predicate TiedAlike<T(!new)>(s: seq<T>, t: seq<T>, le: (T, T) -> bool) {
    forall y :: Ties(s, y, le) == Ties(t, y, le)
  }

  lemma {:induction false} SameLast<T(!new)>(s: seq<T>, t: seq<T>, le: (T, T) -> bool)
    requires TotalPreorder(le) && Sorted(s, le) && Sorted(t, le) && TiedAlike(s, t, le) && s != []
    ensures t != [] && s[|s| - 1] == t[|t| - 1]
  {
    var x := s[|s| - 1];
    assert Ties(s, x, le) == Ties(t, x, le);
    LastTies(s, x, le);
    TiedInside(t, x, le);
    var y := t[|t| - 1];
    assert Ties(s, y, le) == Ties(t, y, le);
    LastTies(t, y, le);
    TiedInside(s, y, le);
    assert le(x, y) && le(y, x);
    LastTies(t, x, le);
  }

  lemma {:induction false} CancelEnd<T>(a: seq<T>, b: seq<T>, end: seq<T>)
    ensures a + end == b + end <==> a == b
  {
    assert |a + end| == |a| + |end| && |b + end| == |b| + |end|;
    assert a == (a + end)[..|a|] && b == (b + end)[..|b|];
  }

  lemma {:induction false} InitTiedAlike<T(!new)>(s: seq<T>, t: seq<T>, x: T, le: (T, T) -> bool)
    requires TiedAlike(s + [x], t + [x], le)
    ensures TiedAlike(s, t, le)
  {
    forall y ensures Ties(s, y, le) == Ties(t, y, le) {
      TiesSnoc(s, x, y, le);
      TiesSnoc(t, x, y, le);
      assert Ties(s + [x], y, le) == Ties(t + [x], y, le);
      CancelEnd(Ties(s, y, le), Ties(t, y, le), if le(x, y) && le(y, x) then [x] else []);
    }
  }

  /** Two sorted sequences whose ties stand in one order are the same. */
  lemma {:induction false} StableUnique<T(!new)>(s: seq<T>, t: seq<T>, le: (T, T) -> bool)
    requires TotalPreorder(le) && Sorted(s, le) && Sorted(t, le) && TiedAlike(s, t, le)
    ensures s == t
    decreases |s|
  {
    if s == [] {
      if t != [] { SameLast(t, s, le); }
    } else {
      SameLast(s, t, le);
      var x := s[|s| - 1];
      assert s == s[..|s| - 1] + [x] && t == t[..|t| - 1] + [x];
      InitTiedAlike(s[..|s| - 1], t[..|t| - 1], x, le);
      StableUnique(s[..|s| - 1], t[..|t| - 1], le);
    }
  }
}
