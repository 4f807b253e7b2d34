/** What sorting the releases of a changelog comes to. */
module ChangelogOrder {
  import opened Sorting
  import opened ChangelogText
  import opened ChangelogDocument
  import opened ChangelogFix
  import opened ChangelogConservation
  import opened ChangelogFixpoint

  /** Unreleased before everything else, then later versions before earlier ones. */
  function ReleaseLe(versions: Versions): (Section, Section) -> bool {
    (a: Section, b: Section) =>
      a.title == UNRELEASED || (b.title != UNRELEASED && CompareVersionsDesc(versions(a.title), versions(b.title)) <= 0)
  }

  // ----- Which version is the older -----

  /** Part `k` of a version; a missing part is 0. */
  function Digit(version: seq<int>, k: nat): int {
    if k < |version| then version[k] else 0
  }

  predicate AgreeBelow(a: seq<int>, b: seq<int>, k: nat) {
    forall j: nat :: j < k ==> Digit(a, j) == Digit(b, j)
  }

  /** The first part in which the two differ is smaller in `a`. */
  ghost predicate Older(a: seq<int>, b: seq<int>) {
    exists k: nat :: AgreeBelow(a, b, k) && Digit(a, k) < Digit(b, k)
  }

  lemma {:induction false} CompareFromIs(a: seq<int>, b: seq<int>, i: nat, limit: nat)
    requires i <= limit && |a| <= limit && |b| <= limit && AgreeBelow(a, b, i)
    ensures CompareFrom(a, b, i, limit) > 0 <==> Older(a, b)
    ensures CompareFrom(a, b, i, limit) == 0 <==> forall k: nat :: Digit(a, k) == Digit(b, k)
    decreases limit - i
  {
    if i == limit {
      forall k: nat ensures Digit(a, k) == Digit(b, k) {
      }
    } else if Part(a, i) != Part(b, i) {
      assert Digit(a, i) != Digit(b, i);
      if k: nat :| AgreeBelow(a, b, k) && Digit(a, k) < Digit(b, k) {
        assert k <= i;
      }
    } else {
      CompareFromIs(a, b, i + 1, limit);
    }
  }

  /** The difference is positive exactly when the first version is the older one. */
  lemma {:induction false} PositiveIsOlder(a: seq<int>, b: seq<int>)
    ensures CompareVersionsDesc(a, b) > 0 <==> Older(a, b)
  {
    CompareFromIs(a, b, 0, if |a| < |b| then |b| else |a|);
  }

  // ----- The sorted releases -----

  lemma {:induction false} ReleasesOrdered(versions: Versions)
    ensures TotalPreorder(ReleaseLe(versions)) && TotalPreorder(SectionLe(versions))
  {
    var all, released := ReleaseLe(versions), SectionLe(versions);
    forall x: Section, y: Section ensures released(x, y) || released(y, x) {
      VersionsOrdered(versions(x.title), versions(y.title), []);
    }
    forall x: Section, y: Section, z: Section | released(x, y) && released(y, z) ensures released(x, z) {
      VersionsOrdered(versions(x.title), versions(y.title), versions(z.title));
    }
    forall x: Section, y: Section ensures all(x, y) || all(y, x) {
      assert released(x, y) || released(y, x);
    }
    forall x: Section, y: Section, z: Section | all(x, y) && all(y, z) ensures all(x, z) {
      assert released(x, y) && released(y, z) ==> released(x, z);
    }
  }

  lemma {:induction false} TiesOfTitled(sections: seq<Section>, y: Section, versions: Versions)
    ensures Ties(sections, y, ReleaseLe(versions)) ==
      if y.title == UNRELEASED then Titled(sections, true) else Ties(Titled(sections, false), y, SectionLe(versions))
    decreases |sections|
  {
    if sections != [] {
      var s, rest, le := sections[0], sections[1..], ReleaseLe(versions);
      assert sections == [s] + rest;
      TiesOfTitled(rest, y, versions);
      TiesConcat([s], rest, y, le);
      assert [s][..0] == [];
      assert Ties([s], y, le) == if le(s, y) && le(y, s) then [s] else [];
      if s.title != UNRELEASED {
        TiesConcat([s], Titled(rest, false), y, SectionLe(versions));
        assert Ties([s], y, SectionLe(versions)) == if SectionLe(versions)(s, y) && SectionLe(versions)(y, s) then [s] else [];
      }
    }
  }

  lemma {:induction false} TitledTwice(sections: seq<Section>, unreleased: bool)
    requires forall s :: s in sections ==> (s.title == UNRELEASED) == unreleased
    ensures Titled(sections, unreleased) == sections && Titled(sections, !unreleased) == []
    decreases |sections|
  {
    if sections != [] {
      assert sections == [sections[0]] + sections[1..];
      TitledTwice(sections[1..], unreleased);
    }
  }

  lemma {:induction false} TitledConcat(a: seq<Section>, b: seq<Section>, unreleased: bool)
    ensures Titled(a + b, unreleased) == Titled(a, unreleased) + Titled(b, unreleased)
    decreases |a|
  {
    if a == [] {
      assert a + b == b;
    } else {
      assert (a + b)[1..] == a[1..] + b;
      TitledConcat(a[1..], b, unreleased);
    }
  }

  /**
   The Unreleased sections come first, no release stands before one of a later version, and
   sections the order does not tell apart stay in their order: the outcome is the stable sort.
   */
  lemma {:induction false} ReleasesSorted(sections: seq<Section>, versions: Versions)
    ensures var r := SortedSections(sections, versions);
      && multiset(r) == multiset(sections)
      && (forall i, j :: 0 <= i < j < |r| && r[j].title == UNRELEASED ==> r[i].title == UNRELEASED)
      && (forall i, j :: 0 <= i < j < |r| && r[i].title != UNRELEASED ==> !Older(versions(r[i].title), versions(r[j].title)))
      && (forall y :: Ties(r, y, ReleaseLe(versions)) == Ties(sections, y, ReleaseLe(versions)))
      && r == Sort(sections, ReleaseLe(versions))
  {
    var r, le := SortedSections(sections, versions), ReleaseLe(versions);
    ReleasesOrdered(versions);
    SortedInOrder(sections, versions);
    forall i, j | 0 <= i < j < |r| && r[i].title != UNRELEASED ensures !Older(versions(r[i].title), versions(r[j].title)) {
      assert le(r[i], r[j]);
      PositiveIsOlder(versions(r[i].title), versions(r[j].title));
    }
    forall y ensures Ties(r, y, le) == Ties(sections, y, le) {
      TiesKept(sections, y, versions);
    }
    SortSorted(sections, le);
    forall y ensures Ties(r, y, le) == Ties(Sort(sections, le), y, le) {
      SortStable(sections, y, le);
    }
    assert TiedAlike(r, Sort(sections, le), le);
    StableUnique(r, Sort(sections, le), le);
  }

  lemma {:induction false} SortedInOrder(sections: seq<Section>, versions: Versions)
    ensures Sorted(SortedSections(sections, versions), ReleaseLe(versions))
  {
    var first, released := Titled(sections, true), Titled(sections, false);
    var sorted := Sort(released, SectionLe(versions));
    ReleasesOrdered(versions);
    SortSorted(released, SectionLe(versions));
    TitledIn(sections, true);
    TitledIn(sections, false);
    SameMembers(released, sorted);
    var r := SortedSections(sections, versions);
    forall i | 0 <= i < |r| ensures if i < |first| then r[i].title == UNRELEASED else r[i].title != UNRELEASED {
      if i < |first| { assert r[i] in first; } else { assert r[i] == sorted[i - |first|] && r[i] in sorted; }
    }
  }

  lemma {:induction false} SameMembers(a: seq<Section>, b: seq<Section>)
    requires multiset(a) == multiset(b)
    ensures forall s :: s in a <==> s in b
  {
    forall s ensures s in a <==> s in b {
      assert s in multiset(a) <==> s in multiset(b);
    }
  }

  lemma {:induction false} TiesKept(sections: seq<Section>, y: Section, versions: Versions)
    ensures Ties(SortedSections(sections, versions), y, ReleaseLe(versions)) == Ties(sections, y, ReleaseLe(versions))
  {
    var r := SortedSections(sections, versions);
    SortedTitled(sections, versions);
    TiesOfTitled(sections, y, versions);
    TiesOfTitled(r, y, versions);
    ReleasesOrdered(versions);
    SortStable(Titled(sections, false), y, SectionLe(versions));
  }

  lemma {:induction false} SortedTitled(sections: seq<Section>, versions: Versions)
    ensures var r := SortedSections(sections, versions);
      Titled(r, true) == Titled(sections, true) && Titled(r, false) == Sort(Titled(sections, false), SectionLe(versions))
  {
    var first, released := Titled(sections, true), Titled(sections, false);
    var sorted := Sort(released, SectionLe(versions));
    TitledIn(sections, true);
    TitledIn(sections, false);
    SameMembers(released, sorted);
    TitledTwice(first, true);
    TitledTwice(sorted, false);
    TitledConcat(first, sorted, true);
    TitledConcat(first, sorted, false);
  }
}
