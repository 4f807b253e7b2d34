/** Choice of a fresh identifier: the base name, or the first of `base_2`, `base_3`, ... not taken. */
module FreshNames {
  import opened Sets

  function Digit(n: nat): char
    requires n < 10
  {
    "0123456789"[n]
  }

  function Decimal(n: nat): (s: string)
    ensures s != []
  {
    if n < 10 then [Digit(n)] else Decimal(n / 10) + [Digit(n % 10)]
  }

  lemma {:induction false} DecimalInjective(m: nat, n: nat)
    requires Decimal(m) == Decimal(n)
    ensures m == n
  {
    var s, t := Decimal(m), Decimal(n);
    assert s[|s| - 1] == Digit(m % 10) && t[|t| - 1] == Digit(n % 10);
    if m >= 10 && n >= 10 {
      assert Decimal(m / 10) == s[..|s| - 1] && Decimal(n / 10) == t[..|t| - 1];
      DecimalInjective(m / 10, n / 10);
    }
  }

  function Candidate(base: string, i: nat): string {
    base + "_" + Decimal(i)
  }

  lemma {:induction false} CandidateInjective(base: string, i: nat, j: nat)
    requires Candidate(base, i) == Candidate(base, j)
    ensures i == j
  {
    var n := |base| + 1;
    assert Candidate(base, i)[n..] == Decimal(i) && Candidate(base, j)[n..] == Decimal(j);
    DecimalInjective(i, j);
  }

  /** Taken names the search could still run into from number `i` on. */
  ghost function Ahead(base: string, taken: set<string>, i: nat): set<string> {
    set t | t in taken && exists j: nat :: i <= j && t == Candidate(base, j)
  }

  lemma {:induction false} AheadShrinks(base: string, taken: set<string>, i: nat)
    requires Candidate(base, i) in taken
    ensures |Ahead(base, taken, i + 1)| < |Ahead(base, taken, i)|
  {
    var c := Candidate(base, i);
    assert c in Ahead(base, taken, i);
    forall t | t in Ahead(base, taken, i + 1) ensures t in Ahead(base, taken, i) - {c} {
      var j: nat :| i + 1 <= j && t == Candidate(base, j);
      if t == c { CandidateInjective(base, i, j); }
    }
    SubsetSize(Ahead(base, taken, i + 1), Ahead(base, taken, i) - {c});
  }

  ghost predicate AllTaken(base: string, taken: set<string>, i: nat, k: nat) {
    forall j: nat :: i <= j < k ==> Candidate(base, j) in taken
  }

  function FirstFree(base: string, taken: set<string>, i: nat): (r: string)
    ensures r !in taken
    ensures exists k: nat :: i <= k && r == Candidate(base, k) && AllTaken(base, taken, i, k)
    decreases |Ahead(base, taken, i)|
  {
    var c := Candidate(base, i);
    if c in taken then
      AheadShrinks(base, taken, i);
      FirstFree(base, taken, i + 1)
    else c
  }

  function FreshName(base: string, taken: set<string>): (r: string)
    ensures r !in taken
    ensures base !in taken ==> r == base
  {
    if base !in taken then base else FirstFree(base, taken, 2)
  }

  /** The search loop: it ends, with the first free candidate. */
  method PickFresh(base: string, taken: set<string>) returns (r: string)
    ensures r == FreshName(base, taken) && r !in taken
  {
    if base !in taken { return base; }
    var i: nat := 2;
    r := Candidate(base, i);
    while r in taken
      invariant r == Candidate(base, i)
      invariant FirstFree(base, taken, 2) == FirstFree(base, taken, i)
      decreases |Ahead(base, taken, i)|
    {
      AheadShrinks(base, taken, i);
      i := i + 1;
      r := Candidate(base, i);
    }
  }

  // ----- The names themselves -----

  /** What a string of decimal digits stands for. */
  function ValueOf(s: string): int {
    if s == "" then 0 else ValueOf(s[..|s| - 1]) * 10 + (s[|s| - 1] as int - '0' as int)
  }

  predicate DecimalDigits(s: string) {
    forall i :: 0 <= i < |s| ==> '0' <= s[i] <= '9'
  }

  /** A number is written in decimal digits, without a leading zero, and they stand for it. */
  lemma {:induction false} DecimalReads(n: nat)
    ensures var s := Decimal(n); DecimalDigits(s) && ValueOf(s) == n && (n > 0 ==> s[0] != '0')
    decreases n
  {
    var s := Decimal(n);
    var last := n % 10;
    assert Digit(last) as int == '0' as int + last;
    if n >= 10 {
      DecimalReads(n / 10);
      assert s[..|s| - 1] == Decimal(n / 10) && s[|s| - 1] == Digit(last);
      assert s[0] == Decimal(n / 10)[0];
    } else {
      assert s == [Digit(n)] && s[..0] == "";
    }
  }

  /** The name is the base if that is free, and otherwise the base with the first free number from 2 on. */
  lemma {:induction false} FreshNameIs(base: string, taken: set<string>)
    ensures var r := FreshName(base, taken);
            r !in taken &&
            if base !in taken then r == base
            else exists k: nat :: 2 <= k && r == base + "_" + Decimal(k) && forall j: nat :: 2 <= j < k ==> base + "_" + Decimal(j) in taken
  {
    if base in taken {
      var r := FirstFree(base, taken, 2);
      var k: nat :| 2 <= k && r == Candidate(base, k) && AllTaken(base, taken, 2, k);
      assert r == base + "_" + Decimal(k);
      forall j: nat | 2 <= j < k ensures base + "_" + Decimal(j) in taken {
        assert Candidate(base, j) in taken;
      }
    }
  }
}
