/**
 The single-pass read replay: under a paging configuration a call is skipped when every line it
 asks for has been delivered by the paid calls before it. Costs are left out; which calls are
 paid, what they deliver and which are counted as truncated is exact.
 */
module ReadPaging {
  import opened Wrappers
  import opened Intervals

  datatype Kind = Explicit | Open | Default | Whole

  /** `Whole` stands for raw, conflict and other reads, which have no window. */
  datatype Call = Call(kind: Kind, start: Option<int>, end: Option<int>)

  datatype Paging = Paging(page: int, maxLines: int, leading: int, trailing: int) {
    predicate Valid() {
      page >= 1 && maxLines >= 1 && leading >= 0 && trailing >= 0
    }
  }

  /** Lines count from 1, and a selector never ends before it starts. */
  predicate WellNumbered(c: Call) {
    && (c.start.Some? ==> c.start.value >= 1)
    && (c.kind.Explicit? && c.start.Some? && c.end.Some? ==> c.start.value <= c.end.value)
  }

  function Requested(c: Call, cfg: Paging): Option<Iv> {
    if c.kind.Explicit? && c.start.Some? && c.end.Some? then Some(Iv(c.start.value, c.end.value))
    else if c.kind.Open? && c.start.Some? then Some(Iv(c.start.value, c.start.value + cfg.page - 1))
    else if c.kind.Default? then Some(Iv(1, cfg.page))
    else None
  }

  /** First line delivered for a window that starts at `s`: some lines of context before it. */
  function WindowStart(s: int, cfg: Paging): int {
    if s > 1 then Max(1, s - cfg.leading) else 1
  }

  function Delivered(c: Call, cfg: Paging): Option<Iv> {
    var req :- Requested(c, cfg);
    var start := WindowStart(req.s, cfg);
    if c.kind.Explicit? then
      var lines := Min(Max(1, req.e - req.s + 1) + (req.s - start) + cfg.trailing, cfg.maxLines);
      Some(Iv(start, start + lines - 1))
    else if c.kind.Open? then
      var lines := Min(cfg.page + (req.s - start), cfg.maxLines);
      Some(Iv(start, start + lines - 1))
    else
      Some(Iv(1, Min(cfg.page, cfg.maxLines)))
  }

  /** A line the call asks for: those of its selector, or a page from its start or from the top. */
  predicate AsksFor(c: Call, cfg: Paging, x: int) {
    match c.kind
    case Explicit => c.start.Some? && c.end.Some? && c.start.value <= x <= c.end.value
    case Open => c.start.Some? && c.start.value <= x < c.start.value + cfg.page
    case Default => 1 <= x <= cfg.page
    case Whole => false
  }

  predicate HasWindow(c: Call) {
    c.kind.Default? || (c.kind.Open? && c.start.Some?) || (c.kind.Explicit? && c.start.Some? && c.end.Some?)
  }

  /** The request holds exactly the lines asked for, and there is none for a call without a window. */
  lemma {:induction false} RequestedIsAsked(c: Call, cfg: Paging, x: int)
    ensures Requested(c, cfg).Some? <==> HasWindow(c)
    ensures AsksFor(c, cfg, x) <==> Requested(c, cfg).Some? && Requested(c, cfg).value.s <= x <= Requested(c, cfg).value.e
  {
  }

  /** The line a delivery begins with: as far before the request as the leading context goes, or the first line. */
  predicate OpensAt(s: int, cfg: Paging, first: int) {
    1 <= first <= s && s - first <= cfg.leading && (first == 1 || s - first == cfg.leading)
  }

  /**
   A delivery holds the lines from its first one to the end of the request, with the trailing context
   behind an explicit one, as far as the line cap goes.
   */
  lemma {:induction false} DeliveredLines(c: Call, cfg: Paging, first: int, x: int)
    requires cfg.Valid() && WellNumbered(c) && HasWindow(c)
    requires OpensAt(if c.kind.Default? then 1 else c.start.value, cfg, first)
    ensures var d := Delivered(c, cfg);
            d.Some? &&
            (d.value.s <= x <= d.value.e <==>
               && first <= x < first + cfg.maxLines
               && x <= (match c.kind
                        case Explicit => c.end.value + cfg.trailing
                        case Open => c.start.value + cfg.page - 1
                        case _ => cfg.page))
  {
  }

  /** The whole request, with the context before it, is within the line cap. */
  predicate FitsCap(c: Call, cfg: Paging)
    requires Requested(c, cfg).Some?
  {
    var req := Requested(c, cfg).value;
    req.e - WindowStart(req.s, cfg) + 1 <= cfg.maxLines
  }

  /** A delivery is never empty nor above the cap, and has all lines asked for exactly when they fit. */
  lemma {:induction false} DeliveredIffFits(c: Call, cfg: Paging)
    requires cfg.Valid() && WellNumbered(c) && Requested(c, cfg).Some?
    ensures Delivered(c, cfg).Some?
    ensures var req, d := Requested(c, cfg).value, Delivered(c, cfg).value;
            && req.s <= req.e && d.s <= d.e < d.s + cfg.maxLines
            && (d.s <= req.s && req.e <= d.e <==> FitsCap(c, cfg))
  {
  }

  /** The test by which the replay counts a paid call as truncated. */
  predicate CountedTruncated(c: Call, cfg: Paging)
    requires Delivered(c, cfg).Some?
  {
    var d := Delivered(c, cfg).value;
    var first := if c.start.Some? then c.start.value else 1;
    var last := if c.end.Some? then c.end.value else first;
    && d.e - d.s + 1 >= cfg.maxLines && c.kind.Explicit?
    && Max(1, last - first + 1) + cfg.leading + cfg.trailing > cfg.maxLines
  }

  /**
   Every explicit call that loses a requested line is counted as truncated. So are calls that
   lose none: exactly those whose context, not whose request, meets the cap.
   */
  lemma {:induction false} CountedIffCutOrTight(c: Call, cfg: Paging)
    requires cfg.Valid() && WellNumbered(c) && c.kind.Explicit? && Requested(c, cfg).Some?
    ensures var before := c.start.value - WindowStart(c.start.value, cfg);
            var lines := c.end.value - c.start.value + 1;
            CountedTruncated(c, cfg) <==>
              !FitsCap(c, cfg) ||
              (before + lines + cfg.trailing >= cfg.maxLines && cfg.leading + lines + cfg.trailing > cfg.maxLines)
  {
  }

  // ----- One file of one session -----

  /** What the paid ones among the first `n` calls deliver, in order. */
  ghost function Paid(group: seq<Call>, n: nat, cfg: Paging): seq<Iv>
    requires n <= |group|
    decreases n, 0
  {
    if n == 0 then [] else Paid(group, n - 1, cfg) + PaidAt(group, n - 1, cfg)
  }

  ghost function PaidAt(group: seq<Call>, i: nat, cfg: Paging): seq<Iv>
    requires i < |group|
    decreases i, 2
  {
    var d := Delivered(group[i], cfg);
    if d.None? || Skipped(group, i, cfg) then [] else [d.value]
  }

  /** Every line the call asks for has been delivered by earlier paid calls; never so for the first. */
  ghost predicate Skipped(group: seq<Call>, i: nat, cfg: Paging)
    requires i < |group|
    decreases i, 1
  {
    var req := Requested(group[i], cfg);
    i > 0 && req.Some? && Covers(Paid(group, i, cfg), req.value.s, req.value.e)
  }

  ghost function SkippedCalls(group: seq<Call>, n: nat, cfg: Paging): nat
    requires n <= |group|
  {
    if n == 0 then 0
    else if Skipped(group, n - 1, cfg) then SkippedCalls(group, n - 1, cfg) + 1
    else SkippedCalls(group, n - 1, cfg)
  }

  ghost function TruncatedCalls(group: seq<Call>, n: nat, cfg: Paging): nat
    requires n <= |group|
  {
    if n == 0 then 0
    else if PaidAt(group, n - 1, cfg) != [] && CountedTruncated(group[n - 1], cfg) then TruncatedCalls(group, n - 1, cfg) + 1
    else TruncatedCalls(group, n - 1, cfg)
  }

  predicate AllNumbered(group: seq<Call>) {
    forall i :: 0 <= i < |group| ==> WellNumbered(group[i])
  }

  /** The first call opens with a selector, and what it delivers holds every later request. */
  predicate FirstHoldsAll(group: seq<Call>, cfg: Paging)
    requires group != []
  {
    && (group[0].kind.Explicit? || group[0].kind.Open?) && Requested(group[0], cfg).Some?
    && forall i :: 1 <= i < |group| && Requested(group[i], cfg).Some? ==> Inside(group[i], group[0], cfg)
  }

  predicate Inside(later: Call, first: Call, cfg: Paging)
    requires Requested(later, cfg).Some? && Requested(first, cfg).Some?
  {
    var req, d := Requested(later, cfg).value, Delivered(first, cfg).value;
    d.s <= req.s && req.e <= d.e
  }

  lemma {:induction false} PaidValid(group: seq<Call>, n: nat, cfg: Paging)
    requires n <= |group| && cfg.Valid() && AllNumbered(group)
    ensures Valid(Paid(group, n, cfg))
  {
    if n > 0 {
      PaidValid(group, n - 1, cfg);
      if Requested(group[n - 1], cfg).Some? { DeliveredIffFits(group[n - 1], cfg); }
    }
  }

  /** Whether the first delivery holds every later request; the search ends at one it does not. */
  method HoldsLater(group: seq<Call>, cfg: Paging) returns (all: bool)
    requires group != [] && cfg.Valid() && AllNumbered(group) && Requested(group[0], cfg).Some?
    ensures all <==> forall i :: 1 <= i < |group| && Requested(group[i], cfg).Some? ==> Inside(group[i], group[0], cfg)
  {
    DeliveredIffFits(group[0], cfg);
    var first := Delivered(group[0], cfg).value;
    for i := 1 to |group|
      invariant forall j :: 1 <= j < i && Requested(group[j], cfg).Some? ==> Inside(group[j], group[0], cfg)
    {
      var req := Requested(group[i], cfg);
      if req.Some? {
        var held := IsCovered([first], req.value);
        assert [first][0] == first && Inside(group[i], group[0], cfg) == held;
        if !held { return false; }
      }
    }
    return true;
  }

  /** One more call: without a window it delivers nothing; otherwise it is skipped or delivers. */
  lemma {:induction false} NextCall(group: seq<Call>, i: nat, cfg: Paging)
    requires i < |group|
    ensures var req, d := Requested(group[i], cfg), Delivered(group[i], cfg);
            var skip := i > 0 && req.Some? && Covers(Paid(group, i, cfg), req.value.s, req.value.e);
            && Skipped(group, i, cfg) == skip && (req.None? <==> d.None?)
            && Paid(group, i + 1, cfg) == (if req.None? || skip then Paid(group, i, cfg) else Paid(group, i, cfg) + [d.value])
            && SkippedCalls(group, i + 1, cfg) == SkippedCalls(group, i, cfg) + (if skip then 1 else 0)
            && TruncatedCalls(group, i + 1, cfg) == TruncatedCalls(group, i, cfg)
                 + (if req.Some? && !skip && CountedTruncated(group[i], cfg) then 1 else 0)
  {
    var paid := Paid(group, i, cfg);
    assert Paid(group, i + 1, cfg) == paid + PaidAt(group, i, cfg);
    if PaidAt(group, i, cfg) == [] { assert paid + [] == paid; }
  }

  /** The coverage after one more delivery stands for one more paid call. */
  lemma {:induction false} CoverageGrows(coverage: seq<Iv>, paid: seq<Iv>, d: Iv)
    requires Canonical(coverage) && SamePoints(coverage, paid) && d.s <= d.e
    ensures Canonical(Add(coverage, d)) && SamePoints(Add(coverage, d), paid + [d])
  {
    AddAdds(coverage, d);
    forall x ensures In(Add(coverage, d), x) <==> In(paid + [d], x) {
      InAppend(paid, d, x);
      assert In(coverage, x) <==> In(paid, x);
    }
  }

  /** One paid call: what it delivers joins the coverage. */
  method Pay(group: seq<Call>, i: nat, cfg: Paging, coverage: seq<Iv>) returns (after: seq<Iv>, truncated: bool)
    requires i < |group| && cfg.Valid() && AllNumbered(group)
    requires Canonical(coverage) && SamePoints(coverage, Paid(group, i, cfg))
    requires Requested(group[i], cfg).Some? && !Skipped(group, i, cfg)
    ensures Canonical(after) && SamePoints(after, Paid(group, i + 1, cfg))
    ensures SkippedCalls(group, i + 1, cfg) == SkippedCalls(group, i, cfg)
    ensures TruncatedCalls(group, i + 1, cfg) == TruncatedCalls(group, i, cfg) + if truncated then 1 else 0
  {
    NextCall(group, i, cfg);
    DeliveredIffFits(group[i], cfg);
    truncated := CountedTruncated(group[i], cfg);
    CoverageGrows(coverage, Paid(group, i, cfg), Delivered(group[i], cfg).value);
    after := AddInterval(coverage, Delivered(group[i], cfg).value);
  }

  /** Whether a call is skipped: the test on the coverage. */
  method SkipsCall(group: seq<Call>, i: nat, cfg: Paging, coverage: seq<Iv>) returns (skip: bool)
    requires i < |group| && cfg.Valid() && AllNumbered(group) && Requested(group[i], cfg).Some?
    requires Canonical(coverage) && SamePoints(coverage, Paid(group, i, cfg))
    ensures skip == Skipped(group, i, cfg)
  {
    var req := Requested(group[i], cfg).value;
    DeliveredIffFits(group[i], cfg);
    var covered := IsCovered(coverage, req);
    CoversSame(coverage, Paid(group, i, cfg), req);
    skip := i > 0 && covered;
  }

  /** One call: without a window it is paid and delivers nothing; otherwise it is skipped or delivers. */
  method OneCall(group: seq<Call>, i: nat, cfg: Paging, coverage: seq<Iv>)
    returns (after: seq<Iv>, paid: nat, skipped: nat, truncated: nat)
    requires i < |group| && cfg.Valid() && AllNumbered(group)
    requires Canonical(coverage) && SamePoints(coverage, Paid(group, i, cfg))
    ensures Canonical(after) && SamePoints(after, Paid(group, i + 1, cfg)) && paid + skipped == 1
    ensures SkippedCalls(group, i + 1, cfg) == SkippedCalls(group, i, cfg) + skipped
    ensures TruncatedCalls(group, i + 1, cfg) == TruncatedCalls(group, i, cfg) + truncated
  {
    NextCall(group, i, cfg);
    after, paid, skipped, truncated := coverage, 1, 0, 0;
    if Requested(group[i], cfg).Some? && Delivered(group[i], cfg).Some? {
      var skip := SkipsCall(group, i, cfg, coverage);
      if skip {
        paid, skipped := 0, 1;
      } else {
        var cut;
        after, cut := Pay(group, i, cfg, coverage);
        truncated := if cut then 1 else 0;
      }
    }
  }

  /** The flag of the first call. */
  method FirstHolds(group: seq<Call>, cfg: Paging) returns (all: bool)
    requires group != [] && cfg.Valid() && AllNumbered(group)
    ensures all <==> FirstHoldsAll(group, cfg)
  {
    all := false;
    if Requested(group[0], cfg).Some? && (group[0].kind.Explicit? || group[0].kind.Open?) { all := HoldsLater(group, cfg); }
  }

  /** The calls on one file in one session, with the coverage kept as a list of intervals. */
  method ReplayGroup(group: seq<Call>, cfg: Paging)
    returns (calls: nat, skipped: nat, truncations: nat, firstHoldsAll: bool, coverage: seq<Iv>)
    requires group != [] && cfg.Valid() && AllNumbered(group)
    ensures Canonical(coverage) && SamePoints(coverage, Paid(group, |group|, cfg))
    ensures skipped == SkippedCalls(group, |group|, cfg) && calls + skipped == |group|
    ensures truncations == TruncatedCalls(group, |group|, cfg)
    ensures firstHoldsAll <==> FirstHoldsAll(group, cfg)
  {
    calls, skipped, truncations, firstHoldsAll, coverage := 0, 0, 0, false, [];
    for i := 0 to |group|
      invariant Canonical(coverage) && SamePoints(coverage, Paid(group, i, cfg))
      invariant skipped == SkippedCalls(group, i, cfg) && calls + skipped == i
      invariant truncations == TruncatedCalls(group, i, cfg)
      invariant firstHoldsAll <==> i > 0 && FirstHoldsAll(group, cfg)
    {
      var paid, skip, cut;
      coverage, paid, skip, cut := OneCall(group, i, cfg, coverage);
      calls, skipped, truncations := calls + paid, skipped + skip, truncations + cut;
      if i == 0 { firstHoldsAll := FirstHolds(group, cfg); }
    }
  }

  lemma {:induction false} CoversSame(a: seq<Iv>, b: seq<Iv>, iv: Iv)
    requires SamePoints(a, b)
    ensures Covers(a, iv.s, iv.e) <==> Covers(b, iv.s, iv.e)
  {
    if Covers(a, iv.s, iv.e) {
      forall x | iv.s <= x <= iv.e ensures In(b, x) { assert In(a, x); }
    }
    if Covers(b, iv.s, iv.e) {
      forall x | iv.s <= x <= iv.e ensures In(a, x) { assert In(b, x); }
    }
  }

  // ----- What the replay gives the agent -----

  lemma {:induction false} PaidStays(group: seq<Call>, i: nat, n: nat, cfg: Paging, x: int)
    requires i <= n <= |group| && In(Paid(group, i, cfg), x)
    ensures In(Paid(group, n, cfg), x)
    decreases n - i
  {
    if i < n {
      NextCall(group, i, cfg);
      if Paid(group, i + 1, cfg) != Paid(group, i, cfg) { InAppend(Paid(group, i, cfg), Delivered(group[i], cfg).value, x); }
      PaidStays(group, i + 1, n, cfg, x);
    }
  }

  /**
   What a windowed call asks for is all delivered by the end of the replay if the call is
   skipped, and also if it is paid and its request fits the line cap.
   */
  lemma {:induction false} EveryRequestServed(group: seq<Call>, i: nat, cfg: Paging)
    requires i < |group| && cfg.Valid() && AllNumbered(group) && Requested(group[i], cfg).Some?
    requires Skipped(group, i, cfg) || FitsCap(group[i], cfg)
    ensures var req := Requested(group[i], cfg).value; Covers(Paid(group, |group|, cfg), req.s, req.e)
  {
    var req := Requested(group[i], cfg).value;
    DeliveredIffFits(group[i], cfg);
    NextCall(group, i, cfg);
    forall x | req.s <= x <= req.e ensures In(Paid(group, |group|, cfg), x) {
      if Skipped(group, i, cfg) {
        PaidStays(group, i, |group|, cfg, x);
      } else {
        var d := Delivered(group[i], cfg).value;
        InAppend(Paid(group, i, cfg), d, x);
        PaidStays(group, i + 1, |group|, cfg, x);
      }
    }
  }

  ghost function Windowless(group: seq<Call>, n: nat, cfg: Paging): nat
    requires n <= |group|
  {
    if n == 0 then 0
    else if Requested(group[n - 1], cfg).None? then Windowless(group, n - 1, cfg) + 1
    else Windowless(group, n - 1, cfg)
  }

  /** When the first delivery holds all later requests, only it and the reads without a window are paid. */
  lemma {:induction false} FirstHoldsAllPaysOnce(group: seq<Call>, n: nat, cfg: Paging)
    requires 1 <= n <= |group| && cfg.Valid() && AllNumbered(group) && FirstHoldsAll(group, cfg)
    ensures Paid(group, n, cfg) == [Delivered(group[0], cfg).value]
    ensures n - SkippedCalls(group, n, cfg) == 1 + Windowless(group, n, cfg)
  {
    NextCall(group, n - 1, cfg);
    if n == 1 {
      assert Windowless(group, 0, cfg) == 0;
    } else {
      FirstHoldsAllPaysOnce(group, n - 1, cfg);
      var c, d := group[n - 1], Delivered(group[0], cfg).value;
      if Requested(c, cfg).Some? {
        var req := Requested(c, cfg).value;
        assert Inside(c, group[0], cfg);
        forall x | req.s <= x <= req.e ensures In([d], x) { InOne(d, x); }
      }
    }
  }
}
