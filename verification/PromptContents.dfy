/**
 What is kept, peeled, grouped and counted when a prompt file is rewritten, said of the lines
 themselves.
 */
module PromptContents {
  import opened Wrappers
  import opened PromptRewrite

  // ----- Front matter -----

  /** Line `n` closes the front matter that the first line opens. */
  predicate ClosesFrontMatter(rules: Rules, lines: seq<string>, n: nat) {
    0 < n < |lines| && rules.isRule(lines[0]) && rules.isRule(lines[n]) && forall k :: 0 < k < n ==> !rules.isRule(lines[k])
  }

  predicate InFrontMatter(rules: Rules, lines: seq<string>, i: nat) {
    exists n: nat :: i <= n < |lines| && ClosesFrontMatter(rules, lines, n)
  }

  lemma {:induction false} FirstRuleIs(rules: Rules, lines: seq<string>, from: nat)
    requires from <= |lines|
    ensures var n := FirstRule(rules, lines, from);
            (n < |lines| ==> rules.isRule(lines[n])) && forall k :: from <= k < n ==> !rules.isRule(lines[k])
    decreases |lines| - from
  {
    if from < |lines| && !rules.isRule(lines[from]) { FirstRuleIs(rules, lines, from + 1); }
  }

  /** The lines before the start are the closed front matter, both rules included; an unclosed one is none. */
  lemma {:induction false} StartsAfterFrontMatter(rules: Rules, lines: seq<string>, i: nat)
    requires i < |lines|
    ensures i < Start(rules, lines) <==> InFrontMatter(rules, lines, i)
  {
    if rules.isRule(lines[0]) {
      FirstRuleIs(rules, lines, 1);
      var n := FirstRule(rules, lines, 1);
      if n < |lines| { assert ClosesFrontMatter(rules, lines, n); }
    }
  }

  // ----- Fences -----

  /** No line between the two repeats the fence of the first. */
  predicate Reaches(rules: Rules, lines: seq<string>, p: nat, i: nat)
    requires p <= i <= |lines|
  {
    p < |lines| && forall k :: p < k < i ==> rules.fence(lines[k]) != rules.fence(lines[p])
  }

  /** A fence line below the front matter that no block opened before it reaches. */
  ghost predicate Opens(rules: Rules, lines: seq<string>, o: nat)
    requires o < |lines|
    decreases o
  {
    && rules.fence(lines[o]).Some? && !InFrontMatter(rules, lines, o)
    && forall p: nat :: p < o && Opens(rules, lines, p) ==> !Reaches(rules, lines, p, o)
  }

  /** A block opened by line `p` holds line `i`, its own fences included. */
  ghost predicate Holds(rules: Rules, lines: seq<string>, p: nat, i: nat)
    requires i <= |lines|
  {
    p <= i && p < |lines| && Opens(rules, lines, p) && Reaches(rules, lines, p, i)
  }

  /** The block open before line `i`, by the line that opened it. */
  ghost predicate OpenedBy(rules: Rules, lines: seq<string>, i: nat, fence: Option<char>)
    requires i <= |lines|
  {
    if fence.None? then forall p: nat :: p < i ==> !Holds(rules, lines, p, i)
    else exists p: nat :: p < i && Holds(rules, lines, p, i) && rules.fence(lines[p]) == fence
  }

  lemma {:induction false} NotOpenedInside(rules: Rules, lines: seq<string>, p: nat, q: nat, i: nat)
    requires p < q < i <= |lines| && Holds(rules, lines, p, i)
    ensures !Holds(rules, lines, q, i)
  {
    assert Reaches(rules, lines, p, q);
  }

  lemma {:induction false} OpensHere(rules: Rules, lines: seq<string>, j: nat)
    requires j < |lines| && rules.fence(lines[j]).Some? && !InFrontMatter(rules, lines, j) && OpenedBy(rules, lines, j, None)
    ensures Holds(rules, lines, j, j) && Holds(rules, lines, j, j + 1)
  {
    forall p: nat | p < j && Opens(rules, lines, p) ensures !Reaches(rules, lines, p, j) {
      assert !Holds(rules, lines, p, j);
    }
  }

  /** What line `j` does to the block open before it. */
  lemma {:induction false} FenceNext(rules: Rules, lines: seq<string>, j: nat, before: Option<char>)
    requires j < |lines| && !InFrontMatter(rules, lines, j) && OpenedBy(rules, lines, j, before)
    ensures var here := rules.fence(lines[j]);
            OpenedBy(rules, lines, j + 1, if before.None? then here else if here == before then None else before)
  {
    var here := rules.fence(lines[j]);
    HoldsLess(rules, lines, j);
    if before.None? {
      if here.Some? { OpensHere(rules, lines, j); } else { NoneOpens(rules, lines, j); }
    } else {
      var p: nat :| p < j && Holds(rules, lines, p, j) && rules.fence(lines[p]) == before;
      if here == before {
        FenceCloses(rules, lines, p, j);
      } else {
        assert Holds(rules, lines, p, j + 1);
      }
    }
  }

  lemma {:induction false} NoneOpens(rules: Rules, lines: seq<string>, j: nat)
    requires j < |lines| && rules.fence(lines[j]).None? && OpenedBy(rules, lines, j, None)
    ensures OpenedBy(rules, lines, j + 1, None)
  {
    var i := j + 1;
    HoldsLess(rules, lines, j);
    forall p: nat | p < i ensures !Holds(rules, lines, p, i) {
      if p < j { assert !Holds(rules, lines, p, j); }
    }
  }

  lemma {:induction false} HoldsLess(rules: Rules, lines: seq<string>, j: nat)
    requires j < |lines|
    ensures forall p: nat :: p < j && Holds(rules, lines, p, j + 1) ==> Holds(rules, lines, p, j)
    ensures Holds(rules, lines, j, j + 1) ==> Opens(rules, lines, j)
  {
  }

  lemma {:induction false} FenceCloses(rules: Rules, lines: seq<string>, p: nat, j: nat)
    requires p < j < |lines| && Holds(rules, lines, p, j) && rules.fence(lines[j]) == rules.fence(lines[p])
    ensures OpenedBy(rules, lines, j + 1, None)
  {
    HoldsLess(rules, lines, j);
    var i := j + 1;
    forall q: nat | q < i ensures !Holds(rules, lines, q, i) {
      if q == p {
        assert !Reaches(rules, lines, p, i);
      } else if q == j {
        assert !Opens(rules, lines, j);
      } else if q < p {
        if Holds(rules, lines, q, j) { NotOpenedInside(rules, lines, q, p, j); }
      } else {
        NotOpenedInside(rules, lines, p, q, j);
      }
    }
  }

  lemma {:induction false} FenceTold(rules: Rules, lines: seq<string>, i: nat)
    requires Start(rules, lines) <= i <= |lines|
    ensures OpenedBy(rules, lines, i, FenceAt(rules, lines, i))
    decreases i
  {
    if i == Start(rules, lines) {
      forall p: nat | p < i ensures !Holds(rules, lines, p, i) { StartsAfterFrontMatter(rules, lines, p); }
    } else {
      FenceTold(rules, lines, i - 1);
      StartsAfterFrontMatter(rules, lines, i - 1);
      FenceNext(rules, lines, i - 1, FenceAt(rules, lines, i - 1));
    }
  }

  /** A line is kept exactly when it is in the closed front matter or in a fenced block, fences included. */
  lemma {:induction false} KeptExactly(rules: Rules, lines: seq<string>, i: nat)
    requires i < |lines|
    ensures Skipped(rules, lines, i) <==> InFrontMatter(rules, lines, i) || exists p: nat :: p <= i && Holds(rules, lines, p, i)
  {
    StartsAfterFrontMatter(rules, lines, i);
    if Start(rules, lines) <= i {
      FenceTold(rules, lines, i);
      if FenceAt(rules, lines, i).None? && rules.fence(lines[i]).Some? { OpensHere(rules, lines, i); }
    }
  }

  // ----- Peeling -----

  /** Cuts at the end of a text's first `n` characters, each a match of the trailing pattern, until there is none. */
  predicate TrailCuts(rules: Rules, line: string, n: nat, cuts: seq<nat>) {
    && cuts != [] && cuts[0] == n
    && (forall k :: 0 <= k < |cuts| ==> cuts[k] <= |line|)
    && (forall k :: 0 < k < |cuts| ==> cuts[k] < cuts[k - 1] == cuts[k] + rules.trailing(line[..cuts[k - 1]]))
    && rules.trailing(line[..cuts[|cuts| - 1]]) == 0
  }

  /** Cuts at the beginning of a text from `n` on, each a match of the leading pattern, until there is none. */
  predicate LeadCuts(rules: Rules, body: string, n: nat, cuts: seq<nat>) {
    && cuts != [] && cuts[0] == n
    && (forall k :: 0 <= k < |cuts| ==> cuts[k] <= |body|)
    && (forall k :: 0 < k < |cuts| ==> cuts[k - 1] < cuts[k] == cuts[k - 1] + rules.leading(body[cuts[k - 1]..]))
    && rules.leading(body[cuts[|cuts| - 1]..]) == 0
  }

  function Last(cuts: seq<nat>): nat
    requires cuts != []
  {
    cuts[|cuts| - 1]
  }

  lemma {:induction false} NoCut(rules: Rules, s: string, n: nat)
    requires n <= |s|
    ensures rules.trailing(s[..n]) == 0 ==> TrailCuts(rules, s, n, [n]) && Trail(rules, s[..n]) == 0
    ensures rules.leading(s[n..]) == 0 ==> LeadCuts(rules, s, n, [n]) && Head(rules, s[n..]) == 0
  {
  }

  lemma {:induction false} OneTrailCut(rules: Rules, line: string, n: nat, m: nat, more: seq<nat>)
    requires n <= |line| && 0 < m == rules.trailing(line[..n]) && m <= n && TrailCuts(rules, line, n - m, more)
    ensures TrailCuts(rules, line, n, [n] + more) && Last([n] + more) == Last(more)
  {
    var cuts := [n] + more;
    assert forall k :: 0 < k < |cuts| ==> cuts[k] == more[k - 1];
    forall k | 0 < k < |cuts| ensures cuts[k] < cuts[k - 1] == cuts[k] + rules.trailing(line[..cuts[k - 1]]) {
      if k > 1 { assert more[k - 1] < more[k - 2] == more[k - 1] + rules.trailing(line[..more[k - 2]]); }
    }
  }

  lemma {:induction false} OneLeadCut(rules: Rules, body: string, n: nat, m: nat, more: seq<nat>)
    requires n <= |body| && 0 < m == rules.leading(body[n..]) && LeadCuts(rules, body, n + m, more)
    ensures LeadCuts(rules, body, n, [n] + more) && Last([n] + more) == Last(more)
  {
    var cuts := [n] + more;
    assert forall k :: 0 < k < |cuts| ==> cuts[k] == more[k - 1];
    forall k | 0 < k < |cuts| ensures cuts[k - 1] < cuts[k] == cuts[k - 1] + rules.leading(body[cuts[k - 1]..]) {
      if k > 1 { assert more[k - 2] < more[k - 1] == more[k - 2] + rules.leading(body[more[k - 2]..]); }
    }
  }

  lemma {:induction false} TrailNext(rules: Rules, line: string, n: nat, m: nat)
    requires n <= |line| && 0 < m == rules.trailing(line[..n])
    ensures m <= n && Trail(rules, line[..n]) == m + Trail(rules, line[..n - m])
  {
    assert line[..n][..n - m] == line[..n - m];
  }

  lemma {:induction false} HeadNext(rules: Rules, body: string, n: nat, m: nat)
    requires n <= |body| && 0 < m == rules.leading(body[n..])
    ensures n + m <= |body| && Head(rules, body[n..]) == m + Head(rules, body[n + m..])
  {
    assert body[n..][m..] == body[n + m..];
  }

  lemma {:induction false} TrailFrom(rules: Rules, line: string, n: nat) returns (cuts: seq<nat>)
    requires n <= |line|
    ensures TrailCuts(rules, line, n, cuts) && Last(cuts) == n - Trail(rules, line[..n])
    decreases n
  {
    var m := rules.trailing(line[..n]);
    if m == 0 {
      NoCut(rules, line, n);
      cuts := [n];
    } else {
      TrailNext(rules, line, n, m);
      var more := TrailFrom(rules, line, n - m);
      OneTrailCut(rules, line, n, m, more);
      cuts := [n] + more;
    }
  }

  lemma {:induction false} LeadStep(rules: Rules, body: string, n: nat, m: nat, more: seq<nat>)
    requires n + m <= |body| && 0 < m == rules.leading(body[n..])
    requires LeadCuts(rules, body, n + m, more) && Last(more) == n + m + Head(rules, body[n + m..])
    ensures LeadCuts(rules, body, n, [n] + more) && Last([n] + more) == n + Head(rules, body[n..])
  {
    HeadNext(rules, body, n, m);
    OneLeadCut(rules, body, n, m, more);
  }

  lemma {:induction false} LeadFrom(rules: Rules, body: string, n: nat) returns (cuts: seq<nat>)
    requires n <= |body|
    ensures LeadCuts(rules, body, n, cuts) && Last(cuts) == n + Head(rules, body[n..])
    decreases |body| - n
  {
    var m := rules.leading(body[n..]);
    if m == 0 {
      NoCut(rules, body, n);
      cuts := [n];
    } else {
      var more := LeadFrom(rules, body, n + m);
      LeadStep(rules, body, n, m, more);
      cuts := [n] + more;
    }
  }

  /** Where the body ends and how its prefix is made up. */
  lemma {:induction false} PeelParts(rules: Rules, line: string, body: string, h: nat)
    requires body == line[..|line| - Trail(rules, line)] && h == Head(rules, body)
    ensures var p := Peel(rules, line); p.prefix + p.core == body && |p.prefix| == h + rules.marker(body[h..])
  {
  }

  /**
   The suffix is what the trailing pattern matches again and again; of what is left, the prefix is
   what the leading pattern matches again and again, and one marker.
   */
  lemma {:induction false} PeelsAllMatches(rules: Rules, line: string) returns (ends: seq<nat>, starts: seq<nat>, body: string, h: nat)
    ensures var p := Peel(rules, line); p.prefix + p.core + p.suffix == line && p.prefix + p.core == body
    ensures TrailCuts(rules, line, |line|, ends) && |body| == Last(ends)
    ensures LeadCuts(rules, body, 0, starts) && h == Last(starts)
    ensures |Peel(rules, line).prefix| == h + rules.marker(body[h..])
  {
    PeelRejoins(rules, line);
    assert line[..|line|] == line;
    ends := TrailFrom(rules, line, |line|);
    body := line[..|line| - Trail(rules, line)];
    assert body[0..] == body;
    starts := LeadFrom(rules, body, 0);
    h := Last(starts);
    PeelParts(rules, line, body, h);
  }

  // ----- Chunks and counts -----

  /** Every chunk but the last is full. */
  lemma {:induction false} ChunkSizes<T>(items: seq<T>, step: nat)
    requires step > 0
    ensures var groups := Chunks(items, step);
            && (forall g :: 0 <= g < |groups| - 1 ==> |groups[g]| == step)
            && (forall g :: 0 <= g < |groups| ==> 0 < |groups[g]| <= step)
            && Concat(groups) == items
    decreases |items|
  {
    ConcatChunks(items, step);
    if |items| > step { ChunkSizes(items[step..], step); }
  }

  /** Attempted are the first prose lines up to a positive limit, and all of them without one. */
  lemma {:induction false} AttemptsFirst(prose: seq<Entry>, limit: int)
    ensures var tried := Attempted(prose, limit);
            && tried <= prose
            && |tried| == if limit <= 0 || limit > |prose| then |prose| else limit
  {
  }

  function Differing(a: seq<string>, b: seq<string>): set<nat>
    requires |a| == |b|
  {
    set i: nat | i < |a| && a[i] != b[i]
  }

  function Unanswered(outs: seq<Out>): set<nat> {
    set k: nat | k < |outs| && outs[k].text.None?
  }

  predicate Alters(all: seq<string>, o: Out)
    requires o.entry.index < |all|
  {
    o.text.Some? && Rebuilt(o) != all[o.entry.index]
  }

  function Altered(all: seq<string>, outs: seq<Out>): set<nat>
    requires forall k :: 0 <= k < |outs| ==> outs[k].entry.index < |all|
  {
    set k: nat | k < |outs| && Alters(all, outs[k]) :: outs[k].entry.index
  }

  lemma {:induction false} ChangedSnoc(all: seq<string>, outs: seq<Out>, o: Out)
    requires forall k :: 0 <= k < |outs| ==> outs[k].entry.index < |all|
    requires o.entry.index < |all|
    ensures forall k :: 0 <= k < |outs + [o]| ==> (outs + [o])[k].entry.index < |all|
    ensures Changed(all, outs + [o]) == Changed(all, outs) + if Alters(all, o) then 1 else 0
    decreases |outs|
  {
    if outs == [] {
      assert [o][1..] == [];
    } else {
      assert (outs + [o])[1..] == outs[1..] + [o];
      ChangedSnoc(all, outs[1..], o);
    }
  }

  lemma {:induction false} AlteredSnoc(all: seq<string>, outs: seq<Out>, o: Out)
    requires forall k :: 0 <= k < |outs + [o]| ==> (outs + [o])[k].entry.index < |all|
    ensures forall k :: 0 <= k < |outs| ==> outs[k].entry.index < |all|
    ensures o.entry.index < |all|
    ensures Altered(all, outs + [o]) == Altered(all, outs) + if Alters(all, o) then {o.entry.index} else {}
  {
    var more := outs + [o];
    assert more[|outs|] == o && forall k :: 0 <= k < |outs| ==> more[k] == outs[k];
  }

  lemma {:induction false} AlteredCounts(all: seq<string>, outs: seq<Out>)
    requires forall k :: 0 <= k < |outs| ==> outs[k].entry.index < |all|
    requires forall j, k :: 0 <= j < k < |outs| ==> outs[j].entry.index < outs[k].entry.index
    ensures |Altered(all, outs)| == Changed(all, outs)
    decreases |outs|
  {
    if outs == [] {
      assert Altered(all, outs) == {};
    } else {
      var n: nat := |outs| - 1;
      var init, o := outs[..n], outs[n];
      assert outs == init + [o];
      AlteredCounts(all, init);
      ChangedSnoc(all, init, o);
      AlteredSnoc(all, init, o);
      assert o.entry.index !in Altered(all, init);
    }
  }

  lemma {:induction false} AlteredDiffer(rules: Rules, all: seq<string>, outs: seq<Out>)
    requires OutsFit(rules, all, outs)
    ensures |PutOuts(all, outs)| == |all| && Differing(all, PutOuts(all, outs)) == Altered(all, outs)
  {
    PutLength(all, outs);
    var now := PutOuts(all, outs);
    forall i: nat | i < |all| ensures now[i] != all[i] <==> i in Altered(all, outs) {
      if k: nat :| k < |outs| && outs[k].entry.index == i {
        PutHere(all, outs, k);
        PeelRejoins(rules, all[i]);
        assert forall j :: 0 <= j < |outs| && outs[j].entry.index == i ==> j == k;
      } else {
        PutElsewhere(all, outs, i);
      }
    }
  }

  lemma {:induction false} FallbackSnoc(outs: seq<Out>, o: Out)
    ensures Fallback(outs + [o]) == Fallback(outs) + if o.text.None? then 1 else 0
    decreases |outs|
  {
    if outs == [] {
      assert [o][1..] == [];
    } else {
      assert (outs + [o])[1..] == outs[1..] + [o];
      FallbackSnoc(outs[1..], o);
    }
  }

  lemma {:induction false} FallbackCounts(outs: seq<Out>)
    ensures |Unanswered(outs)| == Fallback(outs)
    decreases |outs|
  {
    if outs == [] {
      assert Unanswered(outs) == {};
    } else {
      var n: nat := |outs| - 1;
      FallbackCounts(outs[..n]);
      FallbackSnoc(outs[..n], outs[n]);
      assert outs == outs[..n] + [outs[n]];
      assert Unanswered(outs) == Unanswered(outs[..n]) + if outs[n].text.None? then {n} else {};
    }
  }

  /** The counters are the lines that differ and the attempted lines without an answer. */
  lemma {:induction false} CountersTold(rules: Rules, content: string, limit: int, size: int, answers: nat -> Answer)
    ensures var lines := SplitLines(content);
            var outs, now := Outs(rules, lines, limit, size, answers), Rewritten(rules, content, limit, size, answers);
            && OutsFit(rules, lines, outs) && |now| == |lines|
            && Changed(lines, outs) == |Differing(lines, now)|
            && Fallback(outs) == |Unanswered(outs)|
  {
    var lines := SplitLines(content);
    OutsFromLines(rules, lines, limit, size, answers);
    AlteredCounts(lines, Outs(rules, lines, limit, size, answers));
    AlteredDiffer(rules, lines, Outs(rules, lines, limit, size, answers));
    FallbackCounts(Outs(rules, lines, limit, size, answers));
  }

  // ----- Whose answer a line gets -----

  /** How often `step` goes into `k`. */
  predicate Quotient(k: nat, step: nat, q: nat) {
    q * step <= k < q * step + step
  }

  /** Outcome `k` is of item `k`, with what the answer has for its line. */
  predicate Gets(outs: seq<Out>, items: seq<Entry>, k: nat, answer: Answer) {
    && k < |outs| == |items| && outs[k].entry == items[k]
    && outs[k].text == match answer
                       case None => None
                       case Some(texts) => if items[k].index in texts then Some(texts[items[k].index]) else None
  }

  lemma {:induction false} ChunkAnswers(items: seq<Entry>, step: nat, answers: nat -> Answer, g: nat, k: nat, q: nat)
    requires step > 0 && k < |items| && Quotient(k, step, q)
    ensures Gets(Resolved(Chunks(items, step), answers, g), items, k, answers(g + q))
    decreases |items|
  {
    var groups := Chunks(items, step);
    ConcatChunks(items, step);
    ResolvedEntries(groups, answers, g);
    if k < step {
      FirstQuotient(k, step, q);
    } else {
      assert groups[1..] == Chunks(items[step..], step);
      NextQuotient(k, step, q);
      ChunkAnswers(items[step..], step, answers, g + 1, k - step, q - 1);
    }
  }

  lemma {:induction false} AtLeastOnce(q: nat, step: nat)
    ensures q * step == 0 || q * step >= step
  {
    if q > 0 { assert q * step == (q - 1) * step + step; }
  }

  lemma {:induction false} FirstQuotient(k: nat, step: nat, q: nat)
    requires Quotient(k, step, q) && k < step
    ensures q == 0
  {
    AtLeastOnce(q, step);
  }

  lemma {:induction false} NextQuotient(k: nat, step: nat, q: nat)
    requires Quotient(k, step, q) && k >= step
    ensures q >= 1 && Quotient(k - step, step, q - 1)
  {
    assert q * step == (q - 1) * step + step;
  }

  /** Attempted line `k` gets what the call of its chunk answers for it: chunk `k / size`, or `k` for sizes below one. */
  lemma {:induction false} LineGetsItsAnswer(rules: Rules, lines: seq<string>, limit: int, size: int, answers: nat -> Answer, k: nat, q: nat)
    requires k < |Tried(rules, lines, limit)| && Quotient(k, if size < 1 then 1 else size, q)
    ensures Gets(Outs(rules, lines, limit, size, answers), Tried(rules, lines, limit), k, answers(q))
  {
    ChunkAnswers(Tried(rules, lines, limit), if size < 1 then 1 else size, answers, 0, k, q);
  }

  /** The attempted lines of a file. */
  function Tried(rules: Rules, lines: seq<string>, limit: int): seq<Entry> {
    Attempted(Prose(rules, lines, |lines|), limit)
  }

  // ----- Lines of a file -----

  lemma {:induction false} UntilIs(s: string)
    ensures '\n' !in s[..Until(s)]
    decreases |s|
  {
    if s != "" && s[0] != '\n' {
      UntilIs(s[1..]);
      assert s[..Until(s)] == [s[0]] + s[1..][..Until(s[1..])];
    }
  }

  /** A file is cut at every line break: joined again the lines are the file, and none has a break in it. */
  lemma {:induction false} CutAtEveryBreak(s: string)
    ensures JoinLines(SplitLines(s)) == s
    ensures forall i :: 0 <= i < |SplitLines(s)| ==> '\n' !in SplitLines(s)[i]
    decreases |s|
  {
    JoinSplit(s);
    UntilIs(s);
    var n := Until(s);
    if n < |s| { CutAtEveryBreak(s[n + 1..]); } else { assert s[..n] == s; }
  }

  /** Two lists of lines joined are joined by one break. */
  lemma {:induction false} JoinIs(a: seq<string>, b: seq<string>)
    requires a != [] && b != []
    ensures JoinLines(a + b) == JoinLines(a) + "\n" + JoinLines(b) && JoinLines([a[0]]) == a[0]
    decreases |a|
  {
    if |a| == 1 {
      assert (a + b)[1..] == b && a == [a[0]];
    } else {
      assert (a + b)[1..] == a[1..] + b;
      JoinIs(a[1..], b);
      Associates(a[0], JoinLines(a[1..]), JoinLines(b));
    }
  }

  lemma {:induction false} Associates(x: string, y: string, z: string)
    ensures x + "\n" + (y + "\n" + z) == x + "\n" + y + "\n" + z
  {
  }
}
