/**
 Rewriting the prose lines of a prompt file. Which lines are prose, where a line's verbatim ends
 lie and what the rewriter answers are all left open; what is shown is that nothing else changes.
 */
module PromptRewrite {
  import opened Wrappers

  /** The length of the match of a pattern at one end of a string; 0 when there is none. */
  type Pattern = f: string -> nat | forall s :: f(s) <= |s| witness (s: string) => 0

  /** How single lines are told apart. */
  datatype Rules = Rules(
    trailing: Pattern, leading: Pattern, marker: Pattern,
    isRule: string -> bool, fence: string -> Option<char>, isVerbatim: string -> bool, isBlank: string -> bool)

  // ----- Lines of a file -----

  function Until(s: string): (n: nat)
    ensures n <= |s| && (n < |s| ==> s[n] == '\n')
  {
    if s == "" || s[0] == '\n' then 0 else 1 + Until(s[1..])
  }

  /** There is always a line: an empty file has one empty line. */
  function SplitLines(s: string): (lines: seq<string>)
    ensures lines != []
    decreases |s|
  {
    var n := Until(s);
    if n == |s| then [s] else [s[..n]] + SplitLines(s[n + 1..])
  }

  function JoinLines(lines: seq<string>): string
    requires lines != []
  {
    if |lines| == 1 then lines[0] else lines[0] + "\n" + JoinLines(lines[1..])
  }

  lemma {:induction false} CutAt(s: string, n: nat)
    requires n < |s| && s[n] == '\n'
    ensures s[..n] + "\n" + s[n + 1..] == s
  {
  }

  lemma {:induction false} JoinSplit(s: string)
    ensures JoinLines(SplitLines(s)) == s
    decreases |s|
  {
    var n := Until(s);
    if n < |s| {
      var line, rest := s[..n], s[n + 1..];
      JoinSplit(rest);
      JoinFirst(line, SplitLines(rest));
      CutAt(s, n);
    }
  }

  lemma {:induction false} JoinFirst(line: string, rest: seq<string>)
    requires rest != []
    ensures JoinLines([line] + rest) == line + "\n" + JoinLines(rest)
  {
    assert ([line] + rest)[1..] == rest;
  }

  // ----- Peeling a line -----

  datatype Peeled = Peeled(prefix: string, core: string, suffix: string)

  function Trail(rules: Rules, s: string): (n: nat)
    ensures n <= |s|
    decreases |s|
  {
    var m := rules.trailing(s);
    if m == 0 then 0 else m + Trail(rules, s[..|s| - m])
  }

  function Head(rules: Rules, s: string): (n: nat)
    ensures n <= |s|
    decreases |s|
  {
    var m := rules.leading(s);
    if m == 0 then 0 else m + Head(rules, s[m..])
  }

  function Peel(rules: Rules, line: string): Peeled {
    var body := line[..|line| - Trail(rules, line)];
    var h := Head(rules, body);
    var start := h + rules.marker(body[h..]);
    Peeled(body[..start], body[start..], line[|body|..])
  }

  method StripTrailing(rules: Rules, line: string) returns (s: string, suffix: string)
    ensures s + suffix == line && |s| == |line| - Trail(rules, line)
  {
    s, suffix := line, "";
    while rules.trailing(s) > 0
      invariant s + suffix == line && |line| - Trail(rules, line) == |s| - Trail(rules, s)
      decreases |s|
    {
      var m := rules.trailing(s);
      assert s == s[..|s| - m] + s[|s| - m..];
      suffix := s[|s| - m..] + suffix;
      s := s[..|s| - m];
    }
  }

  method StripLeading(rules: Rules, body: string) returns (prefix: string, s: string)
    ensures prefix + s == body && |prefix| == Head(rules, body)
  {
    prefix, s := "", body;
    while rules.leading(s) > 0
      invariant prefix + s == body && Head(rules, body) == |prefix| + Head(rules, s)
      decreases |s|
    {
      var m := rules.leading(s);
      assert s == s[..m] + s[m..];
      prefix := prefix + s[..m];
      s := s[m..];
    }
  }

  lemma {:induction false} PeelIs(rules: Rules, line: string, body: string, prefix: string, s: string, suffix: string)
    requires body + suffix == line && |body| == |line| - Trail(rules, line)
    requires prefix + s == body && |prefix| == Head(rules, body)
    ensures rules.marker(s) <= |s|
    ensures Peel(rules, line) == Peeled(prefix + s[..rules.marker(s)], s[rules.marker(s)..], suffix)
  {
    assert body == line[..|body|] && suffix == line[|body|..] && s == body[|prefix|..];
    var m := rules.marker(s);
    assert prefix + s[..m] == body[..|prefix| + m] && s[m..] == body[|prefix| + m..];
  }

  method PeelLine(rules: Rules, line: string) returns (p: Peeled)
    ensures p == Peel(rules, line)
  {
    var body, suffix := StripTrailing(rules, line);
    var prefix, s := StripLeading(rules, body);
    PeelIs(rules, line, body, prefix, s, suffix);
    var m := rules.marker(s);
    p := Peeled(prefix + s[..m], s[m..], suffix);
  }

  /** The three parts are the line. */
  lemma {:induction false} PeelRejoins(rules: Rules, line: string)
    ensures var p := Peel(rules, line); p.prefix + p.core + p.suffix == line
  {
  }

  // ----- Blocks that are kept -----

  function FirstRule(rules: Rules, lines: seq<string>, from: nat): (n: nat)
    requires from <= |lines|
    ensures from <= n <= |lines|
    decreases |lines| - from
  {
    if from == |lines| || rules.isRule(lines[from]) then from else FirstRule(rules, lines, from + 1)
  }

  /** Where the lines after a closed frontmatter begin. */
  function Start(rules: Rules, lines: seq<string>): (n: nat)
    ensures n <= |lines|
  {
    if lines != [] && rules.isRule(lines[0]) && FirstRule(rules, lines, 1) < |lines| then FirstRule(rules, lines, 1) + 1 else 0
  }

  /** The fence that is open before line `i`. */
  function FenceAt(rules: Rules, lines: seq<string>, i: nat): Option<char>
    requires Start(rules, lines) <= i <= |lines|
  {
    if i == Start(rules, lines) then None
    else
      var before, here := FenceAt(rules, lines, i - 1), rules.fence(lines[i - 1]);
      if before.None? then here else if here == before then None else before
  }

  predicate Skipped(rules: Rules, lines: seq<string>, i: nat)
    requires i < |lines|
  {
    i < Start(rules, lines) || FenceAt(rules, lines, i).Some? || rules.fence(lines[i]).Some?
  }

  /** The line after the frontmatter that the file opens with, if it is closed. */
  method FrontmatterEnd(rules: Rules, lines: seq<string>) returns (start: nat)
    ensures start == Start(rules, lines)
  {
    start := 0;
    if |lines| > 0 && rules.isRule(lines[0]) {
      var close := 1;
      while close < |lines| && !rules.isRule(lines[close])
        invariant 1 <= close <= |lines| && FirstRule(rules, lines, 1) == FirstRule(rules, lines, close)
      {
        close := close + 1;
      }
      if close < |lines| { start := close + 1; }
    }
  }

  method BlockSkipMask(rules: Rules, lines: seq<string>) returns (skip: array<bool>)
    ensures fresh(skip) && skip.Length == |lines|
    ensures forall i :: 0 <= i < |lines| ==> skip[i] == Skipped(rules, lines, i)
  {
    skip := new bool[|lines|](_ => false);
    var start := FrontmatterEnd(rules, lines);
    var i := 0;
    while i < start
      invariant i <= start && forall k :: 0 <= k < |lines| ==> skip[k] == (k < i)
    {
      skip[i] := true;
      i := i + 1;
    }
    MarkFences(rules, lines, start, skip);
  }

  method MarkFences(rules: Rules, lines: seq<string>, start: nat, skip: array<bool>)
    requires start == Start(rules, lines) && skip.Length == |lines|
    requires forall k :: 0 <= k < |lines| ==> skip[k] == (k < start)
    modifies skip
    ensures forall i :: 0 <= i < |lines| ==> skip[i] == Skipped(rules, lines, i)
  {
    var fence: Option<char> := None;
    var i := start;
    while i < |lines|
      invariant start <= i <= |lines| && fence == FenceAt(rules, lines, i)
      invariant forall k :: 0 <= k < i ==> skip[k] == Skipped(rules, lines, k)
      invariant forall k :: i <= k < |lines| ==> !skip[k]
    {
      var m := rules.fence(lines[i]);
      ghost var skipped := Skipped(rules, lines, i);
      if fence.None? {
        if m.Some? {
          fence := m;
          skip[i] := true;
        }
      } else {
        skip[i] := true;
        if m == fence { fence := None; }
      }
      assert skip[i] == skipped;
      i := i + 1;
    }
  }

  /** A fenced block is kept from its opening line to the first line that repeats its fence. */
  lemma {:induction false} FencedBlockKept(rules: Rules, lines: seq<string>, i: nat, j: nat)
    requires Start(rules, lines) <= i < |lines| && FenceAt(rules, lines, i).None? && rules.fence(lines[i]).Some?
    requires i <= j < |lines| && forall k :: i < k < j ==> rules.fence(lines[k]) != rules.fence(lines[i])
    ensures Skipped(rules, lines, j) && (i < j ==> FenceAt(rules, lines, j) == rules.fence(lines[i]))
    decreases j - i
  {
    if i < j { FencedBlockKept(rules, lines, i, j - 1); }
  }

  // ----- The plan -----

  datatype Entry = Entry(index: nat, peeled: Peeled)

  predicate IsProse(rules: Rules, lines: seq<string>, i: nat)
    requires i < |lines|
  {
    !Skipped(rules, lines, i) && !rules.isVerbatim(lines[i]) && !rules.isBlank(Peel(rules, lines[i]).core)
  }

  function Prose(rules: Rules, lines: seq<string>, n: nat): seq<Entry>
    requires n <= |lines|
  {
    if n == 0 then [] else Prose(rules, lines, n - 1) + EntryOf(rules, lines, n - 1)
  }

  /** The entry of one line, if it is prose. */
  function EntryOf(rules: Rules, lines: seq<string>, i: nat): seq<Entry>
    requires i < |lines|
  {
    if IsProse(rules, lines, i) then [Entry(i, Peel(rules, lines[i]))] else []
  }

  method PlanLine(rules: Rules, lines: seq<string>, i: nat, skipped: bool) returns (e: seq<Entry>)
    requires i < |lines| && skipped == Skipped(rules, lines, i)
    ensures e == EntryOf(rules, lines, i)
  {
    e := [];
    if !skipped && !rules.isVerbatim(lines[i]) {
      var p := PeelLine(rules, lines[i]);
      if !rules.isBlank(p.core) { e := [Entry(i, p)]; }
    }
  }

  method PlanRewrite(rules: Rules, content: string) returns (lines: seq<string>, prose: seq<Entry>)
    ensures lines == SplitLines(content) && prose == Prose(rules, lines, |lines|)
  {
    lines := SplitLines(content);
    var skip := BlockSkipMask(rules, lines);
    prose := [];
    ghost var mask := skip[..];
    var i := 0;
    while i < |lines|
      invariant i <= |lines| && prose == Prose(rules, lines, i) && skip[..] == mask
    {
      assert skip[i] == mask[i];
      var e := PlanLine(rules, lines, i, skip[i]);
      prose := prose + e;
      i := i + 1;
    }
  }

  /** An entry of a plan: its line is prose, and peeled as it says. */
  predicate EntryFits(rules: Rules, lines: seq<string>, e: Entry) {
    e.index < |lines| && IsProse(rules, lines, e.index) && e.peeled == Peel(rules, lines[e.index])
  }

  predicate Rise(entries: seq<Entry>) {
    forall j, k :: 0 <= j < k < |entries| ==> entries[j].index < entries[k].index
  }

  predicate AllFit(rules: Rules, lines: seq<string>, entries: seq<Entry>) {
    forall k :: 0 <= k < |entries| ==> EntryFits(rules, lines, entries[k])
  }

  predicate FromLines(rules: Rules, lines: seq<string>, entries: seq<Entry>) {
    Rise(entries) && AllFit(rules, lines, entries)
  }

  predicate AllBelow(entries: seq<Entry>, n: nat) {
    forall k :: 0 <= k < |entries| ==> entries[k].index < n
  }

  lemma {:induction false} EntryOfFits(rules: Rules, lines: seq<string>, i: nat)
    requires i < |lines|
    ensures AllFit(rules, lines, EntryOf(rules, lines, i)) && |EntryOf(rules, lines, i)| <= 1
    ensures forall e :: e in EntryOf(rules, lines, i) ==> e.index == i
  {
  }

  lemma {:induction false} RiseOn(entries: seq<Entry>, more: seq<Entry>, n: nat)
    requires AllBelow(entries, n) && Rise(entries) && |more| <= 1 && (forall e :: e in more ==> e.index == n)
    ensures AllBelow(entries + more, n + 1) && Rise(entries + more)
  {
  }

  lemma {:induction false} FitOn(rules: Rules, lines: seq<string>, entries: seq<Entry>, more: seq<Entry>)
    requires AllFit(rules, lines, entries) && AllFit(rules, lines, more)
    ensures AllFit(rules, lines, entries + more)
  {
    var all := entries + more;
    forall k | 0 <= k < |all| ensures EntryFits(rules, lines, all[k]) {
      if k < |entries| { assert all[k] == entries[k]; } else { assert all[k] == more[k - |entries|]; }
    }
  }

  lemma {:induction false} ProseFits(rules: Rules, lines: seq<string>, n: nat)
    requires n <= |lines|
    ensures AllBelow(Prose(rules, lines, n), n) && FromLines(rules, lines, Prose(rules, lines, n))
    decreases n
  {
    if n > 0 {
      ProseFits(rules, lines, n - 1);
      EntryOfFits(rules, lines, n - 1);
      PlanOn(rules, lines, Prose(rules, lines, n - 1), EntryOf(rules, lines, n - 1), n - 1);
    }
  }

  lemma {:induction false} PlanOn(rules: Rules, lines: seq<string>, entries: seq<Entry>, more: seq<Entry>, n: nat)
    requires AllBelow(entries, n) && FromLines(rules, lines, entries)
    requires AllFit(rules, lines, more) && |more| <= 1 && (forall e :: e in more ==> e.index == n)
    ensures AllBelow(entries + more, n + 1) && FromLines(rules, lines, entries + more)
  {
    RiseOn(entries, more, n);
    FitOn(rules, lines, entries, more);
  }

  /** Every prose line is in the plan. */
  lemma {:induction false} ProseComplete(rules: Rules, lines: seq<string>, n: nat, i: nat)
    requires i < n <= |lines| && IsProse(rules, lines, i)
    ensures Entry(i, Peel(rules, lines[i])) in Prose(rules, lines, n)
    decreases n
  {
    if i < n - 1 { ProseComplete(rules, lines, n - 1, i); }
  }

  // ----- Chunks -----

  function Chunks<T>(items: seq<T>, step: nat): (groups: seq<seq<T>>)
    requires step > 0
    ensures forall g :: 0 <= g < |groups| ==> 0 < |groups[g]| <= step
    decreases |items|
  {
    if items == [] then []
    else if |items| <= step then [items]
    else [items[..step]] + Chunks(items[step..], step)
  }

  function Concat<T>(groups: seq<seq<T>>): seq<T> {
    if groups == [] then [] else groups[0] + Concat(groups[1..])
  }

  lemma {:induction false} ConcatChunks<T>(items: seq<T>, step: nat)
    requires step > 0
    ensures Concat(Chunks(items, step)) == items
    decreases |items|
  {
    if |items| > step {
      ConcatChunks(items[step..], step);
      assert ([items[..step]] + Chunks(items[step..], step))[1..] == Chunks(items[step..], step);
    } else if items != [] {
      assert [items][1..] == [];
    }
  }

  function Least(a: nat, b: nat): nat {
    if a < b then a else b
  }

  lemma {:induction false} ChunksFrom<T>(items: seq<T>, step: nat, i: nat)
    requires step > 0 && i < |items|
    ensures var end := Least(i + step, |items|);
            Chunks(items[i..], step) == [items[i..end]] + Chunks(items[end..], step)
  {
    var rest := items[i..];
    if |rest| > step {
      assert rest[..step] == items[i..i + step] && rest[step..] == items[i + step..];
    } else {
      assert items[i..|items|] == rest && items[|items|..] == [];
    }
  }

  lemma {:induction false} ChunksTurn<T>(items: seq<T>, step: nat, i: nat, groups: seq<seq<T>>, all: seq<seq<T>>)
    requires step > 0 && i < |items| && all == groups + Chunks(items[i..], step)
    ensures var end := Least(i + step, |items|);
            all == groups + [items[i..end]] + Chunks(items[end..], step)
  {
    ChunksFrom(items, step, i);
  }

  /** Fixed-size groups, cut by a rising index. */
  method Chunk<T>(items: seq<T>, size: int) returns (groups: seq<seq<T>>)
    ensures groups == Chunks(items, if size < 1 then 1 else size)
  {
    var step: nat := if size < 1 then 1 else size;
    groups := [];
    var i: nat := 0;
    ghost var all := Chunks(items, step);
    assert items[0..] == items;
    while i < |items|
      invariant all == groups + Chunks(items[Least(i, |items|)..], step)
      decreases |items| - i
    {
      ChunksTurn(items, step, i, groups, all);
      var end := Least(i + step, |items|);
      groups := groups + [items[i..end]];
      i := i + step;
      assert Least(i, |items|) == end;
    }
    assert items[Least(i, |items|)..] == [];
  }

  // ----- Putting the answers in -----

  /** What one call of the rewriter gives for a chunk; nothing when it throws. */
  type Answer = Option<map<nat, string>>

  /** An attempted line with the text answered for it, if any. */
  datatype Out = Out(entry: Entry, text: Option<string>)

  function TextFor(e: Entry, answer: Answer): Option<string> {
    if answer.Some? && e.index in answer.value then Some(answer.value[e.index]) else None
  }

  function Rebuilt(o: Out): string {
    o.entry.peeled.prefix + (if o.text.Some? then o.text.value else o.entry.peeled.core) + o.entry.peeled.suffix
  }

  function OutsOf(group: seq<Entry>, answer: Answer): seq<Out> {
    seq(|group|, k requires 0 <= k < |group| => Out(group[k], TextFor(group[k], answer)))
  }

  /** All attempted lines in order, chunk `g` answered by call `g`. */
  function Resolved(groups: seq<seq<Entry>>, answers: nat -> Answer, g: nat): seq<Out>
    decreases |groups|
  {
    if groups == [] then [] else OutsOf(groups[0], answers(g)) + Resolved(groups[1..], answers, g + 1)
  }

  function PutOuts(lines: seq<string>, outs: seq<Out>): seq<string>
    requires forall k :: 0 <= k < |outs| ==> outs[k].entry.index < |lines|
    decreases |outs|
  {
    if outs == [] then lines else PutOuts(lines[outs[0].entry.index := Rebuilt(outs[0])], outs[1..])
  }

  /** How many lines were changed, and how many kept for want of an answer. */
  function Changed(lines: seq<string>, outs: seq<Out>): nat
    requires forall k :: 0 <= k < |outs| ==> outs[k].entry.index < |lines|
  {
    if outs == [] then 0
    else (if outs[0].text.Some? && Rebuilt(outs[0]) != lines[outs[0].entry.index] then 1 else 0) + Changed(lines, outs[1..])
  }

  function Fallback(outs: seq<Out>): nat {
    if outs == [] then 0 else (if outs[0].text.None? then 1 else 0) + Fallback(outs[1..])
  }

  function Attempted(prose: seq<Entry>, limit: int): seq<Entry> {
    if 0 < limit < |prose| then prose[..limit] else prose
  }

  /** The chunks handed to the rewriter. */
  function Groups(rules: Rules, lines: seq<string>, limit: int, size: int): seq<seq<Entry>> {
    Chunks(Attempted(Prose(rules, lines, |lines|), limit), if size < 1 then 1 else size)
  }

  function Outs(rules: Rules, lines: seq<string>, limit: int, size: int, answers: nat -> Answer): seq<Out> {
    Resolved(Groups(rules, lines, limit, size), answers, 0)
  }

  lemma {:induction false} ResolvedEntries(groups: seq<seq<Entry>>, answers: nat -> Answer, g: nat)
    ensures var outs := Resolved(groups, answers, g);
            |outs| == |Concat(groups)| && forall k :: 0 <= k < |outs| ==> outs[k].entry == Concat(groups)[k]
    decreases |groups|
  {
    if groups != [] { ResolvedEntries(groups[1..], answers, g + 1); }
  }

  /** The attempted lines are prose lines of the file, each once. */
  lemma {:induction false} OutsFromLines(rules: Rules, lines: seq<string>, limit: int, size: int, answers: nat -> Answer)
    ensures OutsFit(rules, lines, Outs(rules, lines, limit, size, answers))
    ensures Answers(Outs(rules, lines, limit, size, answers), Attempted(Prose(rules, lines, |lines|), limit))
  {
    ProseFits(rules, lines, |lines|);
    OutsAnswer(Attempted(Prose(rules, lines, |lines|), limit), size, answers);
  }

  /** One outcome for each attempted line, in order. */
  predicate Answers(outs: seq<Out>, tried: seq<Entry>) {
    |outs| == |tried| && forall k :: 0 <= k < |outs| ==> outs[k].entry == tried[k]
  }

  lemma {:induction false} OutsAnswer(tried: seq<Entry>, size: int, answers: nat -> Answer)
    ensures Answers(Resolved(Chunks(tried, if size < 1 then 1 else size), answers, 0), tried)
  {
    var step := if size < 1 then 1 else size;
    ConcatChunks(tried, step);
    ResolvedEntries(Chunks(tried, step), answers, 0);
  }

  predicate OutsFit(rules: Rules, lines: seq<string>, outs: seq<Out>) {
    && (forall k :: 0 <= k < |outs| ==> EntryFits(rules, lines, outs[k].entry))
    && (forall j, k :: 0 <= j < k < |outs| ==> outs[j].entry.index < outs[k].entry.index)
  }

  function Rewritten(rules: Rules, content: string, limit: int, size: int, answers: nat -> Answer): seq<string> {
    var lines := SplitLines(content);
    var outs := Outs(rules, lines, limit, size, answers);
    OutsFromLines(rules, lines, limit, size, answers);
    PutOuts(lines, outs)
  }

  lemma {:induction false} ResolvedSnoc(groups: seq<seq<Entry>>, group: seq<Entry>, answers: nat -> Answer, g: nat)
    ensures Resolved(groups + [group], answers, g) == Resolved(groups, answers, g) + OutsOf(group, answers(g + |groups|))
    decreases |groups|
  {
    if groups == [] {
      assert groups + [group] == [group];
      assert Resolved([group], answers, g) == OutsOf(group, answers(g)) + Resolved([], answers, g + 1);
    } else {
      assert (groups + [group])[1..] == groups[1..] + [group];
      ResolvedSnoc(groups[1..], group, answers, g + 1);
      var first, middle, last := OutsOf(groups[0], answers(g)), Resolved(groups[1..], answers, g + 1), OutsOf(group, answers(g + |groups|));
      assert first + (middle + last) == (first + middle) + last;
    }
  }

  /** The calls' answers in the order of the chunks, as the pool hands them back. */
  method ResolveChunks(groups: seq<seq<Entry>>, answers: nat -> Answer) returns (outs: seq<Out>)
    ensures outs == Resolved(groups, answers, 0)
  {
    outs := [];
    var g := 0;
    while g < |groups|
      invariant g <= |groups| && outs == Resolved(groups[..g], answers, 0)
    {
      assert groups[..g + 1] == groups[..g] + [groups[g]];
      ResolvedSnoc(groups[..g], groups[g], answers, 0);
      outs := outs + OutsOf(groups[g], answers(g));
      g := g + 1;
    }
    assert groups[..g] == groups;
  }

  method PutBack(all: seq<string>, outs: seq<Out>) returns (lines: seq<string>, changed: nat, fallback: nat)
    requires forall k :: 0 <= k < |outs| ==> outs[k].entry.index < |all|
    ensures lines == PutOuts(all, outs) && changed == Changed(all, outs) && fallback == Fallback(outs)
  {
    lines, changed, fallback := all, 0, 0;
    var k := 0;
    assert outs[0..] == outs;
    while k < |outs|
      invariant k <= |outs| && |lines| == |all| && PutOuts(lines, outs[k..]) == PutOuts(all, outs)
      invariant changed + Changed(all, outs[k..]) == Changed(all, outs) && fallback + Fallback(outs[k..]) == Fallback(outs)
    {
      assert outs[k..][1..] == outs[k + 1..];
      var line := Rebuilt(outs[k]);
      if outs[k].text.None? {
        fallback := fallback + 1;
      } else if line != all[outs[k].entry.index] {
        changed := changed + 1;
      }
      lines := lines[outs[k].entry.index := line];
      k := k + 1;
    }
  }

  method RewriteAll(rules: Rules, content: string, limit: int, size: int, answers: nat -> Answer)
    returns (out: string, changed: nat, fallback: nat)
    ensures Rewritten(rules, content, limit, size, answers) != []
    ensures out == JoinLines(Rewritten(rules, content, limit, size, answers))
    ensures changed == 0 ==> out == content
    ensures var outs := Outs(rules, SplitLines(content), limit, size, answers);
            OutsFit(rules, SplitLines(content), outs) && changed == Changed(SplitLines(content), outs) && fallback == Fallback(outs)
  {
    var all, prose := PlanRewrite(rules, content);
    var groups := Chunk(Attempted(prose, limit), size);
    var outs := ResolveChunks(groups, answers);
    OutsFromLines(rules, all, limit, size, answers);
    var lines;
    lines, changed, fallback := PutBack(all, outs);
    PutLength(all, outs);
    out := JoinLines(lines);
    if changed == 0 {
      NoneChanged(rules, all, outs);
      JoinSplit(content);
    }
  }

  // ----- What stays as it was -----

  lemma {:induction false} PutLength(lines: seq<string>, outs: seq<Out>)
    requires forall k :: 0 <= k < |outs| ==> outs[k].entry.index < |lines|
    ensures |PutOuts(lines, outs)| == |lines|
    decreases |outs|
  {
    if outs != [] { PutLength(lines[outs[0].entry.index := Rebuilt(outs[0])], outs[1..]); }
  }

  lemma {:induction false} PutElsewhere(lines: seq<string>, outs: seq<Out>, i: nat)
    requires forall k :: 0 <= k < |outs| ==> outs[k].entry.index < |lines| && outs[k].entry.index != i
    requires i < |lines|
    ensures |PutOuts(lines, outs)| == |lines| && PutOuts(lines, outs)[i] == lines[i]
    decreases |outs|
  {
    if outs != [] { PutElsewhere(lines[outs[0].entry.index := Rebuilt(outs[0])], outs[1..], i); }
  }

  lemma {:induction false} PutHere(lines: seq<string>, outs: seq<Out>, k: nat)
    requires forall j :: 0 <= j < |outs| ==> outs[j].entry.index < |lines|
    requires forall i, j :: 0 <= i < j < |outs| ==> outs[i].entry.index < outs[j].entry.index
    requires k < |outs|
    ensures |PutOuts(lines, outs)| == |lines| && PutOuts(lines, outs)[outs[k].entry.index] == Rebuilt(outs[k])
    decreases |outs|
  {
    var next := lines[outs[0].entry.index := Rebuilt(outs[0])];
    if k == 0 { PutElsewhere(next, outs[1..], outs[0].entry.index); } else { PutHere(next, outs[1..], k - 1); }
  }

  lemma {:induction false} NoneChangedFrom(all: seq<string>, lines: seq<string>, outs: seq<Out>)
    requires |lines| == |all| && forall k :: 0 <= k < |outs| ==> outs[k].entry.index < |all|
    requires forall k :: 0 <= k < |outs| && outs[k].text.None? ==> Rebuilt(outs[k]) == all[outs[k].entry.index]
    requires lines == all && Changed(all, outs) == 0
    ensures PutOuts(lines, outs) == all
    decreases |outs|
  {
    if outs != [] { NoneChangedFrom(all, lines[outs[0].entry.index := Rebuilt(outs[0])], outs[1..]); }
  }

  lemma {:induction false} NoneChanged(rules: Rules, all: seq<string>, outs: seq<Out>)
    requires OutsFit(rules, all, outs) && Changed(all, outs) == 0
    ensures PutOuts(all, outs) == all
  {
    forall k | 0 <= k < |outs| && outs[k].text.None? ensures Rebuilt(outs[k]) == all[outs[k].entry.index] {
      PeelRejoins(rules, all[outs[k].entry.index]);
    }
    NoneChangedFrom(all, all, outs);
  }

  /** A line outside the attempted prose is what it was, whatever the calls answer. */
  lemma {:induction false} UnselectedStays(rules: Rules, content: string, limit: int, size: int, answers: nat -> Answer, i: nat)
    requires i < |SplitLines(content)|
    requires forall k :: 0 <= k < |Attempted(Prose(rules, SplitLines(content), |SplitLines(content)|), limit)| ==>
               Attempted(Prose(rules, SplitLines(content), |SplitLines(content)|), limit)[k].index != i
    ensures |Rewritten(rules, content, limit, size, answers)| == |SplitLines(content)|
    ensures Rewritten(rules, content, limit, size, answers)[i] == SplitLines(content)[i]
  {
    var lines := SplitLines(content);
    OutsFromLines(rules, lines, limit, size, answers);
    PutElsewhere(lines, Outs(rules, lines, limit, size, answers), i);
  }

  /**
   An attempted line is its verbatim ends around the answered text, taken as it is; without an
   answer, because it is missing or its chunk's call threw, it is what it was.
   */
  lemma {:induction false} AttemptedLine(rules: Rules, content: string, limit: int, size: int, answers: nat -> Answer, k: nat)
    requires k < |Outs(rules, SplitLines(content), limit, size, answers)|
    ensures var lines, o := SplitLines(content), Outs(rules, SplitLines(content), limit, size, answers)[k];
            && o.entry.index < |lines| == |Rewritten(rules, content, limit, size, answers)|
            && o.entry.peeled.prefix + o.entry.peeled.core + o.entry.peeled.suffix == lines[o.entry.index]
            && Rewritten(rules, content, limit, size, answers)[o.entry.index] ==
               if o.text.None? then lines[o.entry.index]
               else o.entry.peeled.prefix + o.text.value + o.entry.peeled.suffix
  {
    var lines := SplitLines(content);
    var outs := Outs(rules, lines, limit, size, answers);
    OutsFromLines(rules, lines, limit, size, answers);
    PutHere(lines, outs, k);
    PeelRejoins(rules, lines[outs[k].entry.index]);
  }

  lemma {:induction false} SilentCalls(groups: seq<seq<Entry>>, answers: nat -> Answer, g: nat)
    requires forall h :: answers(h).None?
    ensures forall k :: 0 <= k < |Resolved(groups, answers, g)| ==> Resolved(groups, answers, g)[k].text.None?
    decreases |groups|
  {
    if groups != [] { SilentCalls(groups[1..], answers, g + 1); }
  }

  lemma {:induction false} ChangesNothing(all: seq<string>, outs: seq<Out>)
    requires forall k :: 0 <= k < |outs| ==> outs[k].entry.index < |all| && Rebuilt(outs[k]) == all[outs[k].entry.index]
    ensures Changed(all, outs) == 0
    decreases |outs|
  {
    if outs != [] { ChangesNothing(all, outs[1..]); }
  }

  /** A rewriter that answers every line it is asked for with the text it was given, or not at all. */
  predicate Echoes(outs: seq<Out>) {
    forall k :: 0 <= k < |outs| ==> outs[k].text.None? || outs[k].text.value == outs[k].entry.peeled.core
  }

  /** An echoing rewriter reproduces the file, and so does one whose every call throws. */
  lemma {:induction false} EchoReproduces(rules: Rules, content: string, limit: int, size: int, answers: nat -> Answer)
    requires Echoes(Outs(rules, SplitLines(content), limit, size, answers)) || forall h :: answers(h).None?
    ensures Rewritten(rules, content, limit, size, answers) == SplitLines(content)
    ensures JoinLines(Rewritten(rules, content, limit, size, answers)) == content
  {
    var lines := SplitLines(content);
    var outs := Outs(rules, lines, limit, size, answers);
    OutsFromLines(rules, lines, limit, size, answers);
    if forall h :: answers(h).None? {
      SilentCalls(Groups(rules, lines, limit, size), answers, 0);
    }
    forall k | 0 <= k < |outs| ensures Rebuilt(outs[k]) == lines[outs[k].entry.index] {
      PeelRejoins(rules, lines[outs[k].entry.index]);
    }
    ChangesNothing(lines, outs);
    NoneChanged(rules, lines, outs);
    JoinSplit(content);
  }
}
