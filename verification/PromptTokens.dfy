/**
 Fragile tokens of a prompt: code spans, tags, links and template expressions. `rewriteAll` takes
 whatever text it is answered, so a line keeps its tokens exactly when its answer does; the
 repository's own rewriter asks again, and in the end drops, answers that lose one.
 */
module PromptTokens {
  import opened Wrappers
  import opened PromptRewrite

  // ----- Tokens of a text -----

  /** A stretch of a text. */
  datatype Match = Match(start: nat, end: nat)

  predicate InOrder(matches: seq<Match>, length: nat) {
    && (forall i :: 0 <= i < |matches| ==> matches[i].start < matches[i].end <= length)
    && (forall i, j :: 0 <= i < j < |matches| ==> matches[i].end <= matches[j].start)
  }

  /** Where the tokens of a text are: never empty, never overlapping, from left to right. */
  type Fragile = f: string -> seq<Match> | forall s :: InOrder(f(s), |s|) witness (s: string) => []

  // ----- Whether a text keeps tokens -----

  predicate Here(s: string, i: nat, token: string) {
    i + |token| <= |s| && s[i..i + |token|] == token
  }

  /** How often `token` occurs from place `i` on, taking each from the left. */
  function Occurrences(s: string, i: nat, token: string): nat
    requires token != ""
    decreases |s| - i
  {
    if i >= |s| then 0
    else if Here(s, i, token) then 1 + Occurrences(s, i + |token|, token)
    else Occurrences(s, i + 1, token)
  }

  /** Tokens to be kept; none is empty. */
  type Wanted = tokens: seq<string> | forall k :: 0 <= k < |tokens| ==> tokens[k] != ""

  function Texts(s: string, matches: seq<Match>): Wanted
    requires InOrder(matches, |s|)
  {
    seq(|matches|, i requires 0 <= i < |matches| => s[matches[i].start..matches[i].end])
  }

  function Tokens(fragile: Fragile, s: string): Wanted {
    Texts(s, fragile(s))
  }

  /** Every token occurs at least as often as it is listed. */
  predicate Preserves(text: string, tokens: Wanted) {
    forall k :: 0 <= k < |tokens| ==> multiset(tokens)[tokens[k]] <= Occurrences(text, 0, tokens[k])
  }

  /** The check: counts what is wanted, then looks for each token that often. */
  method PreservesTokens(text: string, tokens: Wanted) returns (ok: bool)
    ensures ok <==> Preserves(text, tokens)
  {
    var want: map<string, nat> := map[];
    for i := 0 to |tokens|
      invariant want.Keys == set k | 0 <= k < i :: tokens[k]
      invariant forall t :: t in want ==> want[t] == multiset(tokens[..i])[t]
    {
      assert tokens[..i + 1] == tokens[..i] + [tokens[i]];
      want := want[tokens[i] := (if tokens[i] in want then want[tokens[i]] else 0) + 1];
    }
    assert tokens[..|tokens|] == tokens;
    var left := want.Keys;
    while left != {}
      invariant left <= want.Keys
      invariant forall t :: t in want && t !in left ==> want[t] <= Occurrences(text, 0, t)
    {
      var t :| t in left;
      var n := CountOccurrences(text, t);
      if n < want[t] { return false; }
      left := left - {t};
    }
    return true;
  }

  /** The number of pieces a split gives, less one. */
  method CountOccurrences(text: string, token: string) returns (n: nat)
    requires token != ""
    ensures n == Occurrences(text, 0, token)
  {
    n := 0;
    var i := 0;
    while i < |text|
      invariant n + Occurrences(text, i, token) == Occurrences(text, 0, token)
      decreases |text| - i
    {
      if Here(text, i, token) {
        n, i := n + 1, i + |token|;
      } else {
        i := i + 1;
      }
    }
  }

  function Counted(s: string, matches: seq<Match>, token: string): nat
    requires InOrder(matches, |s|)
  {
    if matches == [] then 0
    else (if s[matches[0].start..matches[0].end] == token then 1 else 0) + Counted(s, matches[1..], token)
  }

  /** Those of the places that hold `token` begin at `i` or later. */
  predicate From(s: string, i: nat, matches: seq<Match>, token: string)
    requires InOrder(matches, |s|)
  {
    forall k :: 0 <= k < |matches| && s[matches[k].start..matches[k].end] == token ==> i <= matches[k].start
  }

  lemma {:induction false} RestFrom(s: string, i: nat, matches: seq<Match>, token: string)
    requires matches != [] && InOrder(matches, |s|)
    ensures InOrder(matches[1..], |s|)
    ensures From(s, i, matches, token) ==> From(s, i, matches[1..], token)
    ensures i <= matches[0].end ==> From(s, i, matches[1..], token)
  {
    var rest := matches[1..];
    forall k | 0 <= k < |rest| ensures rest[k] == matches[k + 1] && matches[0].end <= rest[k].start {
    }
  }

  /** Taking each occurrence from the left misses none: no choice of places holds more. */
  lemma {:induction false} LeftmostIsMost(s: string, i: nat, matches: seq<Match>, token: string)
    requires token != "" && InOrder(matches, |s|) && From(s, i, matches, token)
    ensures Counted(s, matches, token) <= Occurrences(s, i, token)
    decreases |s| - i, |matches|
  {
    if matches != [] {
      var first, rest, n := matches[0], matches[1..], i + |token|;
      RestFrom(s, i, matches, token);
      RestFrom(s, n, matches, token);
      if s[first.start..first.end] != token {
        LeftmostIsMost(s, i, rest, token);
      } else if !Here(s, i, token) {
        LeftmostIsMost(s, i + 1, matches, token);
      } else if n <= first.start {
        AllFrom(s, n, matches, token);
        LeftmostIsMost(s, n, matches, token);
      } else {
        LeftmostIsMost(s, n, rest, token);
      }
    }
  }

  lemma {:induction false} AllFrom(s: string, i: nat, matches: seq<Match>, token: string)
    requires matches != [] && InOrder(matches, |s|) && i <= matches[0].start
    ensures From(s, i, matches, token)
  {
  }

  lemma {:induction false} CountedIs(s: string, matches: seq<Match>, token: string)
    requires InOrder(matches, |s|)
    ensures Counted(s, matches, token) == multiset(Texts(s, matches))[token]
    decreases |matches|
  {
    if matches != [] {
      var all, rest := Texts(s, matches), Texts(s, matches[1..]);
      assert all == [all[0]] + rest;
      CountedIs(s, matches[1..], token);
    }
  }

  /** A text keeps its own tokens. */
  lemma {:induction false} OwnTokensKept(fragile: Fragile, s: string)
    ensures Preserves(s, Tokens(fragile, s))
  {
    var tokens := Tokens(fragile, s);
    forall k | 0 <= k < |tokens| ensures multiset(tokens)[tokens[k]] <= Occurrences(s, 0, tokens[k]) {
      LeftmostIsMost(s, 0, fragile(s), tokens[k]);
      CountedIs(s, fragile(s), tokens[k]);
    }
  }

  // ----- What rewriting makes of them -----

  function TokensOf(fragile: Fragile, e: Entry): Wanted {
    Tokens(fragile, e.peeled.core)
  }

  /** What the line has between its verbatim ends. */
  function Core(o: Out): string {
    if o.text.Some? then o.text.value else o.entry.peeled.core
  }

  /** Every text that stands in the file now keeps the tokens of its line. */
  predicate LinesKeep(fragile: Fragile, outs: seq<Out>) {
    forall k :: 0 <= k < |outs| ==> Preserves(Core(outs[k]), TokensOf(fragile, outs[k].entry))
  }

  /** Every text answered keeps the tokens of its line. */
  predicate GivenKeep(fragile: Fragile, outs: seq<Out>) {
    forall k :: 0 <= k < |outs| && outs[k].text.Some? ==> Preserves(outs[k].text.value, TokensOf(fragile, outs[k].entry))
  }

  lemma {:induction false} KeepIff(fragile: Fragile, outs: seq<Out>)
    ensures LinesKeep(fragile, outs) <==> GivenKeep(fragile, outs)
  {
    forall k | 0 <= k < |outs| && outs[k].text.None? ensures Preserves(Core(outs[k]), TokensOf(fragile, outs[k].entry)) {
      OwnTokensKept(fragile, outs[k].entry.peeled.core);
    }
    forall k | LinesKeep(fragile, outs) && 0 <= k < |outs| && outs[k].text.Some?
      ensures Preserves(outs[k].text.value, TokensOf(fragile, outs[k].entry))
    {
      assert Core(outs[k]) == outs[k].text.value;
    }
  }

  /**
   Every attempted line of the rewritten file is its ends around a text, and all these texts keep
   the tokens of their lines if and only if every text answered does.
   */
  lemma {:induction false} TokensKeptIff(fragile: Fragile, rules: Rules, content: string, limit: int, size: int, answers: nat -> Answer)
    ensures var lines, outs := SplitLines(content), Outs(rules, SplitLines(content), limit, size, answers);
      && |Rewritten(rules, content, limit, size, answers)| == |lines|
      && (forall k :: 0 <= k < |outs| ==> outs[k].entry.index < |lines|)
      && (forall k :: 0 <= k < |outs| ==>
            Rewritten(rules, content, limit, size, answers)[outs[k].entry.index] ==
              outs[k].entry.peeled.prefix + Core(outs[k]) + outs[k].entry.peeled.suffix)
      && (LinesKeep(fragile, outs) <==> GivenKeep(fragile, outs))
  {
    var lines, outs := SplitLines(content), Outs(rules, SplitLines(content), limit, size, answers);
    OutsFromLines(rules, lines, limit, size, answers);
    PutLength(lines, outs);
    forall k | 0 <= k < |outs|
      ensures outs[k].entry.index < |lines|
      ensures Rewritten(rules, content, limit, size, answers)[outs[k].entry.index] ==
        outs[k].entry.peeled.prefix + Core(outs[k]) + outs[k].entry.peeled.suffix
    {
      AttemptedLine(rules, content, limit, size, answers, k);
    }
    KeepIff(fragile, outs);
  }

  // ----- The repository's own rewriter -----

  datatype Item = Item(id: nat, tokens: Wanted)

  /** One attempt's reply, or that the attempt threw. */
  type Reply = Option<map<nat, string>>

  predicate Good(reply: Reply, p: Item) {
    reply.Some? && p.id in reply.value && Preserves(reply.value[p.id], p.tokens)
  }

  /** The text of the first of `n` attempts that answers for `p` and keeps its tokens. */
  function FirstGood(replies: nat -> Reply, p: Item, n: nat): Option<string> {
    if n == 0 then None
    else if FirstGood(replies, p, n - 1).Some? then FirstGood(replies, p, n - 1)
    else if Good(replies(n - 1), p) then Some(replies(n - 1).value[p.id])
    else None
  }

  predicate Batch(items: seq<Item>) {
    forall p, q :: p in items && q in items && p.id == q.id ==> p == q
  }

  /** `result` has for each of the items what `value` gives, and nothing else. */
  ghost predicate Holds(items: seq<Item>, result: map<nat, string>, value: Item -> Option<string>) {
    && (forall p :: p in items && value(p).Some? ==> p.id in result && result[p.id] == value(p).value)
    && (forall x :: x in result ==> exists p :: p in items && p.id == x && value(p).Some?)
  }

  /** After `n` attempts, of which the last has been looked through for the items of `seen`. */
  function Value(replies: nat -> Reply, n: nat, seen: seq<Item>): Item -> Option<string> {
    (p: Item) =>
      if FirstGood(replies, p, n).Some? || p !in seen || !Good(replies(n), p) then FirstGood(replies, p, n)
      else Some(replies(n).value[p.id])
  }

  /** What has an answer after `n` attempts, and what is asked again. */
  ghost predicate Progress(items: seq<Item>, replies: nat -> Reply, n: nat, result: map<nat, string>, pending: seq<Item>) {
    Holds(items, result, Value(replies, n, [])) && forall p :: p in pending <==> p in items && FirstGood(replies, p, n).None?
  }

  /** Each item has the first answer, of as many as were allowed, that keeps its tokens; or none. */
  ghost predicate Answered(items: seq<Item>, replies: nat -> Reply, retries: int, result: map<nat, string>) {
    var n: nat := if retries < 0 then 0 else retries + 1;
    && (forall p :: p in items ==> (p.id in result <==> FirstGood(replies, p, n).Some?))
    && (forall p :: p in items && p.id in result ==> result[p.id] == FirstGood(replies, p, n).value)
    && (forall x :: x in result ==> exists p :: p in items && p.id == x)
  }

  /** The retry loop: an answer is kept as soon as it keeps its tokens, and the rest is asked again. */
  method Rewrite(items: seq<Item>, replies: nat -> Reply, retries: int) returns (result: map<nat, string>)
    requires Batch(items)
    ensures Answered(items, replies, retries, result)
  {
    result := map[];
    var pending, attempt := items, 0;
    while attempt <= retries && pending != []
      invariant 0 <= attempt && (attempt <= retries + 1 || attempt == 0)
      invariant Progress(items, replies, attempt, result, pending)
      decreases retries + 1 - attempt
    {
      result, pending := Attempt(items, replies, attempt, result, pending);
      attempt := attempt + 1;
    }
    ghost var n: nat := if retries < 0 then 0 else retries + 1;
    forall p | p in items ensures FirstGood(replies, p, n) == Value(replies, attempt, [])(p) {
      if attempt < n { GoodStays(replies, p, attempt, n); }
    }
  }

  lemma {:induction false} GoodStays(replies: nat -> Reply, p: Item, m: nat, n: nat)
    requires m <= n && FirstGood(replies, p, m).Some?
    ensures FirstGood(replies, p, n) == FirstGood(replies, p, m)
    decreases n
  {
    if m < n { GoodStays(replies, p, m, n - 1); }
  }

  lemma {:induction false} HoldsPut(items: seq<Item>, result: map<nat, string>, value: Item -> Option<string>, more: Item -> Option<string>,
                                    p: Item, text: string)
    requires Batch(items) && Holds(items, result, value) && p in items && more(p) == Some(text)
    requires forall q :: q in items && q != p ==> more(q) == value(q)
    ensures Holds(items, result[p.id := text], more)
  {
    forall x | x in result && x != p.id ensures exists q :: q in items && q.id == x && more(q).Some? {
      var q :| q in items && q.id == x && value(q).Some?;
      assert more(q).Some?;
    }
  }

  lemma {:induction false} HoldsSame(items: seq<Item>, result: map<nat, string>, value: Item -> Option<string>, more: Item -> Option<string>)
    requires Holds(items, result, value) && forall q :: q in items ==> more(q) == value(q)
    ensures Holds(items, result, more)
  {
    forall x | x in result ensures exists q :: q in items && q.id == x && more(q).Some? {
      var q :| q in items && q.id == x && value(q).Some?;
      assert more(q).Some?;
    }
  }

  lemma {:induction false} LooksAt(items: seq<Item>, replies: nat -> Reply, n: nat, result: map<nat, string>, seen: seq<Item>, p: Item)
    requires Batch(items) && Holds(items, result, Value(replies, n, seen)) && p in items && FirstGood(replies, p, n).None?
    ensures Holds(items, if Good(replies(n), p) then result[p.id := replies(n).value[p.id]] else result, Value(replies, n, seen + [p]))
  {
    var value, more := Value(replies, n, seen), Value(replies, n, seen + [p]);
    assert forall q :: q in seen + [p] <==> q in seen || q == p;
    if Good(replies(n), p) {
      HoldsPut(items, result, value, more, p, replies(n).value[p.id]);
    } else {
      HoldsSame(items, result, value, more);
    }
  }

  method IsGood(reply: Reply, p: Item) returns (ok: bool)
    ensures ok <==> Good(reply, p)
  {
    if reply.None? || p.id !in reply.value { return false; }
    ok := PreservesTokens(reply.value[p.id], p.tokens);
  }

  method Attempt(items: seq<Item>, replies: nat -> Reply, n: nat, before: map<nat, string>, pending: seq<Item>)
      returns (result: map<nat, string>, still: seq<Item>)
    requires Batch(items) && Progress(items, replies, n, before, pending)
    ensures Progress(items, replies, n + 1, result, still)
  {
    result, still := before, [];
    for i := 0 to |pending|
      invariant forall p :: p in still <==> p in pending[..i] && !Good(replies(n), p)
      invariant Holds(items, result, Value(replies, n, pending[..i]))
    {
      var p := pending[i];
      assert p in pending && pending[..i + 1] == pending[..i] + [p];
      LooksAt(items, replies, n, result, pending[..i], p);
      var ok := IsGood(replies(n), p);
      if ok {
        result := result[p.id := replies(n).value[p.id]];
      } else {
        still := still + [p];
      }
    }
    assert pending[..|pending|] == pending;
    HoldsSame(items, result, Value(replies, n, pending), Value(replies, n + 1, []));
  }

  lemma {:induction false} FirstGoodKeeps(replies: nat -> Reply, p: Item, n: nat)
    ensures FirstGood(replies, p, n).Some? ==> Preserves(FirstGood(replies, p, n).value, p.tokens)
    decreases n
  {
    if n > 0 { FirstGoodKeeps(replies, p, n - 1); }
  }

  function Items(fragile: Fragile, group: seq<Entry>): seq<Item> {
    seq(|group|, k requires 0 <= k < |group| => Item(group[k].index, TokensOf(fragile, group[k])))
  }

  /** What the rewriter answers for one chunk. */
  ghost predicate OwnAnswer(fragile: Fragile, group: seq<Entry>, replies: nat -> Reply, retries: int, answer: Answer) {
    answer.Some? && Answered(Items(fragile, group), replies, retries, answer.value)
  }

  lemma {:induction false} OwnAnswerKeeps(fragile: Fragile, group: seq<Entry>, replies: nat -> Reply, retries: int, answer: Answer)
    requires OwnAnswer(fragile, group, replies, retries, answer)
    ensures GivenKeep(fragile, OutsOf(group, answer))
  {
    var outs, items := OutsOf(group, answer), Items(fragile, group);
    forall k | 0 <= k < |outs| && outs[k].text.Some? ensures Preserves(outs[k].text.value, TokensOf(fragile, outs[k].entry)) {
      assert items[k] in items && items[k].id in answer.value;
      FirstGoodKeeps(replies, items[k], if retries < 0 then 0 else retries + 1);
    }
  }

  lemma {:induction false} GivenJoin(fragile: Fragile, a: seq<Out>, b: seq<Out>)
    requires GivenKeep(fragile, a) && GivenKeep(fragile, b)
    ensures GivenKeep(fragile, a + b)
  {
    var all := a + b;
    forall k | 0 <= k < |all| && all[k].text.Some? ensures Preserves(all[k].text.value, TokensOf(fragile, all[k].entry)) {
      if k < |a| { assert all[k] == a[k]; } else { assert all[k] == b[k - |a|]; }
    }
  }

  /** Every group's answer keeps the tokens of its lines, groups counted from `g`. */
  predicate AnswersKeep(fragile: Fragile, groups: seq<seq<Entry>>, answers: nat -> Answer, g: nat) {
    forall i :: 0 <= i < |groups| ==> GivenKeep(fragile, OutsOf(groups[i], answers(g + i)))
  }

  lemma {:induction false} AnswersKeepRest(fragile: Fragile, groups: seq<seq<Entry>>, answers: nat -> Answer, g: nat)
    requires groups != [] && AnswersKeep(fragile, groups, answers, g)
    ensures AnswersKeep(fragile, groups[1..], answers, g + 1) && GivenKeep(fragile, OutsOf(groups[0], answers(g)))
  {
    assert GivenKeep(fragile, OutsOf(groups[0], answers(g + 0)));
    forall i | 0 <= i < |groups[1..]| ensures GivenKeep(fragile, OutsOf(groups[1..][i], answers(g + 1 + i))) {
      assert GivenKeep(fragile, OutsOf(groups[i + 1], answers(g + (i + 1))));
    }
  }

  lemma {:induction false} AllGivenKeep(fragile: Fragile, groups: seq<seq<Entry>>, answers: nat -> Answer, g: nat)
    requires AnswersKeep(fragile, groups, answers, g)
    ensures GivenKeep(fragile, Resolved(groups, answers, g))
    decreases |groups|
  {
    if groups != [] {
      AnswersKeepRest(fragile, groups, answers, g);
      AllGivenKeep(fragile, groups[1..], answers, g + 1);
      GivenJoin(fragile, OutsOf(groups[0], answers(g)), Resolved(groups[1..], answers, g + 1));
    }
  }

  /** With the repository's own rewriter every attempted line keeps its tokens, whatever the model replies. */
  lemma {:induction false} OwnRewriterKeeps(fragile: Fragile, rules: Rules, content: string, limit: int, size: int,
                                            replies: nat -> nat -> Reply, retries: int, answers: nat -> Answer)
    requires var groups := Groups(rules, SplitLines(content), limit, size);
      forall g :: 0 <= g < |groups| ==> OwnAnswer(fragile, groups[g], replies(g), retries, answers(g))
    ensures LinesKeep(fragile, Outs(rules, SplitLines(content), limit, size, answers))
  {
    var groups := Groups(rules, SplitLines(content), limit, size);
    forall g | 0 <= g < |groups| ensures GivenKeep(fragile, OutsOf(groups[g], answers(g))) {
      OwnAnswerKeeps(fragile, groups[g], replies(g), retries, answers(g));
    }
    AllGivenKeep(fragile, groups, answers, 0);
    KeepIff(fragile, Outs(rules, SplitLines(content), limit, size, answers));
  }

  // ----- An answer that drops a token -----

  lemma {:induction false} OneLine(line: string)
    requires '\n' !in line
    ensures SplitLines(line) == [line]
    decreases |line|
  {
    AllOneLine(line);
  }

  lemma {:induction false} AllOneLine(line: string)
    requires '\n' !in line
    ensures Until(line) == |line|
    decreases |line|
  {
    if line != "" { AllOneLine(line[1..]); }
  }

  /** A file of one prose line with a token, answered by the empty text: the token is gone from the file. */
  lemma {:induction false} DroppedToken(fragile: Fragile, rules: Rules, line: string, limit: int, size: int, answers: nat -> Answer)
    requires '\n' !in line && IsProse(rules, [line], 0) && fragile(Peel(rules, line).core) != []
    requires answers(0) == Some(map[0 := ""])
    ensures Rewritten(rules, line, limit, size, answers) == [Peel(rules, line).prefix + Peel(rules, line).suffix]
    ensures !Preserves("", Tokens(fragile, Peel(rules, line).core))
  {
    OneLine(line);
    OneOut(rules, line, limit, size, answers);
    EmptiedLine(rules, line, limit, size, answers, Peel(rules, line));
    NothingKept(Tokens(fragile, Peel(rules, line).core));
  }

  lemma {:induction false} EmptiedLine(rules: Rules, content: string, limit: int, size: int, answers: nat -> Answer, p: Peeled)
    requires |SplitLines(content)| == 1
    requires Outs(rules, SplitLines(content), limit, size, answers) == [Out(Entry(0, p), Some(""))]
    ensures Rewritten(rules, content, limit, size, answers) == [p.prefix + p.suffix]
  {
    var lines, outs := SplitLines(content), Outs(rules, SplitLines(content), limit, size, answers);
    OutsFromLines(rules, lines, limit, size, answers);
    assert Rewritten(rules, content, limit, size, answers) == PutOuts(lines, outs);
    PutOne(lines, p);
  }

  lemma {:induction false} PutOne(lines: seq<string>, p: Peeled)
    requires |lines| == 1
    ensures PutOuts(lines, [Out(Entry(0, p), Some(""))]) == [p.prefix + p.suffix]
  {
    var o := Out(Entry(0, p), Some(""));
    assert p.prefix + "" + p.suffix == p.prefix + p.suffix;
    assert [o][1..] == [] && lines[0 := Rebuilt(o)] == [p.prefix + p.suffix];
  }

  lemma {:induction false} NothingKept(tokens: Wanted)
    requires tokens != []
    ensures !Preserves("", tokens)
  {
    assert tokens[0] in multiset(tokens);
  }

  lemma {:induction false} OneOut(rules: Rules, line: string, limit: int, size: int, answers: nat -> Answer)
    requires IsProse(rules, [line], 0) && answers(0) == Some(map[0 := ""])
    ensures Outs(rules, [line], limit, size, answers) == [Out(Entry(0, Peel(rules, line)), Some(""))]
  {
    var e := Entry(0, Peel(rules, line));
    assert Prose(rules, [line], 0) == [] && EntryOf(rules, [line], 0) == [e];
    assert Prose(rules, [line], 1) == [e];
    assert Attempted([e], limit) == [e] && Chunks([e], if size < 1 then 1 else size) == [[e]];
    assert Groups(rules, [line], limit, size) == [[e]];
    OneGroup(e, answers);
  }

  lemma {:induction false} OneGroup(e: Entry, answers: nat -> Answer)
    ensures Resolved([[e]], answers, 0) == [Out(e, TextFor(e, answers(0)))]
  {
    assert [[e]][1..] == [] && Resolved([], answers, 1) == [];
    assert OutsOf([e], answers(0)) == [Out(e, TextFor(e, answers(0)))];
  }

  // ----- Which reply is taken -----

  /** Attempt `a` answers for the item with `text`, and that has each token as often as the item. */
  ghost predicate Keeps(reply: Reply, p: Item, text: string) {
    && reply.Some? && p.id in reply.value && reply.value[p.id] == text
    && forall t :: t in p.tokens ==> multiset(p.tokens)[t] <= Occurrences(text, 0, t)
  }

  lemma {:induction false} KeepsIsGood(reply: Reply, p: Item, text: string)
    ensures Keeps(reply, p, text) <==> Good(reply, p) && reply.value[p.id] == text
  {
  }

  /** Attempt `a` is the first of `n` to keep the tokens of the item, with `text`. */
  ghost predicate FirstKeeps(replies: nat -> Reply, p: Item, n: nat, a: nat, text: string) {
    a < n && Keeps(replies(a), p, text) && forall b: nat, other :: b < a ==> !Keeps(replies(b), p, other)
  }

  lemma {:induction false} FirstGoodAt(replies: nat -> Reply, p: Item, n: nat) returns (a: nat)
    requires FirstGood(replies, p, n).Some?
    ensures FirstKeeps(replies, p, n, a, FirstGood(replies, p, n).value)
    decreases n
  {
    if FirstGood(replies, p, n - 1).Some? {
      a := FirstGoodAt(replies, p, n - 1);
    } else {
      a := n - 1;
      KeepsIsGood(replies(a), p, replies(a).value[p.id]);
      NoneKeeps(replies, p, a);
    }
  }

  lemma {:induction false} FirstKeepsOnce(replies: nat -> Reply, p: Item, n: nat, a: nat, text: string, b: nat, other: string)
    requires FirstKeeps(replies, p, n, a, text) && FirstKeeps(replies, p, n, b, other)
    ensures a == b && text == other
  {
  }

  /** The answer of an item is the text of the first attempt that keeps its tokens, if there is one. */
  lemma {:induction false} FirstGoodIs(replies: nat -> Reply, p: Item, n: nat, text: string)
    ensures FirstGood(replies, p, n) == Some(text) <==> exists a: nat :: FirstKeeps(replies, p, n, a, text)
  {
    NoneKeeps(replies, p, n);
    if FirstGood(replies, p, n).Some? {
      var a := FirstGoodAt(replies, p, n);
      if b: nat :| FirstKeeps(replies, p, n, b, text) {
        FirstKeepsOnce(replies, p, n, a, FirstGood(replies, p, n).value, b, text);
      }
    }
  }

  lemma {:induction false} NoneKeeps(replies: nat -> Reply, p: Item, n: nat)
    ensures FirstGood(replies, p, n).None? <==> forall a: nat, text :: a < n ==> !Keeps(replies(a), p, text)
    decreases n
  {
    if n > 0 {
      NoneKeeps(replies, p, n - 1);
      var last := replies(n - 1);
      if Good(last, p) { KeepsIsGood(last, p, last.value[p.id]); }
      forall text ensures Keeps(last, p, text) ==> Good(last, p) { KeepsIsGood(last, p, text); }
    }
  }
}
