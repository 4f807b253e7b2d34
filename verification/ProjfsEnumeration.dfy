/**
 Resumable directory enumeration: a cursor over a directory listing taken once, advanced by
 any number of get-calls, each with its own flags and its own buffer. Whether a name matches
 an expression is one fixed relation; whether the buffer takes an entry is arbitrary per call.
 */
module ProjfsEnumeration {
  import opened Wrappers

  type Name = string
  type Expression = string
  type Id = nat

  datatype Fill = Filled | BufferFull | FillFailed(code: int)

  /** `cursor` is the next entry to offer; `search` the expression in force. */
  datatype Enumeration = Enumeration(entries: seq<Name>, cursor: nat, search: Option<Expression>) {
    predicate Valid() {
      cursor <= |entries|
    }
  }

  /** One get-call: its two flags, its expression (absent when null), and its buffer. */
  datatype Call = Call(restart: bool, expr: Option<Expression>, single: bool, fill: nat -> Fill)

  /** What a call reports: the positions put into its buffer, and its status. */
  datatype Answer = Answer(given: seq<nat>, status: Result<(), int>)

  type Matcher = (Name, Expression) -> bool

  predicate Matches(m: Matcher, name: Name, search: Option<Expression>) {
    search.None? || m(name, search.value)
  }

  // ----- One call -----

  /** The restart flag and the expression take effect before anything is offered. */
  function Prepared(e: Enumeration, c: Call): Enumeration {
    var r := if c.restart then e.(cursor := 0, search := None) else e;
    if c.expr.Some? && c.expr.value != "" then r.(search := c.expr) else r
  }

  function Offered(m: Matcher, e: Enumeration, single: bool, fill: nat -> Fill): (Enumeration, Answer)
    decreases |e.entries| - e.cursor
  {
    if e.cursor >= |e.entries| then
      (e, Answer([], Ok(())))
    else
      var matched := Matches(m, e.entries[e.cursor], e.search);
      if matched && fill(e.cursor).BufferFull? then (e, Answer([], Ok(())))
      else if matched && fill(e.cursor).FillFailed? then (e, Answer([], Err(fill(e.cursor).code)))
      else
        var here := if matched then [e.cursor] else [];
        var next := e.(cursor := e.cursor + 1);
        if single then (next, Answer(here, Ok(())))
        else Before(here, Offered(m, next, single, fill))
  }

  function Before(given: seq<nat>, r: (Enumeration, Answer)): (Enumeration, Answer) {
    (r.0, Answer(given + r.1.given, r.1.status))
  }

  function Get(m: Matcher, e: Enumeration, c: Call): (Enumeration, Answer) {
    Offered(m, Prepared(e, c), c.single, c.fill)
  }

  class Provider {
    const matcher: Matcher
    var enumerations: map<Id, Enumeration>

    constructor (matcher: Matcher)
      ensures this.matcher == matcher && enumerations == map[]
    {
      this.matcher := matcher;
      enumerations := map[];
    }

    method StartEnumeration(id: Id, listing: Result<seq<Name>, int>) returns (status: Result<(), int>)
      modifies this`enumerations
      ensures listing.Err? ==> enumerations == old(enumerations) && status == Err(listing.error)
      ensures listing.Ok? ==> enumerations == old(enumerations)[id := Enumeration(listing.value, 0, None)] && status == Ok(())
      ensures listing.Ok? ==> enumerations == Step(matcher, old(enumerations), Start(id, listing.value))
    {
      if listing.Err? { return Err(listing.error); }
      enumerations := enumerations[id := Enumeration(listing.value, 0, None)];
      return Ok(());
    }

    method EndEnumeration(id: Id)
      modifies this`enumerations
      ensures enumerations == old(enumerations) - {id} == Step(matcher, old(enumerations), End(id))
    {
      enumerations := enumerations - {id};
    }

    method GetEnumeration(id: Id, c: Call) returns (given: seq<nat>, status: Result<(), int>)
      requires id in enumerations ==> enumerations[id].Valid()
      modifies this`enumerations
      ensures id in enumerations ==> enumerations[id].Valid()
      ensures enumerations == Step(matcher, old(enumerations), GetFrom(id, c))
      ensures id !in old(enumerations) ==> enumerations == old(enumerations) && given == [] && status == Ok(())
      ensures id in old(enumerations) ==>
                id in enumerations && enumerations == old(enumerations)[id := enumerations[id]] &&
                Outcome(matcher, old(enumerations)[id], c, enumerations[id], Answer(given, status))
    {
      if id !in enumerations { return [], Ok(()); }
      var e := Prepared(enumerations[id], c);
      var cursor;
      cursor, given, status := Offer(matcher, e, c.single, c.fill);
      ExplainedOnce(matcher, e, c.single, c.fill, e.(cursor := cursor), Answer(given, status));
      GetIs(matcher, enumerations[id], c);
      enumerations := enumerations[id := e.(cursor := cursor)];
    }
  }

  /** The loop of a get-call: entries from the cursor on, until the buffer or the call is full. */
  method Offer(m: Matcher, e: Enumeration, single: bool, fill: nat -> Fill)
    returns (cursor: nat, given: seq<nat>, status: Result<(), int>)
    requires e.Valid()
    ensures Explained(m, e, single, fill, e.(cursor := cursor), Answer(given, status))
  {
    cursor, given, status := e.cursor, [], Ok(());
    while cursor < |e.entries|
      invariant e.cursor <= cursor <= |e.entries| && status == Ok(()) && (single ==> cursor == e.cursor)
      invariant given == Matching(m, e.entries, e.search, e.cursor, cursor)
      invariant forall i :: i in given ==> fill(i) == Filled
      decreases |e.entries| - cursor
    {
      if Matches(m, e.entries[cursor], e.search) {
        match fill(cursor)
        case BufferFull => break;
        case FillFailed(code) =>
          status := Err(code);
          break;
        case Filled => given := given + [cursor];
      }
      MatchingExtends(m, e.entries, e.search, e.cursor, cursor);
      cursor := cursor + 1;
      if single { break; }
    }
  }

  // ----- What one call gives -----

  /** The positions in `[lo, hi)` whose names match, in order. */
  function Matching(m: Matcher, entries: seq<Name>, search: Option<Expression>, lo: nat, hi: nat): seq<nat>
    requires lo <= hi <= |entries|
    decreases hi - lo
  {
    if lo == hi then []
    else (if Matches(m, entries[lo], search) then [lo] else []) + Matching(m, entries, search, lo + 1, hi)
  }

  lemma {:induction false} MatchingSplits(m: Matcher, entries: seq<Name>, search: Option<Expression>, lo: nat, mid: nat, hi: nat)
    requires lo <= mid <= hi <= |entries|
    ensures Matching(m, entries, search, lo, hi) ==
            Matching(m, entries, search, lo, mid) + Matching(m, entries, search, mid, hi)
    decreases mid - lo
  {
    if lo < mid { MatchingSplits(m, entries, search, lo + 1, mid, hi); }
  }

  lemma {:induction false} MatchingExtends(m: Matcher, entries: seq<Name>, search: Option<Expression>, lo: nat, hi: nat)
    requires lo <= hi < |entries|
    ensures Matching(m, entries, search, lo, hi + 1) ==
            Matching(m, entries, search, lo, hi) + (if Matches(m, entries[hi], search) then [hi] else [])
  {
    MatchingSplits(m, entries, search, lo, hi, hi + 1);
  }

  lemma {:induction false} MatchingHas(m: Matcher, entries: seq<Name>, search: Option<Expression>, lo: nat, hi: nat, i: nat)
    requires lo <= hi <= |entries|
    ensures i in Matching(m, entries, search, lo, hi) <==> lo <= i < hi && Matches(m, entries[i], search)
    decreases hi - lo
  {
    if lo < hi { MatchingHas(m, entries, search, lo + 1, hi, i); }
  }

  predicate AllFrom(s: seq<nat>, lo: nat) {
    forall k :: 0 <= k < |s| ==> lo <= s[k]
  }

  lemma {:induction false} RisingCons(i: nat, s: seq<nat>)
    requires Increasing(s) && AllFrom(s, i + 1)
    ensures Increasing([i] + s) && AllFrom([i] + s, i) && AllFrom(s, i)
  {
  }

  lemma {:induction false} MatchingRises(m: Matcher, entries: seq<Name>, search: Option<Expression>, lo: nat, hi: nat)
    requires lo <= hi <= |entries|
    ensures Increasing(Matching(m, entries, search, lo, hi)) && AllFrom(Matching(m, entries, search, lo, hi), lo)
    decreases hi - lo
  {
    if lo < hi {
      var rest := Matching(m, entries, search, lo + 1, hi);
      MatchingRises(m, entries, search, lo + 1, hi);
      RisingCons(lo, rest);
      assert [] + rest == rest;
    }
  }

  lemma {:induction false} MatchingMeans(m: Matcher, entries: seq<Name>, search: Option<Expression>, lo: nat, hi: nat)
    requires lo <= hi <= |entries|
    ensures forall i :: i in Matching(m, entries, search, lo, hi) <==> lo <= i < hi && Matches(m, entries[i], search)
    ensures Increasing(Matching(m, entries, search, lo, hi))
  {
    forall i: nat ensures i in Matching(m, entries, search, lo, hi) <==> lo <= i < hi && Matches(m, entries[i], search) {
      MatchingHas(m, entries, search, lo, hi, i);
    }
    MatchingRises(m, entries, search, lo, hi);
  }

  predicate Increasing(s: seq<nat>) {
    forall i, j :: 0 <= i < j < |s| ==> s[i] < s[j]
  }

  /** The entry the cursor rests on matches and the buffer did not take it. */
  predicate Refused(m: Matcher, e: Enumeration, fill: nat -> Fill) {
    e.cursor < |e.entries| && Matches(m, e.entries[e.cursor], e.search) && fill(e.cursor) != Filled
  }

  /** Nothing is left, or one entry was all that was asked for, or the buffer refused the next. */
  predicate Stopped(m: Matcher, e: Enumeration, single: bool, fill: nat -> Fill, n: Enumeration) {
    n.cursor == |e.entries| || (single && n.cursor == e.cursor + 1) || Refused(m, n, fill)
  }

  predicate Reported(m: Matcher, e: Enumeration, single: bool, fill: nat -> Fill, n: Enumeration, status: Result<(), int>) {
    if (single && e.cursor < n.cursor) || !Refused(m, n, fill) || fill(n.cursor) == BufferFull then status == Ok(())
    else status == Err(fill(n.cursor).code)
  }

  /** A call gives exactly the matching entries the cursor passed, and says why it stopped. */
  ghost predicate Explained(m: Matcher, e: Enumeration, single: bool, fill: nat -> Fill, n: Enumeration, a: Answer)
    requires e.Valid()
  {
    && n == e.(cursor := n.cursor) && e.cursor <= n.cursor <= |e.entries| && (single ==> n.cursor <= e.cursor + 1)
    && a.given == Matching(m, e.entries, e.search, e.cursor, n.cursor)
    && (forall i :: i in a.given ==> fill(i) == Filled)
    && Stopped(m, e, single, fill, n)
    && Reported(m, e, single, fill, n, a.status)
  }

  lemma {:induction false} OfferedIs(m: Matcher, e: Enumeration, single: bool, fill: nat -> Fill)
    requires e.Valid()
    ensures Explained(m, e, single, fill, Offered(m, e, single, fill).0, Offered(m, e, single, fill).1)
    decreases |e.entries| - e.cursor
  {
    if e.cursor < |e.entries| && !Refused(m, e, fill) {
      var next := e.(cursor := e.cursor + 1);
      if single {
        assert Matching(m, e.entries, e.search, e.cursor + 1, e.cursor + 1) == [];
      } else {
        OfferedIs(m, next, single, fill);
        var (n, a) := Offered(m, next, single, fill);
        assert Offered(m, e, single, fill) ==
               Before(if Matches(m, e.entries[e.cursor], e.search) then [e.cursor] else [], (n, a));
      }
    }
  }

  /** Two explained outcomes of one call stop at the same entry. */
  lemma {:induction false} StopsAgree(m: Matcher, e: Enumeration, single: bool, fill: nat -> Fill, n: Enumeration, a: Answer,
                   o: Enumeration, b: Answer)
    requires e.Valid() && Explained(m, e, single, fill, n, a) && Explained(m, e, single, fill, o, b)
    ensures n.cursor >= o.cursor
  {
    if n.cursor < o.cursor {
      MatchingMeans(m, e.entries, e.search, e.cursor, o.cursor);
      assert false;
    }
  }

  lemma {:induction false} ExplainedOnce(m: Matcher, e: Enumeration, single: bool, fill: nat -> Fill, n: Enumeration, a: Answer)
    requires e.Valid() && Explained(m, e, single, fill, n, a)
    ensures Offered(m, e, single, fill) == (n, a)
  {
    OfferedIs(m, e, single, fill);
    var (o, b) := Offered(m, e, single, fill);
    StopsAgree(m, e, single, fill, n, a, o, b);
    StopsAgree(m, e, single, fill, o, b, n, a);
  }

  /** The call brings an expression of its own. */
  predicate Brings(c: Call) {
    c.expr.Some? && c.expr.value != ""
  }

  /** The expression in force after a call: its own, or on a restart none, or the one before. */
  predicate InForce(before: Option<Expression>, c: Call, now: Option<Expression>) {
    && (Brings(c) ==> now == c.expr)
    && (!Brings(c) && c.restart ==> now == None)
    && (!Brings(c) && !c.restart ==> now == before)
  }

  /**
   What a call does, from the enumeration before it to the one after it: from the cursor, or from
   the first entry on a restart, exactly the entries passed that match the expression in force are
   given; it goes on until nothing is left, one entry was all that was asked for, or the buffer did
   not take the next match.
   */
  ghost predicate Outcome(m: Matcher, before: Enumeration, c: Call, after: Enumeration, a: Answer) {
    var from, entries, search := if c.restart then 0 else before.cursor, before.entries, after.search;
    var refused := after.cursor < |entries| && (search.None? || m(entries[after.cursor], search.value)) && c.fill(after.cursor) != Filled;
    var sated := c.single && after.cursor == from + 1;
    && after.entries == entries && InForce(before.search, c, search)
    && from <= after.cursor <= |entries| && (c.single ==> after.cursor <= from + 1)
    && Increasing(a.given)
    && (forall i :: i in a.given <==> from <= i < after.cursor && (search.None? || m(entries[i], search.value)))
    && (forall i :: i in a.given ==> c.fill(i) == Filled)
    && (after.cursor == |entries| || sated || refused)
    && a.status == if refused && !sated && c.fill(after.cursor).FillFailed? then Err(c.fill(after.cursor).code) else Ok(())
  }

  lemma {:induction false} GetIs(m: Matcher, e: Enumeration, c: Call)
    requires e.Valid()
    ensures Outcome(m, e, c, Get(m, e, c).0, Get(m, e, c).1)
  {
    var p := Prepared(e, c);
    var (n, a) := Get(m, e, c);
    OfferedIs(m, p, c.single, c.fill);
    MatchingMeans(m, p.entries, p.search, p.cursor, n.cursor);
  }

  // ----- Any number of calls on one enumeration -----

  function AfterCalls(m: Matcher, e: Enumeration, calls: seq<Call>): Enumeration
    decreases |calls|
  {
    if calls == [] then e else AfterCalls(m, Get(m, e, calls[0]).0, calls[1..])
  }

  /** Everything the calls put into their buffers, in order. */
  function GivenBy(m: Matcher, e: Enumeration, calls: seq<Call>): seq<nat>
    decreases |calls|
  {
    if calls == [] then [] else Get(m, e, calls[0]).1.given + GivenBy(m, Get(m, e, calls[0]).0, calls[1..])
  }

  predicate NoRestart(calls: seq<Call>) {
    forall i :: 0 <= i < |calls| ==> !calls[i].restart
  }

  /** Every call searches by `search`: the first brings it or finds it in force, the others repeat it or bring none. */
  predicate SearchesBy(e: Enumeration, calls: seq<Call>, search: Option<Expression>) {
    && (forall i :: 0 <= i < |calls| && Brings(calls[i]) ==> calls[i].expr == search)
    && (calls != [] && !Brings(calls[0]) ==> e.search == search)
  }

  /** Without a restart, what was given is what the cursor passed: nothing missed, nothing twice. */
  lemma {:induction false} GivenIsPassed(m: Matcher, e: Enumeration, calls: seq<Call>, search: Option<Expression>)
    requires e.Valid() && NoRestart(calls) && SearchesBy(e, calls, search)
    ensures var n := AfterCalls(m, e, calls);
            && n.entries == e.entries && e.cursor <= n.cursor <= |e.entries|
            && GivenBy(m, e, calls) == Matching(m, e.entries, search, e.cursor, n.cursor)
    decreases |calls|
  {
    if calls != [] {
      var next := Get(m, e, calls[0]).0;
      OfferedIs(m, Prepared(e, calls[0]), calls[0].single, calls[0].fill);
      assert next.search == search;
      assert forall i :: 0 <= i < |calls[1..]| ==> calls[1..][i] == calls[i + 1];
      GivenIsPassed(m, next, calls[1..], search);
      MatchingSplits(m, e.entries, search, e.cursor, next.cursor, AfterCalls(m, e, calls).cursor);
    }
  }

  /**
   A fresh enumeration read by any calls of one search: a prefix of the matching entries, and
   all of them once the cursor has reached the end.
   */
  lemma {:induction false} ExactlyOnce(m: Matcher, entries: seq<Name>, calls: seq<Call>, search: Option<Expression>)
    requires NoRestart(calls) && SearchesBy(Enumeration(entries, 0, None), calls, search)
    ensures var e := Enumeration(entries, 0, None);
            var all := Matching(m, entries, search, 0, |entries|);
            && GivenBy(m, e, calls) <= all
            && (AfterCalls(m, e, calls).cursor == |entries| ==> GivenBy(m, e, calls) == all)
  {
    var e := Enumeration(entries, 0, None);
    GivenIsPassed(m, e, calls, search);
    MatchingSplits(m, entries, search, 0, AfterCalls(m, e, calls).cursor, |entries|);
  }

  /** Even when the expression changes between calls, no entry is given twice. */
  lemma {:induction false} NeverTwice(m: Matcher, e: Enumeration, calls: seq<Call>)
    requires e.Valid() && NoRestart(calls)
    ensures Increasing(GivenBy(m, e, calls))
    ensures forall i :: i in GivenBy(m, e, calls) ==> e.cursor <= i < AfterCalls(m, e, calls).cursor
    ensures AfterCalls(m, e, calls).entries == e.entries
    ensures e.cursor <= AfterCalls(m, e, calls).cursor <= |e.entries|
    decreases |calls|
  {
    if calls != [] {
      var (next, a) := Get(m, e, calls[0]);
      GetMovesOn(m, e, calls[0]);
      NeverTwice(m, next, calls[1..]);
      IncreasingJoin(a.given, GivenBy(m, next, calls[1..]), next.cursor);
    }
  }

  /** A call without a restart goes on from the cursor and gives what it passes in order. */
  lemma {:induction false} GetMovesOn(m: Matcher, e: Enumeration, c: Call)
    requires e.Valid() && !c.restart
    ensures var (next, a) := Get(m, e, c);
            && next.entries == e.entries && e.cursor <= next.cursor <= |e.entries| && Increasing(a.given)
            && forall i :: i in a.given ==> e.cursor <= i < next.cursor
  {
    var p := Prepared(e, c);
    OfferedIs(m, p, c.single, c.fill);
    MatchingMeans(m, e.entries, p.search, e.cursor, Get(m, e, c).0.cursor);
  }

  lemma {:induction false} IncreasingJoin(a: seq<nat>, b: seq<nat>, at: nat)
    requires Increasing(a) && Increasing(b) && (forall i :: i in a ==> i < at) && (forall i :: i in b ==> at <= i)
    ensures Increasing(a + b)
  {
    forall i, j | 0 <= i < j < |a + b| ensures (a + b)[i] < (a + b)[j] {
      if i < |a| <= j { assert a[i] in a && b[j - |a|] in b; }
    }
  }

  /** A restart forgets every earlier call. */
  lemma {:induction false} RestartBeginsAgain(m: Matcher, e: Enumeration, before: seq<Call>, c: Call, after: seq<Call>)
    requires c.restart
    ensures var again := AfterCalls(m, e, before);
            var anew := Enumeration(again.entries, 0, None);
            && GivenBy(m, again, [c] + after) == GivenBy(m, anew, [c.(restart := false)] + after)
            && AfterCalls(m, again, [c] + after) == AfterCalls(m, anew, [c.(restart := false)] + after)
  {
    var again := AfterCalls(m, e, before);
    var anew := Enumeration(again.entries, 0, None);
    assert Prepared(again, c) == Prepared(anew, c.(restart := false));
    assert ([c] + after)[1..] == after && ([c.(restart := false)] + after)[1..] == after;
  }

  /**
   A call that succeeds but gives nothing normally means the listing is exhausted. It does not
   exactly when a matching entry is left and either the call may offer one entry only and that
   entry does not match, or the buffer is full before the first match is put in.
   */
  lemma {:induction false} EmptyAnswerMisleads(m: Matcher, e: Enumeration, single: bool, fill: nat -> Fill, first: nat)
    requires e.cursor <= first < |e.entries| && Matches(m, e.entries[first], e.search)
    requires forall i :: e.cursor <= i < first ==> !Matches(m, e.entries[i], e.search)
    ensures Offered(m, e, single, fill).1 == Answer([], Ok(())) <==>
            (single && e.cursor < first) || fill(first) == BufferFull
    decreases first - e.cursor
  {
    if e.cursor < first && !single {
      EmptyAnswerMisleads(m, e.(cursor := e.cursor + 1), single, fill, first);
    }
  }

  // ----- Interleaved enumerations -----

  datatype Op = Start(id: Id, listing: seq<Name>) | End(id: Id) | GetFrom(id: Id, call: Call)

  function Step(m: Matcher, all: map<Id, Enumeration>, op: Op): map<Id, Enumeration> {
    match op
    case Start(id, listing) => all[id := Enumeration(listing, 0, None)]
    case End(id) => all - {id}
    case GetFrom(id, c) => if id in all then all[id := Get(m, all[id], c).0] else all
  }

  function Steps(m: Matcher, all: map<Id, Enumeration>, ops: seq<Op>): map<Id, Enumeration>
    decreases |ops|
  {
    if ops == [] then all else Steps(m, Step(m, all, ops[0]), ops[1..])
  }

  /** What the operations gave under one id. */
  function GivenTo(m: Matcher, all: map<Id, Enumeration>, ops: seq<Op>, id: Id): seq<nat>
    decreases |ops|
  {
    if ops == [] then []
    else
      (if ops[0].GetFrom? && ops[0].id == id && id in all then Get(m, all[id], ops[0].call).1.given else [])
      + GivenTo(m, Step(m, all, ops[0]), ops[1..], id)
  }

  function CallsOn(ops: seq<Op>, id: Id): seq<Call>
    decreases |ops|
  {
    if ops == [] then []
    else (if ops[0].GetFrom? && ops[0].id == id then [ops[0].call] else []) + CallsOn(ops[1..], id)
  }

  /** Other enumerations, however interleaved, do not disturb an open one. */
  lemma {:induction false} Undisturbed(m: Matcher, all: map<Id, Enumeration>, ops: seq<Op>, id: Id)
    requires id in all
    requires forall op :: op in ops && op.id == id ==> op.GetFrom?
    ensures id in Steps(m, all, ops)
    ensures Steps(m, all, ops)[id] == AfterCalls(m, all[id], CallsOn(ops, id))
    ensures GivenTo(m, all, ops, id) == GivenBy(m, all[id], CallsOn(ops, id))
    decreases |ops|
  {
    if ops != [] {
      Undisturbed(m, Step(m, all, ops[0]), ops[1..], id);
      var rest := CallsOn(ops[1..], id);
      if ops[0].GetFrom? && ops[0].id == id {
        assert ([ops[0].call] + rest)[1..] == rest;
      } else {
        assert [] + rest == rest;
      }
    }
  }
}
