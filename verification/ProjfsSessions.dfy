/**
 The ProjFS session protocol: any number of starts and stops, interleaved at the points where
 the session map is locked, with every external call free to succeed or fail. A run is a list
 of steps; each step is one critical section or one external call of one thread.
 */
module ProjfsSessions {
  import opened Wrappers

  type Key = nat
  type Tid = nat
  type Ctx = nat

  datatype Entry = Starting | Active(c: Ctx)

  type Table = map<Key, Entry>

  /** Where a start is: which external call it is in, then the commit, then its own teardown. */
  datatype StartPc =
    | Identifying(k: Key)
    | Marking(k: Key)
    | Launching(k: Key)
    | Committing(k: Key, c: Ctx)
    | Undoing(c: Ctx)

  /** Calls that create or end a virtualization context, and entries discarded without a call. */
  datatype Event = Launched(c: Ctx) | TornDown(c: Ctx) | Dropped(c: Ctx)

  datatype State = State(sessions: Table, starts: map<Tid, StartPc>, stops: map<Tid, Ctx>, log: seq<Event>)

  const INITIAL := State(map[], map[], map[], [])

  datatype Step =
    | Reserve(t: Tid, k: Key)
    | CallFails(t: Tid)
    | IdentifyOk(t: Tid)
    | MarkOk(t: Tid)
    | LaunchOk(t: Tid, c: Ctx)
    | Commit(t: Tid)
    | Undo(t: Tid)
    | StopTakes(t: Tid, k: Key)
    | StopTears(t: Tid)

  // ----- Critical sections on the session map -----

  function Reserved(m: Table, k: Key): (Table, bool) {
    if k in m then (m, false) else (m[k := Starting], true)
  }

  /** A failed start removes its key, whatever the entry has become. */
  function Released(m: Table, k: Key): Table {
    m - {k}
  }

  /** Only a `Starting` entry is promoted; the flag says whether this was done. */
  function Committed(m: Table, k: Key, c: Ctx): (Table, bool) {
    if k in m && m[k].Starting? then (m[k := Active(c)], true) else (m, false)
  }

  function Taken(m: Table, k: Key): (Table, Option<Ctx>) {
    (m - {k}, if k in m && m[k].Active? then Some(m[k].c) else None)
  }

  // ----- Steps -----

  predicate Fails(pc: StartPc) {
    pc.Identifying? || pc.Marking? || pc.Launching?
  }

  predicate Enabled(s: State, a: Step) {
    match a
    case Reserve(t, _) => t !in s.starts && t !in s.stops
    case CallFails(t) => t in s.starts && Fails(s.starts[t])
    case IdentifyOk(t) => t in s.starts && s.starts[t].Identifying?
    case MarkOk(t) => t in s.starts && s.starts[t].Marking?
    case LaunchOk(t, c) => t in s.starts && s.starts[t].Launching? && Launched(c) !in s.log
    case Commit(t) => t in s.starts && s.starts[t].Committing?
    case Undo(t) => t in s.starts && s.starts[t].Undoing?
    case StopTakes(t, _) => t !in s.starts && t !in s.stops
    case StopTears(t) => t in s.stops
  }

  function Apply(s: State, a: Step): State
    requires Enabled(s, a)
  {
    match a
    case Reserve(t, k) =>
      var (m, ok) := Reserved(s.sessions, k);
      if ok then s.(sessions := m, starts := s.starts[t := Identifying(k)]) else s
    case CallFails(t) =>
      var k := s.starts[t].k;
      var log := if k in s.sessions && s.sessions[k].Active? then s.log + [Dropped(s.sessions[k].c)] else s.log;
      State(Released(s.sessions, k), s.starts - {t}, s.stops, log)
    case IdentifyOk(t) => s.(starts := s.starts[t := Marking(s.starts[t].k)])
    case MarkOk(t) => s.(starts := s.starts[t := Launching(s.starts[t].k)])
    case LaunchOk(t, c) => s.(starts := s.starts[t := Committing(s.starts[t].k, c)], log := s.log + [Launched(c)])
    case Commit(t) =>
      var Committing(k, c) := s.starts[t];
      var (m, ok) := Committed(s.sessions, k, c);
      if ok then s.(sessions := m, starts := s.starts - {t}) else s.(starts := s.starts[t := Undoing(c)])
    case Undo(t) => s.(starts := s.starts - {t}, log := s.log + [TornDown(s.starts[t].c)])
    case StopTakes(t, k) =>
      var (m, c) := Taken(s.sessions, k);
      if c.Some? then s.(sessions := m, stops := s.stops[t := c.value]) else s.(sessions := m)
    case StopTears(t) => s.(stops := s.stops - {t}, log := s.log + [TornDown(s.stops[t])])
  }

  /** The run can be executed from the empty map. */
  predicate IsRun(run: seq<Step>)
    decreases |run|, 0
  {
    run == [] || (IsRun(run[..|run| - 1]) && Enabled(After(run[..|run| - 1]), run[|run| - 1]))
  }

  function After(run: seq<Step>): State
    requires IsRun(run)
    decreases |run|, 1
  {
    if run == [] then INITIAL else Apply(After(run[..|run| - 1]), run[|run| - 1])
  }

  /** The map as the process holds it; each method but the last two is the body of one lock guard, and one step. */
  class SessionTable {
    var sessions: Table

    constructor ()
      ensures sessions == map[] == After([]).sessions
    {
      sessions := map[];
    }

    method TryReserve(k: Key, ghost s: State, ghost t: Tid) returns (ok: bool)
      requires s.sessions == sessions && Enabled(s, Reserve(t, k))
      modifies this
      ensures (sessions, ok) == Reserved(old(sessions), k)
      ensures Apply(s, Reserve(t, k)) == if ok then s.(sessions := sessions, starts := s.starts[t := Identifying(k)]) else s
    {
      if k in sessions { return false; }
      sessions := sessions[k := Starting];
      return true;
    }

    method Release(k: Key, ghost s: State, ghost t: Tid)
      requires s.sessions == sessions && Enabled(s, CallFails(t)) && s.starts[t].k == k
      modifies this
      ensures sessions == Released(old(sessions), k) == Apply(s, CallFails(t)).sessions
    {
      sessions := sessions - {k};
    }

    method TryCommit(k: Key, c: Ctx, ghost s: State, ghost t: Tid) returns (ok: bool)
      requires s.sessions == sessions && t in s.starts && s.starts[t] == Committing(k, c)
      modifies this
      ensures (sessions, ok) == Committed(old(sessions), k, c)
      ensures Apply(s, Commit(t)) == if ok then s.(sessions := sessions, starts := s.starts - {t}) else s.(starts := s.starts[t := Undoing(c)])
    {
      if k in sessions && sessions[k].Starting? {
        sessions := sessions[k := Active(c)];
        return true;
      }
      return false;
    }

    method Take(k: Key, ghost s: State, ghost t: Tid) returns (c: Option<Ctx>)
      requires s.sessions == sessions && Enabled(s, StopTakes(t, k))
      modifies this
      ensures (sessions, c) == Taken(old(sessions), k)
      ensures Apply(s, StopTakes(t, k)) == if c.Some? then s.(sessions := sessions, stops := s.stops[t := c.value]) else s.(sessions := sessions)
    {
      c := None;
      if k in sessions {
        if sessions[k].Active? { c := Some(sessions[k].c); }
        sessions := sessions - {k};
      } else {
        assert sessions - {k} == sessions;
      }
    }

    /**
     A start that no other call interrupts; `identified`, `marked` and `launched` say what the
     external calls give. It is a run of the start's own steps: the session is added if the key was
     free and all calls succeed, and otherwise the map is as before.
     */
    method Start(k: Key, identified: bool, marked: bool, launched: Option<Ctx>, ghost run: seq<Step>, ghost t: Tid)
        returns (ok: bool, ghost all: seq<Step>)
      requires IsRun(run) && After(run).sessions == sessions && Enabled(After(run), Reserve(t, k))
      requires launched.Some? ==> Launched(launched.value) !in After(run).log
      modifies this
      ensures IsRun(all) && OwnSteps(run, all, t)
      ensures After(all).sessions == sessions && t !in After(all).starts
      ensures ok <==> k !in old(sessions) && identified && marked && launched.Some?
      ensures sessions == if ok then old(sessions)[k := Active(launched.value)] else old(sessions)
    {
      ok := TryReserve(k, After(run), t);
      if !ok {
        all := Next(run, Reserve(t, k));
      } else if !identified || !marked || launched.None? {
        Release(k, After(ReservedThenSome(run, t, k, identified, marked)), t);
        all := StartFails(run, t, k, identified, marked);
        return false, all;
      } else {
        ok := TryCommit(k, launched.value, After(ReservedThenAll(run, t, k, launched.value)), t);
        all := StartSucceeds(run, t, k, launched.value);
      }
    }

    /** A stop that no other call interrupts; the context it tears down is the one the map held. */
    method Stop(k: Key, ghost run: seq<Step>, ghost t: Tid) returns (torn: Option<Ctx>, ghost all: seq<Step>)
      requires IsRun(run) && After(run).sessions == sessions && Enabled(After(run), StopTakes(t, k))
      modifies this
      ensures IsRun(all) && run <= all && (forall a :: a in all[|run|..] ==> a == StopTakes(t, k) || a == StopTears(t))
      ensures After(all).sessions == sessions == old(sessions) - {k} && t !in After(all).stops
      ensures torn == if k in old(sessions) && old(sessions)[k].Active? then Some(old(sessions)[k].c) else None
      ensures torn.Some? ==> TornDown(torn.value) in After(all).log
    {
      torn := Take(k, After(run), t);
      all := Next(run, StopTakes(t, k));
      if torn.Some? {
        all := Next(all, StopTears(t));
        assert After(all).log[|After(all).log| - 1] == TornDown(torn.value);
      }
    }
  }

  /** The steps of the start `t`. */
  predicate OfStart(a: Step, t: Tid) {
    a.t == t && !a.StopTakes? && !a.StopTears? && !a.Undo?
  }

  /** `all` goes on from `run` by steps of the start `t`. */
  predicate OwnSteps(run: seq<Step>, all: seq<Step>, t: Tid) {
    run <= all && forall i :: |run| <= i < |all| ==> OfStart(all[i], t)
  }

  /** The reservation, and the external calls that succeed before one fails. */
  ghost function ReservedThenSome(run: seq<Step>, t: Tid, k: Key, identified: bool, marked: bool): (all: seq<Step>)
    requires IsRun(run) && Enabled(After(run), Reserve(t, k)) && k !in After(run).sessions
    ensures IsRun(all) && OwnSteps(run, all, t)
    ensures var s := After(all);
      s.sessions == After(run).sessions[k := Starting] && Enabled(s, CallFails(t)) && s.starts[t].k == k
  {
    var first := Next(run, Reserve(t, k));
    if !identified then first
    else
      var next := Next(first, IdentifyOk(t));
      if marked then Next(next, MarkOk(t)) else next
  }

  /** The reservation and the three external calls, all succeeding. */
  ghost function ReservedThenAll(run: seq<Step>, t: Tid, k: Key, c: Ctx): (all: seq<Step>)
    requires IsRun(run) && Enabled(After(run), Reserve(t, k)) && k !in After(run).sessions && Launched(c) !in After(run).log
    ensures IsRun(all) && OwnSteps(run, all, t)
    ensures var s := After(all);
      s.sessions == After(run).sessions[k := Starting] && t in s.starts && s.starts[t] == Committing(k, c)
  {
    Next(Next(Next(Next(run, Reserve(t, k)), IdentifyOk(t)), MarkOk(t)), LaunchOk(t, c))
  }

  ghost function StartFails(run: seq<Step>, t: Tid, k: Key, identified: bool, marked: bool): (all: seq<Step>)
    requires IsRun(run) && Enabled(After(run), Reserve(t, k)) && k !in After(run).sessions
    ensures IsRun(all) && OwnSteps(run, all, t)
    ensures After(all).sessions == After(run).sessions && t !in After(all).starts
  {
    var before := ReservedThenSome(run, t, k, identified, marked);
    assert After(run).sessions[k := Starting] - {k} == After(run).sessions;
    Next(before, CallFails(t))
  }

  ghost function StartSucceeds(run: seq<Step>, t: Tid, k: Key, c: Ctx): (all: seq<Step>)
    requires IsRun(run) && Enabled(After(run), Reserve(t, k)) && k !in After(run).sessions && Launched(c) !in After(run).log
    ensures IsRun(all) && OwnSteps(run, all, t)
    ensures After(all).sessions == After(run).sessions[k := Active(c)] && t !in After(all).starts
  {
    Next(ReservedThenAll(run, t, k, c), Commit(t))
  }

  ghost function Next(run: seq<Step>, a: Step): (next: seq<Step>)
    requires IsRun(run) && Enabled(After(run), a)
    ensures IsRun(next) && next == run + [a] && After(next) == Apply(After(run), a)
  {
    assert (run + [a])[..|run|] == run;
    run + [a]
  }

  // ----- Every context is in exactly one place -----

  datatype Place = AtStart(t: Tid) | AtKey(k: Key) | AtStop(u: Tid) | Torn | Lost

  function HeldCtx(pc: StartPc): Option<Ctx> {
    match pc
    case Committing(_, c) => Some(c)
    case Undoing(c) => Some(c)
    case _ => None
  }

  /** Everything that answers for context `c` in a state. */
  function Places(s: State, c: Ctx): set<Place> {
    (set t | t in s.starts && HeldCtx(s.starts[t]) == Some(c) :: AtStart(t))
    + (set k | k in s.sessions && s.sessions[k] == Active(c) :: AtKey(k))
    + (set u | u in s.stops && s.stops[u] == c :: AtStop(u))
    + (if TornDown(c) in s.log then {Torn} else {})
    + (if Dropped(c) in s.log then {Lost} else {})
  }

  type Map = map<Ctx, Place>

  ghost predicate StartsAgree(starts: map<Tid, StartPc>, at: Map) {
    && (forall t :: t in starts && HeldCtx(starts[t]).Some? ==> Is(at, HeldCtx(starts[t]).value, AtStart(t)))
    && (forall c :: c in at && at[c].AtStart? ==> at[c].t in starts && HeldCtx(starts[at[c].t]) == Some(c))
  }

  ghost predicate KeysAgree(sessions: Table, at: Map) {
    && (forall k :: k in sessions && sessions[k].Active? ==> Is(at, sessions[k].c, AtKey(k)))
    && (forall c :: c in at && at[c].AtKey? ==> at[c].k in sessions && sessions[at[c].k] == Active(c))
  }

  ghost predicate StopsAgree(stops: map<Tid, Ctx>, at: Map) {
    && (forall t :: t in stops ==> Is(at, stops[t], AtStop(t)))
    && (forall c :: c in at && at[c].AtStop? ==> at[c].u in stops && stops[at[c].u] == c)
  }

  ghost predicate LogAgrees(log: seq<Event>, at: Map) {
    && (forall c :: c in at <==> Launched(c) in log)
    && (forall c :: TornDown(c) in log <==> Is(at, c, Torn))
    && (forall c :: Dropped(c) in log <==> Is(at, c, Lost))
  }

  predicate Is(at: Map, c: Ctx, p: Place) {
    c in at && at[c] == p
  }

  /** `at` tells for every launched context where it is, and the state agrees both ways. */
  ghost predicate Located(s: State, at: Map) {
    StartsAgree(s.starts, at) && KeysAgree(s.sessions, at) && StopsAgree(s.stops, at) && LogAgrees(s.log, at)
  }

  /** No call is made twice for one context. */
  ghost predicate Once(log: seq<Event>) {
    forall i, j :: 0 <= i < j < |log| ==> log[i] != log[j]
  }

  /** How one step moves contexts between places. */
  function Moved(s: State, a: Step, at: Map): Map
    requires Enabled(s, a)
  {
    match a
    case CallFails(t) =>
      var k := s.starts[t].k;
      if k in s.sessions && s.sessions[k].Active? then at[s.sessions[k].c := Lost] else at
    case LaunchOk(t, c) => at[c := AtStart(t)]
    case Commit(t) =>
      var Committing(k, c) := s.starts[t];
      if Committed(s.sessions, k, c).1 then at[c := AtKey(k)] else at
    case Undo(t) => at[s.starts[t].c := Torn]
    case StopTakes(t, k) => if k in s.sessions && s.sessions[k].Active? then at[s.sessions[k].c := AtStop(t)] else at
    case StopTears(t) => at[s.stops[t] := Torn]
    case _ => at
  }

  // Each part of the state agrees again after one context has moved.

  lemma {:induction false} StartsStay(starts: map<Tid, StartPc>, at: Map, c: Ctx, p: Place)
    requires StartsAgree(starts, at) && !p.AtStart? && (c in at ==> !at[c].AtStart?)
    ensures StartsAgree(starts, at[c := p])
  {
  }

  lemma {:induction false} StartsGain(starts: map<Tid, StartPc>, at: Map, t: Tid, k: Key, c: Ctx)
    requires StartsAgree(starts, at) && c !in at && t in starts && HeldCtx(starts[t]) == None
    ensures StartsAgree(starts[t := Committing(k, c)], at[c := AtStart(t)])
  {
  }

  lemma {:induction false} StartsLose(starts: map<Tid, StartPc>, at: Map, t: Tid, c: Ctx, p: Place)
    requires StartsAgree(starts, at) && !p.AtStart? && t in starts && HeldCtx(starts[t]) == Some(c)
    ensures StartsAgree(starts - {t}, at[c := p]) && Is(at, c, AtStart(t))
  {
    assert Is(at, HeldCtx(starts[t]).value, AtStart(t));
  }

  lemma {:induction false} KeysStay(sessions: Table, at: Map, c: Ctx, p: Place)
    requires KeysAgree(sessions, at) && !p.AtKey? && (c in at ==> !at[c].AtKey?)
    ensures KeysAgree(sessions, at[c := p])
  {
  }

  lemma {:induction false} KeysGain(sessions: Table, at: Map, k: Key, c: Ctx)
    requires KeysAgree(sessions, at) && c in at && !at[c].AtKey? && (k in sessions ==> sessions[k].Starting?)
    ensures KeysAgree(sessions[k := Active(c)], at[c := AtKey(k)])
  {
  }

  lemma {:induction false} KeysLose(sessions: Table, at: Map, k: Key, p: Place)
    requires KeysAgree(sessions, at) && !p.AtKey? && k in sessions && sessions[k].Active?
    ensures KeysAgree(sessions - {k}, at[sessions[k].c := p]) && Is(at, sessions[k].c, AtKey(k))
  {
    assert Is(at, sessions[k].c, AtKey(k));
  }

  lemma {:induction false} StopsStay(stops: map<Tid, Ctx>, at: Map, c: Ctx, p: Place)
    requires StopsAgree(stops, at) && !p.AtStop? && (c in at ==> !at[c].AtStop?)
    ensures StopsAgree(stops, at[c := p])
  {
  }

  lemma {:induction false} StopsGain(stops: map<Tid, Ctx>, at: Map, t: Tid, c: Ctx)
    requires StopsAgree(stops, at) && c in at && !at[c].AtStop? && t !in stops
    ensures StopsAgree(stops[t := c], at[c := AtStop(t)])
  {
  }

  lemma {:induction false} StopsLose(stops: map<Tid, Ctx>, at: Map, t: Tid, p: Place)
    requires StopsAgree(stops, at) && !p.AtStop? && t in stops
    ensures StopsAgree(stops - {t}, at[stops[t] := p]) && Is(at, stops[t], AtStop(t))
  {
    assert Is(at, stops[t], AtStop(t));
  }

  lemma {:induction false} LogStays(log: seq<Event>, at: Map, c: Ctx, p: Place)
    requires LogAgrees(log, at) && c in at && at[c] != Torn && at[c] != Lost && p != Torn && p != Lost
    ensures LogAgrees(log, at[c := p])
  {
    forall x ensures TornDown(x) in log <==> Is(at[c := p], x, Torn) {
    }
    forall x ensures Dropped(x) in log <==> Is(at[c := p], x, Lost) {
    }
  }

  lemma {:induction false} LogGrows(log: seq<Event>, e: Event, c: Ctx, p: Place, at: Map)
    requires LogAgrees(log, at) && Once(log)
    requires e == match p case Torn => TornDown(c) case Lost => Dropped(c) case _ => Launched(c)
    requires e.Launched? ==> c !in at
    requires !e.Launched? ==> c in at && at[c] != Torn && at[c] != Lost
    ensures LogAgrees(log + [e], at[c := p]) && Once(log + [e])
  {
    forall x: Event ensures x in log + [e] <==> x in log || x == e {
    }
    assert e !in log;
  }

  lemma {:induction false} FailMoves(s: State, t: Tid, at: Map)
    requires Enabled(s, CallFails(t)) && Located(s, at) && Once(s.log)
    ensures Located(Apply(s, CallFails(t)), Moved(s, CallFails(t), at)) && Once(Apply(s, CallFails(t)).log)
  {
    var k := s.starts[t].k;
    assert StartsAgree(s.starts - {t}, at);
    if k in s.sessions && s.sessions[k].Active? {
      var c := s.sessions[k].c;
      KeysLose(s.sessions, at, k, Lost);
      StartsStay(s.starts - {t}, at, c, Lost);
      StopsStay(s.stops, at, c, Lost);
      LogGrows(s.log, Dropped(c), c, Lost, at);
    }
  }

  lemma {:induction false} LaunchMoves(s: State, t: Tid, c: Ctx, at: Map)
    requires Enabled(s, LaunchOk(t, c)) && Located(s, at) && Once(s.log)
    ensures Located(Apply(s, LaunchOk(t, c)), Moved(s, LaunchOk(t, c), at)) && Once(Apply(s, LaunchOk(t, c)).log)
  {
    StartsGain(s.starts, at, t, s.starts[t].k, c);
    KeysStay(s.sessions, at, c, AtStart(t));
    StopsStay(s.stops, at, c, AtStart(t));
    LogGrows(s.log, Launched(c), c, AtStart(t), at);
  }

  lemma {:induction false} CommitMoves(s: State, t: Tid, at: Map)
    requires Enabled(s, Commit(t)) && Located(s, at) && Once(s.log)
    ensures Located(Apply(s, Commit(t)), Moved(s, Commit(t), at)) && Once(Apply(s, Commit(t)).log)
  {
    var Committing(k, c) := s.starts[t];
    assert HeldCtx(s.starts[t]) == Some(c) && Is(at, HeldCtx(s.starts[t]).value, AtStart(t));
    if Committed(s.sessions, k, c).1 {
      StartsLose(s.starts, at, t, c, AtKey(k));
      KeysGain(s.sessions, at, k, c);
      StopsStay(s.stops, at, c, AtKey(k));
      LogStays(s.log, at, c, AtKey(k));
    } else {
      assert StartsAgree(s.starts[t := Undoing(c)], at);
    }
  }

  lemma {:induction false} UndoMoves(s: State, t: Tid, at: Map)
    requires Enabled(s, Undo(t)) && Located(s, at) && Once(s.log)
    ensures Located(Apply(s, Undo(t)), Moved(s, Undo(t), at)) && Once(Apply(s, Undo(t)).log)
  {
    var c := s.starts[t].c;
    StartsLose(s.starts, at, t, c, Torn);
    KeysStay(s.sessions, at, c, Torn);
    StopsStay(s.stops, at, c, Torn);
    LogGrows(s.log, TornDown(c), c, Torn, at);
  }

  lemma {:induction false} TakeMoves(s: State, t: Tid, k: Key, at: Map)
    requires Enabled(s, StopTakes(t, k)) && Located(s, at) && Once(s.log)
    ensures Located(Apply(s, StopTakes(t, k)), Moved(s, StopTakes(t, k), at)) && Once(Apply(s, StopTakes(t, k)).log)
  {
    if k in s.sessions && s.sessions[k].Active? {
      var c := s.sessions[k].c;
      KeysLose(s.sessions, at, k, AtStop(t));
      StartsStay(s.starts, at, c, AtStop(t));
      StopsGain(s.stops, at, t, c);
      LogStays(s.log, at, c, AtStop(t));
    }
  }

  lemma {:induction false} TearMoves(s: State, t: Tid, at: Map)
    requires Enabled(s, StopTears(t)) && Located(s, at) && Once(s.log)
    ensures Located(Apply(s, StopTears(t)), Moved(s, StopTears(t), at)) && Once(Apply(s, StopTears(t)).log)
  {
    StopsLose(s.stops, at, t, Torn);
    StartsStay(s.starts, at, s.stops[t], Torn);
    KeysStay(s.sessions, at, s.stops[t], Torn);
    LogGrows(s.log, TornDown(s.stops[t]), s.stops[t], Torn, at);
  }

  lemma {:induction false} StepMoves(s: State, a: Step, at: Map)
    requires Enabled(s, a) && Located(s, at) && Once(s.log)
    ensures Located(Apply(s, a), Moved(s, a, at)) && Once(Apply(s, a).log)
  {
    match a
    case CallFails(t) => FailMoves(s, t, at);
    case LaunchOk(t, c) => LaunchMoves(s, t, c, at);
    case Commit(t) => CommitMoves(s, t, at);
    case Undo(t) => UndoMoves(s, t, at);
    case StopTakes(t, k) => TakeMoves(s, t, k, at);
    case StopTears(t) => TearMoves(s, t, at);
    case _ =>
  }

  lemma {:induction false} RunLocates(run: seq<Step>) returns (at: Map)
    requires IsRun(run)
    ensures Located(After(run), at) && Once(After(run).log)
    decreases |run|
  {
    if run == [] {
      at := map[];
    } else {
      var before := RunLocates(run[..|run| - 1]);
      StepMoves(After(run[..|run| - 1]), run[|run| - 1], before);
      at := Moved(After(run[..|run| - 1]), run[|run| - 1], before);
    }
  }

  /** After any run, a launched context is in exactly one place, and no other context is anywhere. */
  lemma {:induction false} ExactlyOnePlace(run: seq<Step>, c: Ctx)
    requires IsRun(run)
    ensures Launched(c) in After(run).log ==> exists p :: Places(After(run), c) == {p}
    ensures Launched(c) !in After(run).log ==> Places(After(run), c) == {}
  {
    var s := After(run);
    var at := RunLocates(run);
    if Launched(c) in s.log {
      assert Places(s, c) == {at[c]};
    }
  }

  /** Nothing is launched, torn down or dropped twice in a run. */
  lemma {:induction false} TornDownOnce(run: seq<Step>)
    requires IsRun(run)
    ensures Once(After(run).log)
  {
    var _ := RunLocates(run);
  }

  /** When no call is in flight, every launched context is active, torn down, or lost. */
  lemma {:induction false} Quiescent(run: seq<Step>, c: Ctx)
    requires IsRun(run) && Launched(c) in After(run).log
    requires After(run).starts == map[] && After(run).stops == map[]
    ensures exists p :: Places(After(run), c) == {p} && (p.AtKey? || p == Torn || p == Lost)
  {
    ExactlyOnePlace(run, c);
    var p :| Places(After(run), c) == {p};
    assert p in Places(After(run), c);
  }

  lemma {:induction false} Then(run: seq<Step>, a: Step)
    requires IsRun(run) && Enabled(After(run), a)
    ensures IsRun(run + [a]) && After(run + [a]) == Apply(After(run), a)
  {
    assert (run + [a])[..|run|] == run;
  }

  lemma {:induction false} StepKeepsUndoing(s: State, a: Step, t: Tid, c: Ctx)
    requires Enabled(s, a) && a != Undo(t) && t in s.starts && s.starts[t] == Undoing(c)
    ensures t in Apply(s, a).starts && Apply(s, a).starts[t] == Undoing(c)
  {
  }

  lemma {:induction false} UndoingWaits(run: seq<Step>, more: seq<Step>, t: Tid, c: Ctx)
    requires IsRun(run) && IsRun(run + more) && Undo(t) !in more
    requires t in After(run).starts && After(run).starts[t] == Undoing(c)
    ensures t in After(run + more).starts && After(run + more).starts[t] == Undoing(c)
    decreases |more|
  {
    if more == [] {
      assert run + more == run;
    } else {
      var less := more[..|more| - 1];
      assert (run + more)[..|run + more| - 1] == run + less;
      UndoingWaits(run, less, t, c);
      StepKeepsUndoing(After(run + less), more[|more| - 1], t, c);
    }
  }

  /**
   A start whose reservation a stop has removed keeps its own context through whatever the other
   threads do next, and then tears down that context and no other.
   */
  lemma {:induction false} CancelledStartUndoesItself(run: seq<Step>, more: seq<Step>, t: Tid, k: Key, c: Ctx)
    requires IsRun(run) && t in After(run).starts && After(run).starts[t] == Committing(k, c)
    requires k !in After(run).sessions
    requires IsRun(run + [Commit(t)] + more) && Undo(t) !in more
    ensures var s := After(run + [Commit(t)] + more);
            && Places(s, c) == {AtStart(t)}
            && Enabled(s, Undo(t)) && Apply(s, Undo(t)).log == s.log + [TornDown(c)]
            && Apply(s, Undo(t)).sessions == s.sessions
            && Places(Apply(s, Undo(t)), c) == {Torn}
  {
    var done := run + [Commit(t)] + more;
    Then(run, Commit(t));
    UndoingWaits(run + [Commit(t)], more, t, c);
    var at := RunLocates(done);
    assert HeldCtx(After(done).starts[t]) == Some(c);
    assert at[c] == AtStart(t);
    ExactlyOnePlace(done, c);
    assert AtStart(t) in Places(After(done), c);
    Then(done, Undo(t));
    ExactlyOnePlace(done + [Undo(t)], c);
    var s := After(done + [Undo(t)]);
    assert s.log[|s.log| - 1] == TornDown(c);
    assert Torn in Places(s, c);
  }

  // ----- When a context is lost -----

  /** A start that gives up would remove a committed session: the guard its cleanup lacks. */
  predicate Clobbers(s: State, a: Step) {
    && Enabled(s, a) && a.CallFails?
    && var k := s.starts[a.t].k;
    k in s.sessions && s.sessions[k].Active?
  }

  ghost predicate NeverClobbers(run: seq<Step>)
    requires IsRun(run)
    decreases |run|
  {
    run == [] || (NeverClobbers(run[..|run| - 1]) && !Clobbers(After(run[..|run| - 1]), run[|run| - 1]))
  }

  /** A context is lost in a run exactly when some failing start met a committed entry at its key. */
  lemma {:induction false} LostIffClobbered(run: seq<Step>)
    requires IsRun(run)
    ensures (exists c :: Dropped(c) in After(run).log) <==> !NeverClobbers(run)
    decreases |run|
  {
    if run != [] {
      var s, a := After(run[..|run| - 1]), run[|run| - 1];
      LostIffClobbered(run[..|run| - 1]);
      forall c ensures Dropped(c) in After(run).log <==>
                         Dropped(c) in s.log || (Clobbers(s, a) && s.sessions[s.starts[a.t].k] == Active(c)) {
      }
    }
  }

  /** Start `t` has reserved `k` and may still commit or fail. */
  predicate OnWay(starts: map<Tid, StartPc>, t: Tid, k: Key) {
    t in starts && !starts[t].Undoing? && starts[t].k == k
  }

  ghost predicate Idle(s: State, k: Key) {
    forall t :: !OnWay(s.starts, t, k)
  }

  /** A reservation succeeds only while no other start of that key is on its way. */
  ghost predicate Exclusive(run: seq<Step>)
    requires IsRun(run)
    decreases |run|
  {
    run == [] ||
    var s, a := After(run[..|run| - 1]), run[|run| - 1];
    Exclusive(run[..|run| - 1]) && (a.Reserve? && a.k !in s.sessions ==> Idle(s, a.k))
  }

  ghost predicate OneEach(starts: map<Tid, StartPc>) {
    forall t, u, k :: OnWay(starts, t, k) && OnWay(starts, u, k) ==> t == u
  }

  ghost predicate Uncommitted(s: State) {
    forall t, k :: OnWay(s.starts, t, k) ==> k !in s.sessions || s.sessions[k].Starting?
  }

  lemma {:induction false} StepOwns(s: State, a: Step)
    requires Enabled(s, a) && OneEach(s.starts) && Uncommitted(s)
    requires a.Reserve? && a.k !in s.sessions ==> Idle(s, a.k)
    ensures OneEach(Apply(s, a).starts) && Uncommitted(Apply(s, a)) && !Clobbers(s, a)
  {
    if a.CallFails? || a.IdentifyOk? || a.MarkOk? || a.LaunchOk? || a.Commit? {
      assert OnWay(s.starts, a.t, s.starts[a.t].k);
    }
    var n := Apply(s, a);
    forall t, k | OnWay(n.starts, t, k)
      ensures OnWay(s.starts, t, k) || (a.Reserve? && t == a.t && k == a.k && Idle(s, k) && n.sessions == s.sessions[k := Starting])
    {
    }
  }

  lemma {:induction false} ExclusiveOwns(run: seq<Step>)
    requires IsRun(run) && Exclusive(run)
    ensures OneEach(After(run).starts) && Uncommitted(After(run)) && NeverClobbers(run)
    decreases |run|
  {
    if run != [] {
      ExclusiveOwns(run[..|run| - 1]);
      StepOwns(After(run[..|run| - 1]), run[|run| - 1]);
    }
  }

  /** With no two starts of a key on their way at once, no session is ever lost. */
  lemma {:induction false} ExclusiveLosesNothing(run: seq<Step>, c: Ctx)
    requires IsRun(run) && Exclusive(run) && Launched(c) in After(run).log
    ensures exists p :: Places(After(run), c) == {p} && p != Lost
  {
    ExclusiveOwns(run);
    LostIffClobbered(run);
    ExactlyOnePlace(run, c);
    var p :| Places(After(run), c) == {p};
    assert p in Places(After(run), c);
  }

  lemma {:induction false} Reaches(run: seq<Step>, s: State, a: Step, n: State)
    requires IsRun(run) && After(run) == s
    requires Enabled(s, a) && Apply(s, a) == n
    ensures IsRun(run + [a]) && After(run + [a]) == n
  {
    Then(run, a);
  }

  /** Start 1 has a live session 7 for key 0 and is about to commit it. */
  lemma {:induction false} FirstStartLaunches() returns (run: seq<Step>)
    ensures run == [Reserve(1, 0), IdentifyOk(1), MarkOk(1), LaunchOk(1, 7)]
    ensures IsRun(run) && After(run) == State(map[0 := Starting], map[1 := Committing(0, 7)], map[], [Launched(7)])
  {
    var s1 := INITIAL.(sessions := map[0 := Starting], starts := map[1 := Identifying(0)]);
    Reaches([], INITIAL, Reserve(1, 0), s1);
    run := [] + [Reserve(1, 0)];
    Reaches(run, s1, IdentifyOk(1), s1.(starts := map[1 := Marking(0)]));
    run := run + [IdentifyOk(1)];
    Reaches(run, s1.(starts := map[1 := Marking(0)]), MarkOk(1), s1.(starts := map[1 := Launching(0)]));
    run := run + [MarkOk(1)];
    var s4 := State(map[0 := Starting], map[1 := Committing(0, 7)], map[], [Launched(7)]);
    Reaches(run, s1.(starts := map[1 := Launching(0)]), LaunchOk(1, 7), s4);
    run := run + [LaunchOk(1, 7)];
  }

  /**
   Without that, one can be: start 2 reserves the key that a stop freed from start 1, start 1
   commits onto start 2's reservation, and start 2 fails and removes what start 1 committed.
   */
  lemma {:induction false} OverlappingStartsLose() returns (run: seq<Step>)
    ensures IsRun(run) && !Exclusive(run)
    ensures Places(After(run), 7) == {Lost} && After(run).sessions == map[] && After(run).starts == map[]
  {
    var first := FirstStartLaunches();
    run := first;
    var s4 := After(run);
    var s5 := s4.(sessions := map[]);
    Reaches(run, s4, StopTakes(3, 0), s5);
    run := run + [StopTakes(3, 0)];
    var s6 := s5.(sessions := map[0 := Starting], starts := map[1 := Committing(0, 7), 2 := Identifying(0)]);
    Reaches(run, s5, Reserve(2, 0), s6);
    run := run + [Reserve(2, 0)];
    var s7 := s6.(sessions := map[0 := Active(7)], starts := map[2 := Identifying(0)]);
    Reaches(run, s6, Commit(1), s7);
    run := run + [Commit(1)];
    var s8 := State(map[], map[], map[], [Launched(7), Dropped(7)]);
    Reaches(run, s7, CallFails(2), s8);
    run := run + [CallFails(2)];
    assert Dropped(7) == s8.log[1];
    assert Lost in Places(s8, 7);
    if Exclusive(run) {
      ExclusiveLosesNothing(run, 7);
      assert false;
    }
  }

  // ----- Exclusiveness is what it takes -----

  predicate NoNewCall(more: seq<Step>) {
    forall a :: a in more ==> !a.Reserve? && !a.StopTakes?
  }

  /** The starts and stops already called can go on, with no other call begun, so that a session is lost. */
  ghost predicate LosesBy(run: seq<Step>, more: seq<Step>) {
    NoNewCall(more) && IsRun(run + more) && exists c :: Dropped(c) in After(run + more).log
  }

  ghost predicate AtRisk(run: seq<Step>) {
    exists more :: LosesBy(run, more)
  }

  lemma {:induction false} FreshCtx(log: seq<Event>) returns (c: Ctx)
    ensures forall d: Ctx :: Launched(d) in log ==> d < c
    decreases |log|
  {
    if log == [] {
      c := 0;
    } else {
      c := FreshCtx(log[1..]);
      if log[0].Launched? && log[0].c >= c { c := log[0].c + 1; }
      assert log == [log[0]] + log[1..];
    }
  }

  /** A start on its way can get to its commit while everyone else waits. */
  lemma {:induction false} BringToCommit(run: seq<Step>, t: Tid, k: Key) returns (more: seq<Step>, c: Ctx)
    requires IsRun(run) && OnWay(After(run).starts, t, k)
    ensures NoNewCall(more) && IsRun(run + more)
    ensures After(run + more).sessions == After(run).sessions
    ensures After(run + more).starts == After(run).starts[t := Committing(k, c)]
    decreases match After(run).starts[t] case Identifying(_) => 3 case Marking(_) => 2 case Launching(_) => 1 case _ => 0
  {
    var s := After(run);
    match s.starts[t]
    case Committing(_, d) =>
      more, c := [], d;
      assert run + more == run && s.starts[t := Committing(k, c)] == s.starts;
    case Identifying(_) => more, c := GoOn(run, t, k, IdentifyOk(t));
    case Marking(_) => more, c := GoOn(run, t, k, MarkOk(t));
    case Launching(_) =>
      var d := FreshCtx(s.log);
      more, c := GoOn(run, t, k, LaunchOk(t, d));
  }

  lemma {:induction false} GoOn(run: seq<Step>, t: Tid, k: Key, a: Step) returns (more: seq<Step>, c: Ctx)
    requires IsRun(run) && OnWay(After(run).starts, t, k) && Enabled(After(run), a)
    requires (a == IdentifyOk(t)) || (a == MarkOk(t)) || (a.LaunchOk? && a.t == t)
    ensures NoNewCall(more) && IsRun(run + more)
    ensures After(run + more).sessions == After(run).sessions
    ensures After(run + more).starts == After(run).starts[t := Committing(k, c)]
    decreases match After(run).starts[t] case Identifying(_) => 3 case Marking(_) => 2 case Launching(_) => 1 case _ => 0, 0
  {
    Then(run, a);
    var rest: seq<Step>;
    rest, c := BringToCommit(run + [a], t, k);
    more := [a] + rest;
    assert run + more == run + [a] + rest;
  }

  /** The older start commits over the newer reservation, and the newer start fails. */
  lemma {:induction false} OverlapLoses(run: seq<Step>, t: Tid, u: Tid, k: Key)
    requires IsRun(run) && OnWay(After(run).starts, t, k) && u in After(run).starts && After(run).starts[u] == Identifying(k)
    requires t != u && k in After(run).sessions && After(run).sessions[k].Starting?
    ensures AtRisk(run)
  {
    var more, c := BringToCommit(run, t, k);
    var s := After(run + more);
    Then(run + more, Commit(t));
    var s1 := Apply(s, Commit(t));
    assert s1.sessions == s.sessions[k := Active(c)] && u in s1.starts && s1.starts[u] == Identifying(k);
    Then(run + more + [Commit(t)], CallFails(u));
    var all := more + [Commit(t), CallFails(u)];
    assert run + all == run + more + [Commit(t)] + [CallFails(u)];
    var log := After(run + all).log;
    assert log == s1.log + [Dropped(c)] && log[|log| - 1] == Dropped(c);
    assert LosesBy(run, all);
  }

  lemma {:induction false} ExclusiveOn(run: seq<Step>, more: seq<Step>)
    requires IsRun(run) && Exclusive(run) && NoNewCall(more) && IsRun(run + more)
    ensures Exclusive(run + more)
    decreases |more|
  {
    if more == [] {
      assert run + more == run;
    } else {
      var init := more[..|more| - 1];
      assert (run + more)[..|run + more| - 1] == run + init;
      assert (run + more)[|run + more| - 1] == more[|more| - 1] && more[|more| - 1] in more;
      ExclusiveOn(run, init);
    }
  }

  lemma {:induction false} ExclusiveNotAtRisk(run: seq<Step>)
    requires IsRun(run) && Exclusive(run)
    ensures !AtRisk(run)
  {
    if AtRisk(run) {
      var more :| LosesBy(run, more);
      ExclusiveOn(run, more);
      ExclusiveOwns(run + more);
      LostIffClobbered(run + more);
      assert false;
    }
  }

  /** After a successful reservation, a session can be lost if and only if the key had a start on its way. */
  lemma {:induction false} ReserveRisksIff(run: seq<Step>, u: Tid, k: Key)
    requires IsRun(run) && Exclusive(run) && Enabled(After(run), Reserve(u, k)) && k !in After(run).sessions
    ensures IsRun(run + [Reserve(u, k)])
    ensures AtRisk(run + [Reserve(u, k)]) <==> !Idle(After(run), k)
  {
    var next := run + [Reserve(u, k)];
    Then(run, Reserve(u, k));
    assert next[..|next| - 1] == run;
    if Idle(After(run), k) {
      ExclusiveNotAtRisk(next);
    } else {
      var t :| OnWay(After(run).starts, t, k);
      assert OnWay(After(next).starts, t, k);
      OverlapLoses(next, t, u, k);
    }
  }

  lemma {:induction false} PrefixIsRun(run: seq<Step>, n: nat)
    requires IsRun(run) && n <= |run|
    ensures IsRun(run[..n]) && (Exclusive(run) ==> Exclusive(run[..n]))
    decreases |run|
  {
    if n == |run| {
      assert run[..n] == run;
    } else {
      PrefixIsRun(run[..|run| - 1], n);
      assert run[..|run| - 1][..n] == run[..n];
    }
  }

  /** Reservations are exclusive if and only if the calls under way could never, at any point, lose a session. */
  lemma {:induction false} ExclusiveIffNeverAtRisk(run: seq<Step>)
    requires IsRun(run)
    ensures Exclusive(run) <==> forall n :: 0 <= n <= |run| ==> !AtRisk(run[..n])
    decreases |run|
  {
    if Exclusive(run) {
      forall n | 0 <= n <= |run| ensures !AtRisk(run[..n]) {
        PrefixIsRun(run, n);
        ExclusiveNotAtRisk(run[..n]);
      }
    } else {
      var init, a := run[..|run| - 1], run[|run| - 1];
      assert run == init + [a] && run[..|run|] == run;
      ExclusiveIffNeverAtRisk(init);
      if Exclusive(init) {
        ReserveRisksIff(init, a.t, a.k);
      } else {
        var n :| 0 <= n <= |init| && AtRisk(init[..n]);
        assert init[..n] == run[..n];
      }
    }
  }
}
