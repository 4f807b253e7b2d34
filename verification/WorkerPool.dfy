/**
 A bounded pool of workers over a list of tasks. The workers share the counter of tasks handed
 out; between two awaits a worker runs alone. A schedule is any sequence of turns the workers
 take: claiming the next task or leaving, and a task's call coming back or throwing.
 */
module WorkerPool {
  import opened Wrappers

  datatype Worker = Idle | Running(task: nat) | Thrown(at: nat) | Gone

  datatype Pool<R> = Pool(next: nat, workers: seq<Worker>, results: seq<Option<R>>)

  datatype Turn = Claim(w: nat) | Returns(w: nat) | Throws(w: nat)

  /** As many workers as the limit and the tasks allow, and at least one. */
  function Width(limit: int, tasks: nat): (w: nat)
    ensures 1 <= w && (w <= limit || w == 1) && (w <= tasks || w == 1)
    ensures w == limit || w == tasks || limit < 1 || tasks < 1
  {
    var least := if limit < tasks then limit else tasks;
    if least < 1 then 1 else least
  }

  function Opened<R>(limit: int, tasks: nat): Pool<R> {
    Pool(0, seq(Width(limit, tasks), _ => Idle), seq(tasks, _ => None))
  }

  predicate Enabled<R>(p: Pool<R>, t: Turn) {
    && t.w < |p.workers|
    && match t
       case Claim(w) => p.workers[w].Idle?
       case Returns(w) => p.workers[w].Running? && p.workers[w].task < |p.results|
       case Throws(w) => p.workers[w].Running?
  }

  /** What a turn does, when task `i` comes back with `answer(i)`. */
  function Took<R>(p: Pool<R>, t: Turn, answer: nat -> R): Pool<R>
    requires Enabled(p, t)
  {
    match t
    case Claim(w) =>
      p.(next := p.next + 1, workers := p.workers[w := if p.next < |p.results| then Running(p.next) else Gone])
    case Returns(w) =>
      var i := p.workers[w].task;
      p.(results := p.results[i := Some(answer(i))], workers := p.workers[w := Idle])
    case Throws(w) => p.(workers := p.workers[w := Thrown(p.workers[w].task)])
  }

  ghost predicate IsSchedule<R(!new)>(limit: int, tasks: nat, answer: nat -> R, turns: seq<Turn>)
    decreases |turns|, 0
  {
    turns == [] ||
    (IsSchedule(limit, tasks, answer, turns[..|turns| - 1])
     && Enabled(After(limit, tasks, answer, turns[..|turns| - 1]), turns[|turns| - 1]))
  }

  ghost function After<R(!new)>(limit: int, tasks: nat, answer: nat -> R, turns: seq<Turn>): Pool<R>
    requires IsSchedule(limit, tasks, answer, turns)
    decreases |turns|, 1
  {
    if turns == [] then Opened(limit, tasks)
    else Took(After(limit, tasks, answer, turns[..|turns| - 1]), turns[|turns| - 1], answer)
  }

  /** The task a worker has taken and not finished. */
  function Holds(w: Worker): Option<nat> {
    match w
    case Running(i) => Some(i)
    case Thrown(i) => Some(i)
    case _ => None
  }

  predicate Held<R>(p: Pool<R>, i: nat) {
    exists w :: 0 <= w < |p.workers| && Holds(p.workers[w]) == Some(i)
  }

  /** A handed-out task is with one worker or has its result, its own; no other has either. */
  ghost predicate Accounted<R(!new)>(p: Pool<R>, answer: nat -> R) {
    && (forall w :: 0 <= w < |p.workers| && Holds(p.workers[w]).Some? ==> Owed(p, Holds(p.workers[w]).value))
    && (forall v, w :: 0 <= v < w < |p.workers| && Holds(p.workers[v]).Some? ==> Holds(p.workers[v]) != Holds(p.workers[w]))
    && (forall i :: 0 <= i < |p.results| && p.results[i].Some? ==> i < p.next && p.results[i].value == answer(i))
    && (forall i :: 0 <= i < |p.results| && i < p.next && p.results[i].None? ==> Held(p, i))
    && (forall w :: 0 <= w < |p.workers| && p.workers[w].Gone? ==> p.next >= |p.results|)
  }

  predicate Owed<R>(p: Pool<R>, i: nat) {
    i < p.next && i < |p.results| && p.results[i].None?
  }

  lemma {:induction false} HolderStays<R>(p: Pool<R>, q: Pool<R>, w: nat, i: nat)
    requires Held(p, i) && |q.workers| == |p.workers| && w < |p.workers|
    requires forall v :: 0 <= v < |p.workers| && v != w ==> q.workers[v] == p.workers[v]
    requires Holds(p.workers[w]) == Some(i) ==> Holds(q.workers[w]) == Some(i)
    ensures Held(q, i)
  {
    var v :| 0 <= v < |p.workers| && Holds(p.workers[v]) == Some(i);
    assert Holds(q.workers[v]) == Some(i);
  }

  lemma {:induction false} ClaimKeeps<R(!new)>(p: Pool<R>, w: nat, answer: nat -> R)
    requires Accounted(p, answer) && Enabled(p, Claim(w))
    ensures Accounted(Took(p, Claim(w), answer), answer)
  {
    var q := Took(p, Claim(w), answer);
    forall i | 0 <= i < |q.results| && i < q.next && q.results[i].None? ensures Held(q, i) {
      if i == p.next {
        assert Holds(q.workers[w]) == Some(i);
      } else {
        HolderStays(p, q, w, i);
      }
    }
  }

  lemma {:induction false} ReturnKeeps<R(!new)>(p: Pool<R>, w: nat, answer: nat -> R)
    requires Accounted(p, answer) && Enabled(p, Returns(w))
    ensures Accounted(Took(p, Returns(w), answer), answer)
  {
    var q := Took(p, Returns(w), answer);
    var done := p.workers[w].task;
    assert Owed(p, Holds(p.workers[w]).value);
    forall v | 0 <= v < |q.workers| && Holds(q.workers[v]).Some? ensures Owed(q, Holds(q.workers[v]).value) {
      assert v != w && Holds(q.workers[v]) == Holds(p.workers[v]);
    }
    forall i | 0 <= i < |q.results| && i < q.next && q.results[i].None? ensures Held(q, i) {
      HolderStays(p, q, w, i);
    }
  }

  lemma {:induction false} ThrowKeeps<R(!new)>(p: Pool<R>, w: nat, answer: nat -> R)
    requires Accounted(p, answer) && Enabled(p, Throws(w))
    ensures Accounted(Took(p, Throws(w), answer), answer)
  {
    var q := Took(p, Throws(w), answer);
    assert forall v :: 0 <= v < |p.workers| ==> Holds(q.workers[v]) == Holds(p.workers[v]);
    forall i | 0 <= i < |q.results| && i < q.next && q.results[i].None? ensures Held(q, i) {
      HolderStays(p, q, w, i);
    }
  }

  lemma {:induction false} EveryScheduleAccounts<R(!new)>(limit: int, tasks: nat, answer: nat -> R, turns: seq<Turn>)
    requires IsSchedule(limit, tasks, answer, turns)
    ensures var p := After(limit, tasks, answer, turns);
            Accounted(p, answer) && |p.results| == tasks && |p.workers| == Width(limit, tasks)
    decreases |turns|
  {
    if turns != [] {
      EveryScheduleAccounts(limit, tasks, answer, turns[..|turns| - 1]);
      var p := After(limit, tasks, answer, turns[..|turns| - 1]);
      match turns[|turns| - 1]
      case Claim(w) => ClaimKeeps(p, w, answer);
      case Returns(w) => ReturnKeeps(p, w, answer);
      case Throws(w) => ThrowKeeps(p, w, answer);
    }
  }

  /** Under every schedule no task is with two workers, and none is with a worker and finished. */
  lemma {:induction false} NoTaskTwice<R(!new)>(limit: int, tasks: nat, answer: nat -> R, turns: seq<Turn>, v: nat, w: nat)
    requires IsSchedule(limit, tasks, answer, turns)
    requires v < |After(limit, tasks, answer, turns).workers| && w < |After(limit, tasks, answer, turns).workers|
    requires Holds(After(limit, tasks, answer, turns).workers[v]).Some?
    ensures var p := After(limit, tasks, answer, turns);
            && (v != w ==> Holds(p.workers[v]) != Holds(p.workers[w]))
            && Owed(p, Holds(p.workers[v]).value)
  {
    EveryScheduleAccounts(limit, tasks, answer, turns);
    assert Owed(After(limit, tasks, answer, turns), Holds(After(limit, tasks, answer, turns).workers[v]).value);
  }

  function RunningIn(workers: seq<Worker>): nat {
    if workers == [] then 0 else (if workers[0].Running? then 1 else 0) + RunningIn(workers[1..])
  }

  lemma {:induction false} RunningFits(workers: seq<Worker>)
    ensures RunningIn(workers) <= |workers|
    decreases |workers|
  {
    if workers != [] { RunningFits(workers[1..]); }
  }

  /** Never more calls in flight than the limit allows. */
  lemma {:induction false} InFlightBounded<R(!new)>(limit: int, tasks: nat, answer: nat -> R, turns: seq<Turn>)
    requires IsSchedule(limit, tasks, answer, turns)
    ensures RunningIn(After(limit, tasks, answer, turns).workers) <= if limit < 1 then 1 else limit
  {
    EveryScheduleAccounts(limit, tasks, answer, turns);
    RunningFits(After(limit, tasks, answer, turns).workers);
  }

  predicate AllGone<R>(p: Pool<R>) {
    forall w :: 0 <= w < |p.workers| ==> p.workers[w].Gone?
  }

  /** Once every worker has left, every task has its own answer at its own place. */
  lemma {:induction false} ResultsInOrder<R(!new)>(limit: int, tasks: nat, answer: nat -> R, turns: seq<Turn>)
    requires IsSchedule(limit, tasks, answer, turns) && AllGone(After(limit, tasks, answer, turns))
    ensures var p := After(limit, tasks, answer, turns);
            |p.results| == tasks && forall i :: 0 <= i < tasks ==> p.results[i] == Some(answer(i))
  {
    EveryScheduleAccounts(limit, tasks, answer, turns);
    var p := After(limit, tasks, answer, turns);
    assert p.workers[0].Gone?;
  }

  // ----- Every schedule ends -----

  function Remaining(w: Worker): nat {
    match w
    case Idle => 1
    case Running(_) => 2
    case _ => 0
  }

  function Total(workers: seq<Worker>): nat {
    if workers == [] then 0 else Remaining(workers[0]) + Total(workers[1..])
  }

  function TurnsLeft<R>(p: Pool<R>): nat {
    Total(p.workers) + (if p.next < |p.results| then 2 * (|p.results| - p.next) else 0)
  }

  lemma {:induction false} TotalPut(workers: seq<Worker>, w: nat, x: Worker)
    requires w < |workers|
    ensures Total(workers[w := x]) == Total(workers) - Remaining(workers[w]) + Remaining(x)
    decreases |workers|
  {
    if w > 0 {
      assert workers[w := x][1..] == workers[1..][w - 1 := x];
      TotalPut(workers[1..], w - 1, x);
    } else {
      assert workers[w := x][1..] == workers[1..];
    }
  }

  /** Each turn uses one up, so no schedule has more than two per task and one per worker. */
  lemma {:induction false} TurnUsesOne<R(!new)>(p: Pool<R>, t: Turn, answer: nat -> R)
    requires Enabled(p, t)
    ensures TurnsLeft(Took(p, t, answer)) < TurnsLeft(p)
  {
    var q := Took(p, t, answer);
    TotalPut(p.workers, t.w, q.workers[t.w]);
  }

  lemma {:induction false} IdleTotal(n: nat)
    ensures Total(seq(n, _ => Idle)) == n
    decreases n
  {
    if n > 0 {
      var all := seq(n, _ => Idle);
      assert all[1..] == seq(n - 1, _ => Idle);
      IdleTotal(n - 1);
    }
  }

  lemma {:induction false} SchedulesEnd<R(!new)>(limit: int, tasks: nat, answer: nat -> R, turns: seq<Turn>)
    requires IsSchedule(limit, tasks, answer, turns)
    ensures |turns| + TurnsLeft(After(limit, tasks, answer, turns)) <= 2 * tasks + Width(limit, tasks)
    decreases |turns|
  {
    if turns == [] {
      IdleTotal(Width(limit, tasks));
    } else {
      SchedulesEnd(limit, tasks, answer, turns[..|turns| - 1]);
      TurnUsesOne(After(limit, tasks, answer, turns[..|turns| - 1]), turns[|turns| - 1], answer);
    }
  }

  /** A pool is never stuck: while a worker has not left or thrown, some turn can be taken. */
  lemma {:induction false} NeverStuck<R(!new)>(limit: int, tasks: nat, answer: nat -> R, turns: seq<Turn>, w: nat)
    requires IsSchedule(limit, tasks, answer, turns) && w < |After(limit, tasks, answer, turns).workers|
    requires var x := After(limit, tasks, answer, turns).workers[w]; x.Idle? || x.Running?
    ensures Enabled(After(limit, tasks, answer, turns), Claim(w)) || Enabled(After(limit, tasks, answer, turns), Returns(w))
  {
    EveryScheduleAccounts(limit, tasks, answer, turns);
    var p := After(limit, tasks, answer, turns);
    if p.workers[w].Running? { assert Owed(p, Holds(p.workers[w]).value); }
  }
}
