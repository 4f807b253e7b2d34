/** The rewriter's calls run in the pool: whatever the schedule, the file comes out the same. */
module PromptPool {
  import opened Wrappers
  import opened WorkerPool
  import opened PromptRewrite

  /** What task `g` of the pool gives: the outcomes for chunk `g`. */
  function Task(groups: seq<seq<Entry>>, answers: nat -> Answer): nat -> seq<Out> {
    (g: nat) => if g < |groups| then OutsOf(groups[g], answers(g)) else []
  }

  /** The outcomes of all chunks, in the order of the results. */
  function Gathered(results: seq<Option<seq<Out>>>): seq<Out> {
    if results == [] then [] else (if results[0].Some? then results[0].value else []) + Gathered(results[1..])
  }

  lemma {:induction false} GatheredIsResolved(groups: seq<seq<Entry>>, answers: nat -> Answer, g: nat, results: seq<Option<seq<Out>>>)
    requires |results| == |groups|
    requires forall i :: 0 <= i < |groups| ==> results[i] == Some(OutsOf(groups[i], answers(g + i)))
    ensures Gathered(results) == Resolved(groups, answers, g)
    decreases |groups|
  {
    if groups != [] {
      forall i | 0 <= i < |groups[1..]| ensures results[1..][i] == Some(OutsOf(groups[1..][i], answers(g + 1 + i))) {
        assert results[1..][i] == results[i + 1] && groups[1..][i] == groups[i + 1] && g + 1 + i == g + (i + 1);
      }
      GatheredIsResolved(groups[1..], answers, g + 1, results[1..]);
    }
  }

  /** Once every worker has left, the gathered results are the outcomes chunk by chunk. */
  lemma {:induction false} AnyScheduleResolves(groups: seq<seq<Entry>>, answers: nat -> Answer, width: int, turns: seq<Turn>)
    requires IsSchedule(width, |groups|, Task(groups, answers), turns) && AllGone(After(width, |groups|, Task(groups, answers), turns))
    ensures Gathered(After(width, |groups|, Task(groups, answers), turns).results) == Resolved(groups, answers, 0)
  {
    var task := Task(groups, answers);
    var p := After(width, |groups|, task, turns);
    ResultsInOrder(width, |groups|, task, turns);
    forall i | 0 <= i < |groups| ensures p.results[i] == Some(OutsOf(groups[i], answers(0 + i))) {
      assert p.results[i] == Some(task(i));
    }
    GatheredIsResolved(groups, answers, 0, p.results);
  }

  /**
   Under any schedule of any width, putting the gathered results back into the lines gives the
   rewritten file: it depends on the answers, not on the order in which they came.
   */
  lemma {:induction false} AnyScheduleRewrites(rules: Rules, content: string, limit: int, size: int, answers: nat -> Answer,
                                               width: int, turns: seq<Turn>, results: seq<Option<seq<Out>>>)
    requires var groups := Groups(rules, SplitLines(content), limit, size);
      && IsSchedule(width, |groups|, Task(groups, answers), turns)
      && AllGone(After(width, |groups|, Task(groups, answers), turns))
      && results == After(width, |groups|, Task(groups, answers), turns).results
    ensures forall k :: 0 <= k < |Gathered(results)| ==> Gathered(results)[k].entry.index < |SplitLines(content)|
    ensures PutOuts(SplitLines(content), Gathered(results)) == Rewritten(rules, content, limit, size, answers)
  {
    AnyScheduleResolves(Groups(rules, SplitLines(content), limit, size), answers, width, turns);
    OutsFromLines(rules, SplitLines(content), limit, size, answers);
  }
}
