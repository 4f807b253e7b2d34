# Verified models of the algorithmic kernels

This project models, in Dafny, the parts of the repository where being wrong is easy and quiet,
and proves what they promise for every input, run or schedule. The original programs are not
linked in; the sources cited below are followed branch by branch.

| part | modules | source |
|---|---|---|
| function inliner | `JsExpr`, `JsSemantics`, `GuardInversion`, `FreshNames`, `Inliner`, `InlinerArguments`, `InlinerSoundness`, `InlinerTheorems`, `InlinerDefault`, `InlinerHoists`, `InlinerReads`, `InlinerBindings`, `InlinerFailures`, `InlinerExample` | `scripts/inline-functions.ts` |
| structural summariser | `SummaryForest`, `SummaryContents`, `SummaryGeometry`, `Summary`, `SummarySegments`, `SummaryExactness`, `SummaryOverlaps` | `crates/pi-ast/src/summary.rs` |
| ProjFS sessions, enumeration, file data | `ProjfsSessions`, `ProjfsEnumeration`, `ProjfsFileData` | `crates/pi-iso/src/projfs.rs` |
| changelog fixer | `ChangelogText`, `ChangelogDocument`, `ChangelogRoundTrip`, `ChangelogFix`, `ChangelogPasses`, `ChangelogConservation`, `ChangelogFixpoint`, `ChangelogStability`, `ChangelogOrder`, `ChangelogPlacement`, `ChangelogPairing`, `ChangelogScan` | `scripts/fix-changelogs.ts` |
| edit splicing | `Splice`, `Sorting` | `crates/pi-ast/src/ops.rs`, `scripts/inline-functions.ts` |
| interval coverage and read replays | `Intervals`, `Replay`, `ReadPaging`, `BlockBoundaries` | `scripts/session-stats/*.py`, `crates/pi-ast/src/block.rs` |
| log ingestion | `SessionSync`, `SessionSyncContents`, `SessionSyncRuns`, `SessionSyncCuts` | `scripts/session-stats/sync.py` |
| worker pool and prompt rewrite | `WorkerPool`, `PromptRewrite`, `PromptContents`, `PromptPool`, `PromptTokens` | `scripts/rewrite-system-prompt.ts` |
| edit-prefix recogniser | `EditPrefix`, `EditGrammar` | `scripts/session-stats/harmony_backtest.py` |
| git-diff splitter | `GitDiff`, `GitDiffContents` | `crates/pi-iso/src/diff.rs` |
| shared | `Wrappers`, `Sets` | |

Code that loops over variables or fields is a method or a class whose contract ties it to a
specification function; the theorems are about those functions. What a function computes is said a
second time without it, over the data as it comes: the `*Contents`, `*Hoists`, `*Placement`, `*Scan`
and `*Grammar` modules hold those statements for the larger parts. Effects are explicit: a JavaScript
host is a choice of call, member-read and comparison functions over a world of cells, heap and
trace, arbitrary unless a theorem says otherwise, so the results on strict effects hold for
getters, throwing operands and mutating calls. Concurrent code is a step relation, and its
theorems range over every finite run.
Every lemma carries `{:induction false}`, so that each proof rests on its own steps only.

## Where the code does less than it says

Each has an exact condition or a concrete input among the lemmas.

- Ordering comparators are flipped (`scripts/inline-functions.ts:138-147`), which the header calls
  sound; it is exactly when the operands are ordered (`FlipExactIffOrdered`, `UnorderedFlipFails`).
- Temporaries and renamed locals are fresh for the target block only
  (`scripts/inline-functions.ts:767-780`), not for the helper, and locals of a guarded tail or of a
  branch are not renamed at all: names of the replacement keep their meaning exactly under a check
  the source does not make (`NamesKeptIff`), and four calls show it missing (`StrictTempCaptures`,
  `StrictCalleeCaptures`, `GuardedLocalCaptures`, `BranchLocalCaptures`).
- The shadow check passes over free names that some branch of the helper also declares
  (`scripts/inline-functions.ts:418-450`; `CheckedNamesKeptIff`, `ShadowedFreeName`).
- By default a called parameter may become a method call, whose receiver the helper's call did not
  have (`ReceiversKeptIff`, `MethodGetsReceiver`).
- By default an identifier left in place is read when the body reaches it, so a call in between may
  change it (`LateReadFails`), and so may the call in a later argument, which goes in front
  (`LaterArgumentOvertakes`); the header only excuses member reads
  (`scripts/inline-functions.ts:39-46`). `TextsYieldIff` says when every read is right,
  `MixedExact`, `ReadsFirstExact` and `MixedReadsFirst` give conditions on what is read and on the
  text of helper and arguments.
- A numeric literal substituted for a parameter that is followed by a dot gives text that does not
  parse (`SubstReadsBack`); only the default mode substitutes literals.
- Spans are "strictly contained" by the comment at `crates/pi-ast/src/summary.rs:80-81`; in the
  code a child may equal its parent (`ChildFillsParent`). The counter `visible` is the printed
  number of kept lines exactly when nothing elidable lies strictly inside an elided run
  (`TreeCountsRightIff`, `MiscountedCountsWrong`).
- A failing ProjFS start removes the key without looking (`crates/pi-iso/src/projfs.rs:354`, `:371`,
  `:401`) and can drop a session another start committed, exactly when two starts of a key are on
  their way at once (`ExclusiveIffNeverAtRisk`, `ReserveRisksIff`, `OverlappingStartsLose`).
- An enumeration call may succeed with nothing although entries are left
  (`EmptyAnswerMisleads`).
- Merging subsections of one title can leave a blank line, so the changelog fixer is stable from
  the second run (`StableFromFirstRunIff`, `SplitFixesUnstable`, `StableFromSecondRun`).
- A log synced while its last line is half written loses that line (`TwoSyncsAreFullIff`,
  `CutLineIsLost`).
- The comment on `rewriteAll` promises that an answer dropping a fragile token falls back to the
  original line (`scripts/rewrite-system-prompt.ts:272-274`); the function itself takes any answered
  text and leaves the check to its rewriter (`TokensKeptIff`, `DroppedToken`), which in the
  repository makes it (`OwnRewriterKeeps`).
- The truncation counter of the read optimiser also counts calls that lose no requested line
  (`CountedIffCutOrTight`).

## Model

| member | source | states |
|---|---|---|
| JsExpr.ReadsBackIffFits | scripts/inline-functions.ts:302-355 | Printed text re-read with the precedence and left associativity of ECMA-262 section 13.13 gives the tree back if and only if no operand binds looser than its place allows and no numeric literal stands before a dot |
| JsSemantics.SubstReadsBack | scripts/inline-functions.ts:269-300 | After arguments are spliced in with `argNeedsParens` parentheses, the text reads as the substituted tree if and only if no numeric literal lands in front of a dot |
| GuardInversion.ConditionReadsBack | scripts/inline-functions.ts:302-355 | The emitted condition, built piece by piece with remembered precedences, parses to the intended negated tree for any nesting of `!`, `&&`, or, comparators and parentheses |
| GuardInversion.FlipExactIffOrdered | scripts/inline-functions.ts:138-147 | A flipped comparator has the complementary truth, the same effects and the same throw if and only if its operands are ordered; equality flips always |
| GuardInversion.NegationInverts | scripts/inline-functions.ts:314-344 | De Morgan on any expression: same atoms in the same order, same world, complementary truth, with ordering asked only of the comparators that are reached |
| GuardInversion.InversionExactIffOrdered | scripts/inline-functions.ts:138-147 | Every inversion of every expression in every world is exact if and only if every run of every expression is ordered |
| GuardInversion.PartsInvert | scripts/inline-functions.ts:351-355 | The conjunction of negated guards, as grouped by the reader, stops where the first guard would have returned |
| GuardInversion.GuardInversionSound | scripts/inline-functions.ts:351-355 | The printed condition is truthy exactly when no `if (g) return;` would have fired, and throws and leaves the world as the guards do |
| GuardInversion.UnorderedFlipFails | scripts/inline-functions.ts:138-147 | Concrete failure: `NaN < 1` does not fire, and neither does its inversion hold |
| FreshNames.PickFresh | scripts/inline-functions.ts:499-505 | The search loop ends and yields a name not taken, the base name or the first free numbered one |
| FreshNames.FreshNameIs | scripts/inline-functions.ts:499-505 | That name is the base, or the base, an underscore and the first decimal number from 2 on that makes it free |
| Inliner.BuildArguments | scripts/inline-functions.ts:846-880 | The argument loop, with its growing set of reserved names, computes the plan that `ArgumentsPlanned` and `CallsInFront` describe |
| InlinerHoists.UsesAreMentions | scripts/inline-functions.ts:846-880 | The uses the plan goes by are the mentions of the name in the helper's guards and tail, callees included |
| InlinerHoists.ArgumentsPlanned | scripts/inline-functions.ts:846-880 | In either mode, over the arguments' own syntax: which of them stand in front, in argument order, as a temporary or for their effect; which are written in place, in parentheses where needed; and which are dropped |
| InlinerHoists.CallsInFront | scripts/inline-functions.ts:846-880 | By default no text that stands for a parameter calls anything, and every argument with a call stands in front, in argument order, as the temporary of its parameter if that is used |
| Inliner.RenameCollidingLocals | scripts/inline-functions.ts:788-822 | The renaming loop over the tail computes the renaming whose properties `RenamesApart` states |
| InlinerTheorems.RenamesApart | scripts/inline-functions.ts:788-822 | New names of tail locals avoid every name taken in the target block and each other |
| InlinerHoists.RenamesWhatIsTaken | scripts/inline-functions.ts:788-822 | A tail local is renamed if its name is taken in the target block, and else only if that name was given to an earlier one; its new name is the old with a number |
| InlinerTheorems.TempsFresh | scripts/inline-functions.ts:871-875 | Hoisted temporaries are declared outside every name taken so far and are taken afterwards |
| InlinerArguments.PrefixSimulates | scripts/inline-functions.ts:846-880 | Running the hoisted prefix does what evaluating all arguments left to right does, throws included; afterwards a temporary has its argument's value and an argument left in place means what it means at the call site |
| InlinerSoundness.SubstSimulates | scripts/inline-functions.ts:882-899 | Evaluating a substituted expression at the call site is evaluating the original in the helper, effect for effect, when at each read the argument left in place still has its value |
| InlinerSoundness.StmtSimulates | scripts/inline-functions.ts:882-899 | Every substituted and renamed statement, branches with locals of their own included, completes alike, leaves the same world and keeps helper and caller frames related |
| InlinerSoundness.BlockSimulates | scripts/inline-functions.ts:882-899 | The same for whole tails, by simulation statement by statement |
| InlinerTheorems.ConditionDecides | scripts/inline-functions.ts:889-895 | At the call site the emitted condition decides as the helper's own guards do on its bound parameters |
| InlinerTheorems.GuardlessExact | scripts/inline-functions.ts:836-899 | Guardless inlining has the call's outcome, world and caller frame, under the conditions of `InliningExact` |
| InlinerTheorems.GuardedExact | scripts/inline-functions.ts:836-899 | Guarded inlining, with its tail in a block of its own, has the call's outcome, world and caller frame, under the same conditions |
| InlinerTheorems.InliningExact | scripts/inline-functions.ts:836-899 | For every helper, host, store and argument list, calls of functions and methods included, the replacement equals the call when each argument left in place has no effect at its turn and still has its value wherever the helper's own run reads the parameter, nothing is captured, no called parameter becomes a method and guards meet ordered operands; what happens at other points of the run is free |
| InlinerReads.TextsYieldIff | scripts/inline-functions.ts:836-899 | With arguments quiet at their turns: each argument standing in the replacement yields the bound value, without effect, every time the replacement's own run reaches it, if and only if it does at every read of the helper's run |
| InlinerDefault.UnchangedExact | scripts/inline-functions.ts:39-46 | Default mode under its own assumption that member reads and comparisons are effect-free: exact when the variables and object fields an argument read are unchanged, since its turn, at each read of its parameter |
| InlinerDefault.ReadsFirstExact | scripts/inline-functions.ts:39-46 | Default mode on pure arguments is exact, whatever the calls do, for every helper that reads the parameters left in place before its first call or assignment |
| InlinerHoists.MixedExact | scripts/inline-functions.ts:39-46 | Default mode on any argument list, calls among them: exact when those left in place, which call nothing, have a value at their turn and what they read is unchanged at each read of their parameter; nothing is asked of the arguments in front |
| InlinerHoists.MixedReadsFirst | scripts/inline-functions.ts:39-46 | Exact whatever the calls do, for helpers that read kept parameters before any call or assignment, when the arguments with calls come first |
| InlinerExample.HandlerBecomes | scripts/inline-functions.ts:6-26 | The motivating call becomes the block the header shows: no temporary, guard inverted, both arguments in place |
| InlinerExample.HandlerInlinedExactly | scripts/inline-functions.ts:6-26 | That replacement is exact for every host with plain reads and every `appendPart`, mutating or throwing, that is the module's at the call site |
| InlinerFailures.LateReadFails | scripts/inline-functions.ts:39-46 | Concrete failure of the default mode: an identifier left in place is read after the helper has called a function that assigns it |
| InlinerFailures.LaterArgumentOvertakes | scripts/inline-functions.ts:871-880 | Concrete failure of the default mode: in `h(y, bump())` the call goes in front and `y` is read after it |
| InlinerTheorems.StrictInliningExact | scripts/inline-functions.ts:836-899 | With `--strict-effects` the replacement equals the call for every host, store and argument list once nothing is captured, the free names are the module's at the call site and guards meet ordered operands; no purity assumption is left |
| InlinerBindings.NamesKeptIff | scripts/inline-functions.ts:836-899 | Every name of the replacement, called ones included, denotes what it denotes in the call, resolved block by block, if and only if the fresh names miss the helper's free names, no local of a guarded tail or of a branch occurs in what is written for a name in its reach, and no free name is declared between the call and the module |
| InlinerBindings.CheckedNamesKeptIff | scripts/inline-functions.ts:418-497 | Once the shadow check has passed, with the free names as the source computes them, that last part is left for exactly the free names some branch also declares |
| InlinerBindings.ReceiversKeptIff | scripts/inline-functions.ts:882-899 | Every call of the replacement passes a receiver exactly when the helper's own call does, if and only if no parameter the helper calls is replaced by a member access |
| InlinerFailures.StrictCalleeCaptures | scripts/inline-functions.ts:767-780 | Concrete failure under `--strict-effects`: for `h(p) { __inl_p(p); }` the temporary captures the called function, and the argument is called instead |
| InlinerFailures.ShadowedFreeName | scripts/inline-functions.ts:418-497 | Concrete failure in either mode: a free name that a branch also declares escapes the shadow check and meets the caller's own |
| InlinerFailures.MethodGetsReceiver | scripts/inline-functions.ts:882-899 | Concrete failure of the default mode: `h(o.m)` with `p();` becomes `o.m();`, which receives `o` |
| InlinerFailures.StrictTempCaptures | scripts/inline-functions.ts:767-780 | Concrete failure under `--strict-effects`: the temporary of `p` takes the name `__inl_p` of a variable the helper reads |
| InlinerFailures.GuardedLocalCaptures | scripts/inline-functions.ts:889-895 | Concrete failure of the default mode: a guarded tail's local, which is never renamed, captures a substituted identifier of the caller |
| InlinerFailures.BranchLocalCaptures | scripts/inline-functions.ts:782-787 | Concrete failure of the default mode: a local of a branch, which the source says never collides, captures the substituted identifier |
| Splice.CheckOverlaps | crates/pi-ast/src/ops.rs:190-198 | The running-end scan accepts exactly the pairwise disjoint sorted edits |
| Splice.ApplyEdits | crates/pi-ast/src/ops.rs:187-212 | Right-to-left replacement with bounds checked on the mutated buffer succeeds exactly when the stably sorted edits are disjoint and end inside the original text, and equals simultaneous replacement; each error exactly in its case |
| Splice.UntouchedSurvives | crates/pi-ast/src/ops.rs:200-211 | Every character no edit deletes survives, shifted by what precedes it |
| Splice.WeaveLength | crates/pi-ast/src/ops.rs:200-211 | The result is longer by exactly what was inserted less what was deleted |
| Splice.SubText | scripts/inline-functions.ts:293-300 | The inliner's splicer meets the same simultaneous-replacement specification in its own order |
| Splice.DistinctStartsAgree | scripts/inline-functions.ts:296-298 | With distinct starting points both splicers agree |
| Splice.OrdersAgreeIff | scripts/inline-functions.ts:296-298 | The two splicers order edits alike if and only if the edits starting at each position read the same in both directions |
| Splice.IdentifiersAgree | scripts/inline-functions.ts:269-300 | What the inliner splices, non-empty identifier references no two of which overlap, is always ordered alike and meets what `subText` needs |
| Sorting.SortStable | crates/pi-ast/src/ops.rs:188-189 | The sort the passes rely on keeps equal elements in order |
| Sorting.StableUnique | crates/pi-ast/src/ops.rs:188-189 | Sortedness and the order of ties determine the outcome |
| Intervals.CanonicalUnique | scripts/session-stats/optimize_read_config.py:146-157 | Sorted, disjoint, non-adjacent lists with the same points are equal |
| Intervals.Merge | scripts/session-stats/optimize_read_config.py:146-157 | Batch union yields the canonical list of its points |
| Intervals.NormalizeRanges | crates/pi-ast/src/block.rs:150-168 | Drops unusable ranges and yields the canonical list of the rest |
| Intervals.NormalizeSpans | crates/pi-ast/src/summary.rs:818-838 | Drops and clamps past the end, then yields the canonical list |
| Intervals.AddInterval | scripts/session-stats/read_optimizer.py:261-278 | The single pass yields the canonical list with exactly the new points added |
| Intervals.IncrementalIsBatch | scripts/session-stats/read_optimizer.py:261-278 | One-by-one addition equals any canonical batch union of the same intervals |
| Intervals.HoldsIffCovers | scripts/session-stats/optimize_read_config.py:160-164 | In a canonical list one interval holds a range exactly when all its points are covered |
| Intervals.Contained | scripts/session-stats/optimize_read_config.py:160-164 | The linear test equals point-set inclusion on canonical lists |
| Intervals.IsCovered | scripts/session-stats/read_optimizer.py:251-258 | The early-exit test equals point-set inclusion |
| Intervals.IsVisible | crates/pi-ast/src/block.rs:170-182 | Binary search equals membership |
| Intervals.Subtract | scripts/session-stats/optimize_read_config.py:167-183 | Exact set difference, in ordered pieces with lines between them |
| Intervals.SizeCountsLines | scripts/session-stats/optimize_read_config.py:409-412 | Disjoint pieces count every line once |
| Replay.ReturnedWithinCaps | scripts/session-stats/optimize_read_config.py:315-343 | A simulated call stays within line and byte caps and, after its first line, within the file |
| Replay.ReturnsWhatIsAsked | scripts/session-stats/optimize_read_config.py:315-343 | Line by line: a call returns its first line, and of the lines behind it those it asks for, the file has and both caps admit |
| Replay.ObservedLines | scripts/session-stats/optimize_read_config.py:389-391 | A line counts as received exactly when some call reported a range that holds it |
| Replay.ChunkRange | scripts/session-stats/optimize_read_config.py:357-368 | Full pieces of the cap from the start, the last possibly shorter, tiling the range |
| Replay.PhaseOne | scripts/session-stats/optimize_read_config.py:389-402 | The loop with merged coverage charges exactly the calls returning a line no charged call returned before |
| Replay.ReplayPair | scripts/session-stats/optimize_read_config.py:371-415 | Phase two pays for exactly observed minus phase one, in disjoint pieces that are full but for the last of a stretch; the coverage is what was paid for and contains every observed line |
| Replay.ChargedCoversReturns | scripts/session-stats/optimize_read_config.py:389-402 | Skipped or charged, what a call would return is in the phase-one coverage |
| Replay.EachChargeIsNew | scripts/session-stats/optimize_read_config.py:396-402 | Every charged call brought a new line |
| ReadPaging.ReplayGroup | scripts/session-stats/read_optimizer.py:346-404 | The single-pass replay: coverage, skipped, paid and truncation counters and the first-call flag equal their definitions over the calls |
| ReadPaging.EveryRequestServed | scripts/session-stats/read_optimizer.py:364-394 | All lines of a request are delivered by the end if it is skipped, or paid and within the cap |
| ReadPaging.DeliveredIffFits | scripts/session-stats/read_optimizer.py:221-248 | A delivery is never empty nor above the cap, and holds the request if and only if request plus leading context fit it |
| ReadPaging.RequestedIsAsked | scripts/session-stats/read_optimizer.py:221-228 | Line by line: what an explicit, open or default call asks for, and which calls have no window |
| ReadPaging.DeliveredLines | scripts/session-stats/read_optimizer.py:231-248 | Line by line: a delivery runs from the leading context to the end of the request, or of the trailing context, as far as the cap goes |
| ReadPaging.CountedIffCutOrTight | scripts/session-stats/read_optimizer.py:373-377 | The truncation counter includes every cut request, and exactly which uncut ones |
| ReadPaging.FirstHoldsAllPaysOnce | scripts/session-stats/read_optimizer.py:395-407 | When the first delivery holds all later requests, only it and windowless reads are paid |
| BlockBoundaries.EnclosingBoundaries | crates/pi-ast/src/block.rs:234-261 | For any tree and raw ranges: exactly the off-window endpoints of straddling multi-line named non-root nodes |
| BlockBoundaries.Collect | crates/pi-ast/src/block.rs:187-216 | The recursive walk adds exactly its subtree's boundaries |
| BlockBoundaries.Climb | crates/pi-ast/src/block.rs:105-114 | Ends at the outermost node below the root that begins on the row |
| SummaryForest.ElidableForest.CollectElidableTree | crates/pi-ast/src/summary.rs:247-326 | The mutating collector computes the arena whose spans `ForestHolds` describes |
| SummaryContents.ForestHolds | crates/pi-ast/src/summary.rs:247-358 | The forest of any tree holds exactly: the inside of comments of at least the comment limit, all but their first two and last lines; the inside of elidable nodes of at least the body limit; and the inside of maximal runs of groupable siblings of at least that limit; none below a comment, none empty, each under the innermost span around it |
| SummaryContents.RunsAreMaximal | crates/pi-ast/src/summary.rs:285-312 | The runs are exactly the stretches of two or more groupable siblings that no neighbour extends |
| SummaryForest.ElidableForest.CollectRuns | crates/pi-ast/src/summary.rs:285-312 | The sibling scan flushes exactly the maximal runs of groupable siblings |
| SummaryGeometry.RunInWindow | crates/pi-ast/src/summary.rs:328-358 | The span of a run of two or more lies inside the node that holds it, strictly between the run's first content and its last start |
| SummaryGeometry.CollectedNested | crates/pi-ast/src/summary.rs:78-81 | Every collected span lies (non-strictly) inside its parent's |
| SummaryOverlaps.ChildFillsParent | crates/pi-ast/src/summary.rs:78-81 | A block whose import run fills it: the child's span equals its parent's |
| SummaryGeometry.CollectedSpaced | crates/pi-ast/src/summary.rs:247-326 | Sibling spans are disjoint when no member strictly inside an elided run holds anything elidable, and keep a line between them when nor does a first member ending with its line |
| SummaryGeometry.ForestGeometry | crates/pi-ast/src/summary.rs:247-358 | Both for the forest of any tree, zero-width nodes included, which also lies inside the tree's lines |
| Summary.FoldedAntichain | crates/pi-ast/src/summary.rs:127-159 | No root-to-leaf path meets two folded spans |
| Summary.EverySpanAccounted | crates/pi-ast/src/summary.rs:127-159 | Every span is unfolded, folded, or below a folded span |
| Summary.OpenCounts | crates/pi-ast/src/summary.rs:144-158 | Replacing a folded span by its children reveals exactly its gain, with folded spans staying apart |
| Summary.SelectFoldedSpans | crates/pi-ast/src/summary.rs:118-162 | Terminates with a frontier; over the limit only if nothing was unfolded; short of the target only if every folded span left would exceed the limit; the counter equals total minus folded lines when sibling spans are disjoint |
| Summary.UnfoldAll | crates/pi-ast/src/summary.rs:136-159 | The queue loop leaves after the first number of turns at which the target is met or the queue is empty, with what those turns make of the variables |
| Summary.NoneSkipped | crates/pi-ast/src/summary.rs:140-142 | The queue holds folded spans only, so the test for a span already unfolded never skips one |
| SummarySegments.BuildSegments | crates/pi-ast/src/summary.rs:840-879 | Segments tile 1..total with alternating kinds, kept text is the verbatim source and elided lines are those of the spans |
| SummarySegments.KeptPlusHidden | crates/pi-ast/src/summary.rs:840-879 | Kept and hidden lines add up to the file |
| SummarySegments.Summarize | crates/pi-ast/src/summary.rs:118-162 | From any tree to segments: kept lines are the file's less the folded ones; their number is the unfolding counter when nothing elidable lies strictly inside an elided run, so an unfolded summary respects the limit and is maximal |
| SummaryExactness.RightIffSpaced | crates/pi-ast/src/summary.rs:118-162 | For any forest, the counter is the number of kept lines for every target and limit if and only if no two spans of one parent overlap |
| SummaryOverlaps.TreeCountsRightIff | crates/pi-ast/src/summary.rs:118-162 | For any tree, the counter is right for every target and limit if and only if no statement strictly inside an elided run collects anything |
| SummaryOverlaps.MiscountedCountsWrong | crates/pi-ast/src/summary.rs:328-358 | Concrete failure: a multi-line import inside a run is taken off twice; two of ten lines are kept and the counter says none |
| ProjfsSessions.SessionTable.Start | crates/pi-iso/src/projfs.rs:334-443 | An uninterrupted start, through the lock guards the steps stand for, is a run of its own steps; it adds the session exactly if the key was free and all calls succeed, and otherwise leaves the map as it was |
| ProjfsSessions.SessionTable.Stop | crates/pi-iso/src/projfs.rs:445-456 | An uninterrupted stop is a run of its own steps; it frees the key and tears down the context the map held, if any |
| ProjfsSessions.RunLocates | crates/pi-iso/src/projfs.rs:334-467 | In every interleaving of starts and stops, contexts, calls, map and history agree on one place for each context |
| ProjfsSessions.ExactlyOnePlace | crates/pi-iso/src/projfs.rs:334-467 | A launched context is in exactly one of: a start, the map, a stop, torn down, lost |
| ProjfsSessions.TornDownOnce | crates/pi-iso/src/projfs.rs:458-467 | Nothing is launched, torn down or dropped twice |
| ProjfsSessions.Quiescent | crates/pi-iso/src/projfs.rs:334-467 | With no call in flight, every context is active, torn down or lost |
| ProjfsSessions.CancelledStartUndoesItself | crates/pi-iso/src/projfs.rs:426-442 | A start cancelled by a stop keeps its own context through any further steps and then tears down that one and touches no entry |
| ProjfsSessions.ExclusiveIffNeverAtRisk | crates/pi-iso/src/projfs.rs:334-467 | No two starts of a key were ever on their way at once if and only if at no point could the calls under way, with no other call begun, go on to lose a session |
| ProjfsSessions.ReserveRisksIff | crates/pi-iso/src/projfs.rs:340-349 | A successful reservation puts a session at risk if and only if the key had another start on its way |
| ProjfsSessions.ExclusiveLosesNothing | crates/pi-iso/src/projfs.rs:334-467 | With no two starts of a key on their way at once, nothing is ever lost |
| ProjfsSessions.OverlappingStartsLose | crates/pi-iso/src/projfs.rs:400-401 | A concrete run in which a failing start drops another start's session |
| ProjfsEnumeration.Provider.GetEnumeration | crates/pi-iso/src/projfs.rs:513-592 | Unknown ids succeed with nothing; otherwise that enumeration alone changes: the expression in force is the call's own, or none on a restart, or the one before, and given are exactly the entries passed that match it, from the first on a restart |
| ProjfsEnumeration.GetIs | crates/pi-iso/src/projfs.rs:532-589 | The specification function of a get-call does that for every call and buffer |
| ProjfsEnumeration.Offer | crates/pi-iso/src/projfs.rs:545-589 | A call gives exactly the matching entries its cursor passed and stops for one of the stated reasons |
| ProjfsEnumeration.ExplainedOnce | crates/pi-iso/src/projfs.rs:545-589 | That description determines the outcome |
| ProjfsEnumeration.GivenIsPassed | crates/pi-iso/src/projfs.rs:513-592 | Over any calls of one search without restart, what was given is what the cursor passed |
| ProjfsEnumeration.ExactlyOnce | crates/pi-iso/src/projfs.rs:513-592 | A prefix of the matching entries in order, and all of them once the cursor is at the end |
| ProjfsEnumeration.NeverTwice | crates/pi-iso/src/projfs.rs:513-592 | No entry is given twice even when the expression changes |
| ProjfsEnumeration.RestartBeginsAgain | crates/pi-iso/src/projfs.rs:532-535 | A restart equals a new enumeration |
| ProjfsEnumeration.EmptyAnswerMisleads | crates/pi-iso/src/projfs.rs:545-589 | With a match left, a call succeeds with nothing if and only if a single-entry call rests on a non-matching entry or the buffer refuses the first match |
| ProjfsEnumeration.Undisturbed | crates/pi-iso/src/projfs.rs:526-530 | Other enumerations, however interleaved, do not disturb an open one |
| ProjfsFileData.ServeFileData | crates/pi-iso/src/projfs.rs:642-700 | Success writes the requested bytes back to back in accepted chunks; failure names the call that failed and what was written before it |
| ChangelogText.ParseItems | scripts/fix-changelogs.ts:235-265 | The index loop yields the bullet blocks, trimmed, with their line numbers |
| ChangelogPlacement.ItemsStandAtTheirLines | scripts/fix-changelogs.ts:235-265 | Each item of a parsed file begins with the bullet line of the file whose number it carries |
| ChangelogText.TrimBlankLines | scripts/fix-changelogs.ts:203-209 | The two scans trim exactly the blank ends |
| ChangelogText.CompactIs | scripts/fix-changelogs.ts:360-378 | Compaction flattens the items exactly when no text stands before the first bullet |
| ChangelogText.WithoutIsKept | scripts/fix-changelogs.ts:267-275 | Filtering by the items' line ranges removes exactly those items |
| ChangelogText.ItemsOfKept | scripts/fix-changelogs.ts:324-326 | What remains parses to exactly the items not selected |
| ChangelogConservation.AppendKeepsItemsIff | scripts/fix-changelogs.ts:219-233 | Appending joins the item lists if and only if the source is led by a bullet or the target has no item |
| ChangelogDocument.ParseChangelog | scripts/fix-changelogs.ts:138-167 | The parser's nested index loops compute the recursive reading |
| ChangelogDocument.ParseReleaseSection | scripts/fix-changelogs.ts:169-201 | The same for one release section |
| ChangelogDocument.RenderChangelog | scripts/fix-changelogs.ts:506-533 | The printer's loops, with the trailing pops, compute the recursive layout |
| ChangelogRoundTrip.ReadPrinted | scripts/fix-changelogs.ts:506-533 | Every tidy outline survives printing and reading |
| ChangelogRoundTrip.ParseRenderParse | scripts/fix-changelogs.ts:138-201 | `render(parse(render(parse(c)))) = render(parse(c))` for every text |
| ChangelogPasses.Draft.DropReleased | scripts/fix-changelogs.ts:311-330 | In place: removes from the first Unreleased section what a released section or the history holds |
| ChangelogPasses.Draft.Promote | scripts/fix-changelogs.ts:546-565 | The walk by position, with Unreleased possibly put in front of the list under it, equals promotion of every section once |
| ChangelogPasses.Draft.Normalize | scripts/fix-changelogs.ts:569-573 | Every section is replaced by its normal form |
| ChangelogPasses.NormalizeSection | scripts/fix-changelogs.ts:381-421 | Merges subsections by title into the first, drops empty ones, orders Unreleased stably |
| ChangelogPlacement.FixedFileArranged | scripts/fix-changelogs.ts:381-421 | In the fixed file, read again, no heading stands twice in a section and none is empty, and Unreleased has Breaking Changes, Added, Changed, Fixed, Removed in this order, before all others |
| ChangelogOrder.ReleasesSorted | scripts/fix-changelogs.ts:451-457 | Unreleased comes first, no release stands before one whose version is later in the first part where they differ, missing parts being 0, sections the order does not tell apart keep theirs, nothing is lost: the outcome is the one stable sort |
| ChangelogOrder.PositiveIsOlder | scripts/fix-changelogs.ts:440-449 | The comparison is positive exactly when the first version is the older one |
| ChangelogPasses.FixChangelogContent | scripts/fix-changelogs.ts:535-584 | The whole fixer equals the composition of its passes |
| ChangelogConservation.DroppedKeys | scripts/fix-changelogs.ts:311-330 | Dropping removes only Unreleased items listed in the history or present elsewhere |
| ChangelogConservation.PromotedKeys | scripts/fix-changelogs.ts:546-565 | Promotion neither loses nor invents an item |
| ChangelogConservation.AllNormalizedKeys | scripts/fix-changelogs.ts:381-421 | Neither does merging |
| ChangelogConservation.SortedKeys | scripts/fix-changelogs.ts:451-457 | Nor sorting |
| ChangelogConservation.ItemsConserved | scripts/fix-changelogs.ts:535-584 | On bullet-led documents the fixed file, read again, has exactly the items of the original less Unreleased ones listed in the history and standing nowhere else |
| ChangelogPlacement.FixedFilePlaces | scripts/fix-changelogs.ts:535-584 | On bullet-led documents, for every release, heading and item text: in the fixed file, read again, a release has it under the heading if and only if it had it there in a line not added; Unreleased has it there if and only if a release had it there in an added line, or it had it there itself and, in the first Unreleased section, neither a release nor the history has it |
| ChangelogPlacement.NewSectionInFront | scripts/fix-changelogs.ts:332-344 | Without an Unreleased section, added items get one of their own in front of all releases |
| ChangelogFixpoint.VersionsOrdered | scripts/fix-changelogs.ts:440-449 | Part-by-part comparison with missing parts as 0 is a total preorder |
| ChangelogFixpoint.FixViewTwice | scripts/fix-changelogs.ts:535-584 | Without promotions, and for any history, the fixer is idempotent on titles and items |
| ChangelogFixpoint.StableFromSecondRun | scripts/fix-changelogs.ts:535-584 | On bullet-led documents and for any history, the third run changes nothing the second wrote |
| ChangelogStability.StableFromFirstRunIff | scripts/fix-changelogs.ts:399-404 | For any history, the first run is stable if and only if no section of the file keeps items under one title twice, the earlier ones ending in an item of several lines |
| ChangelogStability.SplitFixesUnstable | scripts/fix-changelogs.ts:399-404 | Concrete file whose first run is not stable |
| ChangelogStability.JoinLeavesBlankIff | scripts/fix-changelogs.ts:219-233 | Joining two runs leaves no blank line if and only if there was none and the first ends in a bullet line |
| ChangelogPairing.ScanDiff | scripts/fix-changelogs.ts:606-666 | The line loop collects additions, removals and release-heading hunks of any diff |
| ChangelogScan.ScanTold | scripts/fix-changelogs.ts:606-666 | Over the lines of the diff: the additions are its added item lines below a hunk header of a named file, in order, each with its file, the number of hunk headers before, and the hunk's first line number plus the lines shown since; so the removals, and the headings are the hunks that add a release heading |
| ChangelogPairing.PairUp | scripts/fix-changelogs.ts:668-686 | Greedy marking flags an addition or removal exactly when its rank among its kind is below the number of partners |
| ChangelogPairing.CollectPromotable | scripts/fix-changelogs.ts:688-713 | The counters decrease so that exactly the promoted additions are listed per path |
| ChangelogPairing.PairingLaw | scripts/fix-changelogs.ts:668-686 | For each path and text, min(additions, removals) are paired on both sides |
| ChangelogPairing.PromotionLaw | scripts/fix-changelogs.ts:688-711 | Each hunk promotes max(0, unpaired additions - unpaired removals), none with a release heading |
| ChangelogPairing.LastOnesPromoted | scripts/fix-changelogs.ts:695-711 | They are the last of the hunk |
| SessionSync.ParseFile | scripts/session-stats/sync.py:648-732 | The byte-offset loop parses the lines from the offset with rising sequence numbers and ends at the file's end |
| SessionSync.UpsertEdits | scripts/session-stats/sync.py:960-983 | The loops over stubs and outcomes compute the rows that `FullTold` describes |
| SessionSyncContents.FullTold | scripts/session-stats/sync.py:682-908 | After a full parse, over the lines of the file: each call, result, assistant and user row is what its own line says at its own line number, and there are no others; an edit's success and warnings are those of the last result for its id that carries an outcome, its other columns those of its last call, none and zeros without one; its sections are those of the last call that has them; the header is the first line's |
| SessionSync.Database.WriteRecords | scripts/session-stats/sync.py:916-1028 | The tables after writing, row rules and header coalescing included |
| SessionSync.Database.Sync | scripts/session-stats/sync.py:1048-1073 | Decide, parse and write one session file |
| SessionSyncContents.SyncActs | scripts/session-stats/sync.py:1048-1073 | A sync of a file seen before and untouched since does nothing; on request, for an unknown file, an older parser, or a file shorter than or no longer than what was read it leaves the rows of a full parse, whatever was stored, with the header found over the stored one; otherwise it adds what stands behind the stored offset |
| SessionSyncRuns.CallAndOutcomeCommute | scripts/session-stats/sync.py:960-983 | A call and its outcome give the same row in either order |
| SessionSyncRuns.WrittenJoins | scripts/session-stats/sync.py:916-1028 | Two writes equal one write of the joined records |
| SessionSyncRuns.IncrementIsFull | scripts/session-stats/sync.py:1073 | Resuming where a complete prefix ended gives the tables of a full parse |
| SessionSyncRuns.RebuildIsFull | scripts/session-stats/sync.py:921-927 | A rebuild over older tables gives the tables of a full parse |
| SessionSyncRuns.SyncsAreFullParses | scripts/session-stats/sync.py:1048-1073 | After any syncs of a log growing by whole lines, also while it is read, the tables are those of one full parse; a skipped sync had nothing new |
| SessionSyncCuts.TwoSyncsAreFullIff | scripts/session-stats/sync.py:1048-1073 | Two syncs of a growing log leave the tables of one full parse, for every meaning of its lines, if and only if the first met a file ending with a line break or nothing was added |
| SessionSyncCuts.CutLineIsLost | scripts/session-stats/sync.py:682-693 | Concrete failure: a two-sync run in which a half-written last line is lost |
| WorkerPool.EveryScheduleAccounts | scripts/rewrite-system-prompt.ts:235-252 | Under every schedule each index below the counter is finished in its place or held by a worker |
| WorkerPool.NoTaskTwice | scripts/rewrite-system-prompt.ts:243-249 | No index is with two workers, or both held and finished |
| WorkerPool.InFlightBounded | scripts/rewrite-system-prompt.ts:242-249 | At most max(1, limit) calls in flight |
| WorkerPool.ResultsInOrder | scripts/rewrite-system-prompt.ts:240-251 | When all workers have left, every result is at its own index |
| WorkerPool.SchedulesEnd | scripts/rewrite-system-prompt.ts:243-249 | Every schedule ends within two turns per task and one per worker |
| WorkerPool.NeverStuck | scripts/rewrite-system-prompt.ts:243-249 | While a worker is waiting or running, some turn can be taken |
| PromptRewrite.PeelLine | scripts/rewrite-system-prompt.ts:102-124 | The consuming loops split off what the patterns match |
| PromptRewrite.PeelRejoins | scripts/rewrite-system-prompt.ts:95-124 | `prefix + core + suffix === line` for every line |
| PromptContents.PeelsAllMatches | scripts/rewrite-system-prompt.ts:102-124 | The suffix is all matches of the trailing pattern, one behind the other; of the rest, the prefix is all matches of the leading pattern and one marker |
| PromptRewrite.BlockSkipMask | scripts/rewrite-system-prompt.ts:175-207 | The mask marks the lines that `KeptExactly` describes |
| PromptContents.KeptExactly | scripts/rewrite-system-prompt.ts:175-207 | A line is kept if and only if it is in front matter that a second rule closes, both rules included, or in a block from a fence that no earlier block reaches to the first line repeating it; an unclosed front matter keeps nothing |
| PromptRewrite.FencedBlockKept | scripts/rewrite-system-prompt.ts:192-205 | A fenced block is kept from its opening line to the first line repeating its fence |
| PromptRewrite.PlanRewrite | scripts/rewrite-system-prompt.ts:210-224 | The plan is the prose lines in order |
| PromptRewrite.ProseComplete | scripts/rewrite-system-prompt.ts:210-224 | No prose line is left out |
| PromptContents.ChunkSizes | scripts/rewrite-system-prompt.ts:227-232 | Chunks concatenate to the list, none is empty and all but the last are full |
| PromptRewrite.RewriteAll | scripts/rewrite-system-prompt.ts:276-329 | The reassembled file; no change counted means the content is byte-identical |
| PromptContents.AttemptsFirst | scripts/rewrite-system-prompt.ts:281-283 | Attempted are the first prose lines up to a positive limit, and else all |
| PromptContents.LineGetsItsAnswer | scripts/rewrite-system-prompt.ts:285-306 | Attempted line `k` gets what the call of chunk `k / size` answers for its line, and nothing else |
| PromptContents.CountersTold | scripts/rewrite-system-prompt.ts:308-317 | `changed` is the number of lines that differ, `fallback` the number of attempted lines without an answer |
| PromptContents.CutAtEveryBreak | scripts/rewrite-system-prompt.ts:210-212 | The file is cut at every line break, and joining the lines gives it back |
| PromptPool.AnyScheduleRewrites | scripts/rewrite-system-prompt.ts:285-317 | Under any schedule of the pool, the results put back into the lines give that file |
| PromptTokens.PreservesTokens | scripts/rewrite-system-prompt.ts:158-165 | The count-and-compare loops decide whether every token occurs as often as it is wanted |
| PromptTokens.OwnTokensKept | scripts/rewrite-system-prompt.ts:153-165 | A text passes the check for its own tokens: counting from the left misses no occurrence |
| PromptTokens.TokensKeptIff | scripts/rewrite-system-prompt.ts:269-317 | All attempted lines keep their tokens if and only if every answered text does |
| PromptTokens.DroppedToken | scripts/rewrite-system-prompt.ts:269-317 | Concrete failure: one prose line with a token, answered by the empty text, and `rewriteAll` writes it |
| PromptTokens.Rewrite | scripts/rewrite-system-prompt.ts:394-453 | The retry loop of the repository's own rewriter answers for a line with the first reply, of as many as are allowed, that keeps its tokens, and else not at all |
| PromptTokens.FirstGoodIs | scripts/rewrite-system-prompt.ts:394-453 | That reply is the first that answers for the line and has each token as often as the line |
| PromptTokens.OwnRewriterKeeps | scripts/rewrite-system-prompt.ts:394-453 | With that rewriter every attempted line keeps its tokens, whatever the model replies |
| PromptRewrite.UnselectedStays | scripts/rewrite-system-prompt.ts:281-317 | For any answers, a line outside the attempted prose is untouched |
| PromptRewrite.AttemptedLine | scripts/rewrite-system-prompt.ts:294-313 | An attempted line is its ends around the answer, or itself when the answer is missing or the call threw |
| PromptRewrite.EchoReproduces | scripts/rewrite-system-prompt.ts:276-329 | The echoing rewriter, and one whose every call throws, reproduce the file |
| EditPrefix.ParseEditBoundary | scripts/session-stats/harmony_backtest.py:447-613 | The line loop over its flags computes the boundary automaton |
| EditGrammar.CompleteIffWellFormed | scripts/session-stats/harmony_backtest.py:473-600 | The recogniser takes a text whole if and only if, line by line, it is blank lines, then markers and sections: a header, then operations of its format, blank lines, and payload behind an operation that takes it, with payload right below every bare insert |
| EditGrammar.BoundaryTold | scripts/session-stats/harmony_backtest.py:602-613 | The boundary ends the longest such beginning, is usable when that has a character and a header, and reports a missing payload exactly when a bare insert follows |
| EditPrefix.PrefixIsStable | scripts/session-stats/harmony_backtest.py:602-613 | Parsing the recognised prefix recognises all of it, with the same sections and nothing pending |
| EditPrefix.AppendingKeeps | scripts/session-stats/harmony_backtest.py:473-600 | Appending lines never moves the boundary back |
| EditPrefix.LongestCompletePrefix | scripts/session-stats/harmony_backtest.py:447-454 | The boundary ends the longest prefix of whole lines that is a complete edit |
| EditPrefix.SanitizedIsClean | scripts/session-stats/harmony_backtest.py:636-649 | What the cut leaves is a complete edit of that length that is allowed |
| EditGrammar.ActionTold | scripts/session-stats/harmony_backtest.py:636-649 | A call is let through if and only if nothing was found in it, and cut if and only if it is an edit with a usable beginning behind which everything found starts |
| GitDiff.ParseGitDiff | crates/pi-iso/src/diff.rs:202-255 | The accumulating line loop computes the change of every block |
| GitDiffContents.SplitTold | crates/pi-iso/src/diff.rs:202-255 | Over the lines of the patch: the blocks are its headers with the lines up to the next header; each block whose header has two paths gives one change, in order, with the second path, the kind its last mode line says, and the block's text unless a line marks it binary |
| GitDiffContents.PathTold | crates/pi-iso/src/diff.rs:232-238 | A header gives a path if and only if it is two paths with a space between, the first without one; the path is the second, without `b/` |
| GitDiff.UnifiedText | crates/pi-iso/src/diff.rs:43-56 | The joining loop with its separating line breaks |
| GitDiff.SplitAndRejoin | crates/pi-iso/src/diff.rs:43-56 | For any patch, splitting and rejoining gives the surviving blocks |
| GitDiff.NothingElseLost | crates/pi-iso/src/diff.rs:213-229 | Lengths add up: lead text, survivors, and the dropped blocks' own slices |
| GitDiff.IdentityIff | crates/pi-iso/src/diff.rs:43-56 | The patch comes back unchanged if and only if it starts with a header, every header names a second path and no block is binary |

## Left out

- Inliner: loops, closures, element access, optional chaining, `new`, conditional and template expressions and object shorthand in helpers; the language has literals, names, member reads, calls of functions and methods, `!`, binary operators, parentheses, and expression, declaration, assignment and `if` statements whose branches are blocks.
- Inliner: the edited tail is taken as the substituted tree; only the condition is read back from its text.
- Inliner: `analyze`, the walk over scopes of the shadow check and the search for references; what they are for is assumed of helper and call site (`Admitted`, `SiteAdmits`), together with that no guard mentions a tail local.
- Inliner: asynchronous callers, reindentation and formatting.
- InliningExact: no converse for whole runs, because an argument read too late, or a captured name, may happen to give the same run; the converses are those for names, receivers and reads (`NamesKeptIff`, `ReceiversKeptIff`, `TextsYieldIff`).
- ReadsFirstExact: one way; a helper may also read late what its calls leave alone (`UnchangedExact`).
- Summariser: tree-sitter and the per-language tables of node kinds; nodes carry three arbitrary flags. `u32` saturation is not modelled.
- SelectFoldedSpans: the order in which the folded hash set is listed is arbitrary in the source, so only the set is stated.
- ProjfsSessions: the partially started context of a failing `PrjStartVirtualizing` and its `PrjStopVirtualizing`, path resolution and canonicalisation; each system call succeeds or fails arbitrarily.
- ProjfsEnumeration: directory listing and its order, placeholder information, symlink targets; name matching is an arbitrary predicate. Callbacks run one at a time under the lock, as in the source.
- Changelog: `\r\n` normalisation, heading and bullet patterns (lines come classified), the four counters, `rebuildReleasedSectionsFromHistory` and everything that runs git.
- Changelog: versions are lists of integers; a title with a part that is not a number compares as NaN in the source and has no defined order.
- ItemsConserved: as a set of item texts; equal items promoted twice are stored once, as in the source. Documents with text before a first bullet are excluded (`AppendKeepsItemsIff` says why).
- Splice: UTF-8 boundaries, invalid UTF-8 replacement text and saturating addition; texts are sequences of characters. `rewrite_source` as a fold over rules.
- Intervals: `u32` saturation; lines are unbounded integers.
- Replay: token costs, which are floating point; calls and lines are counted. `byteLines` is the byte cap already divided by the bytes per line.
- ReadPaging: token costs, the byte limit and the selector and default breakdowns; selectors start at line 1 or later.
- BlockBoundaries: choosing the leaf under the first content character, parse errors, unknown languages.
- SessionSync: SQLite, surrogate ids, sync timestamps, path metadata, token counts, the fields inside a row, lines whose JSON is not an object, and other session files; a decoded line is an arbitrary event.
- WorkerPool: a task list that changes while the pool runs, and progress reports.
- PromptRewrite: the patterns themselves; what a pattern matches of a line is arbitrary. Calls of the model and the parsing of its replies, which are arbitrary.
- EditPrefix: the legacy diff parser that starts with `---`, operation and payload counts, incomplete last lines, JSON extraction and signal detection.
- GitDiff: invalid UTF-8, which yields no change, and the plain directory walk `walk_diff_blocking`.
