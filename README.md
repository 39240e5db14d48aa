# In-memory memoizing evaluator: one `evaluate` round

This project models the driver of Skyframe's in-memory memoizing evaluator,
`InMemoryMemoizingEvaluator`. The evaluator holds a graph of memoized computations.
Each call of `evaluate(roots)` does the following, in order:

1. It takes the next graph version.
2. It takes a re-entrancy guard, so that a second `evaluate` fails while one is running.
3. It moves the keys the progress tracker left from the previous round into the set of
   values to delete.
4. It asks the differencer what changed since the last committed version.
5. When there is anything to do, it merges, invalidates, prunes and injects.
6. It runs the parallel evaluator at this round's version.
7. Finally, it commits the version (only when the graph keeps edges) and releases the guard.

The project has three files:

- `evaluation_round.dfy` (module `EvaluationRound`) holds the driver's state as a value
  (`DriverState`) and one round as a function, `Round`. Each collaborator call
  (`getDiff`, `invalidate`, `pruneInjectedValues`, `performInvalidation`, `injectValues`,
  `ParallelEvaluator.eval`, and a nested `evaluate` made by a computation) is recorded in
  order in a trace of `Call`s. Lemmas state what a round promises.
- `evaluator.dfy` (module `InMemoryEvaluator`) holds the class
  `InMemoryMemoizingEvaluator`. Its fields are updated in place, step by step, as the
  source does. `Evaluate` is proved to end in exactly the state, outcome and trace that
  `Round` gives for the state it started from. Computations that call back into
  `Evaluate` on the same object while the guard is held are modelled as real recursive
  calls of the method.
- `round_sequences.dfy` (module `RoundSequences`) covers successive top-level calls on one
  evaluator: the guard is free between them, and the diff ranges chain from one round to
  the next.

The behaviour of the collaborators is an input, the `Request`. It carries:

- the version the allocator hands out;
- whether `getDiff` returns a diff or is interrupted;
- which injected keys the graph already holds unchanged (what pruning drops);
- what `performInvalidation` and `injectValues` leave pending;
- what the parallel evaluator does: the nested `evaluate` calls its computations make,
  the keys it leaves inflight or unsuccessfully rewound in the tracker, and whether it
  returns a result or is interrupted.

A failed `Preconditions.checkState` is the outcome `ReentrantEvaluation(roots)`.
An `InterruptedException` is the outcome `Interrupted`.

The comment at the top of the `try` block says that ideally `lastGraphVersion` would not
be updated when an interrupt occurs. The code does update it: the `finally` block commits
the version whenever edges are kept, interrupted rounds included. The model follows the
code, and `ReleasedOnEveryExit` and `DiffRangesChain` state the commit on every exit.

The commit casts the version to `IntVersion`. When edges are kept and the version is not
an `IntVersion`, the cast fails inside the `finally` block before the guard is released.
The model keeps that path: the outcome is `VersionCastFailed`, the guard stays held, and
every later call is rejected (`CastFailureKeepsGuard`). `Commitable` names the versions
for which the commit goes through.

## Model

| member | source | states |
|---|---|---|
| InMemoryEvaluator.InMemoryMemoizingEvaluator.constructor | src/main/java/com/google/devtools/build/skyframe/InMemoryMemoizingEvaluator.java:62-83 | the graph tracks edges exactly when `keepEdges`, with the requested interning; the new evaluator is idle, with nothing pending and no committed version |
| InMemoryEvaluator.InMemoryMemoizingEvaluator.SetAndCheckEvaluateState | src/main/java/com/google/devtools/build/skyframe/InMemoryMemoizingEvaluator.java:155-158 | succeeds exactly when the flag held the other value, and always leaves the flag at the new value |
| InMemoryEvaluator.InMemoryMemoizingEvaluator.GetAndClearInflightKeys | src/main/java/com/google/devtools/build/skyframe/InMemoryMemoizingEvaluator.java:96 | returns the tracker's inflight keys and leaves the tracker's set empty |
| InMemoryEvaluator.InMemoryMemoizingEvaluator.GetAndClearUnsuccessfullyRewoundKeys | src/main/java/com/google/devtools/build/skyframe/InMemoryMemoizingEvaluator.java:97 | returns the tracker's unsuccessfully rewound keys and leaves the tracker's set empty |
| InMemoryEvaluator.InMemoryMemoizingEvaluator.Invalidate | src/main/java/com/google/devtools/build/skyframe/InMemoryMemoizingEvaluator.java:107-109 | each invalidation request is recorded with its keys, in the order made, and changes no pending set |
| InMemoryEvaluator.InMemoryMemoizingEvaluator.PerformInvalidation | src/main/java/com/google/devtools/build/skyframe/InMemoryMemoizingEvaluator.java:111 | the pending deletions are handed over as they stood, and what the helper leaves pending becomes the new set |
| InMemoryEvaluator.InMemoryMemoizingEvaluator.InjectValues | src/main/java/com/google/devtools/build/skyframe/InMemoryMemoizingEvaluator.java:112 | the pending injections are handed over as they stood, at the given version, and what the helper leaves pending becomes the new map |
| InMemoryEvaluator.InMemoryMemoizingEvaluator.PruneInjectedValues | src/main/java/com/google/devtools/build/skyframe/InMemoryMemoizingEvaluator.java:108 | pruning only removes pending injections: exactly those the graph already holds unchanged, and the rest keep their values |
| InMemoryEvaluator.InMemoryMemoizingEvaluator.InvalidateAndInject | src/main/java/com/google/devtools/build/skyframe/InMemoryMemoizingEvaluator.java:106-112 | the block's in-place steps end in the state and the calls that `InvalidationPhase` gives |
| InMemoryEvaluator.InMemoryMemoizingEvaluator.RunCallbacksFrom | src/main/java/com/google/devtools/build/skyframe/InMemoryMemoizingEvaluator.java:91 | nested `evaluate` calls made while the guard is held end as `RunCallbacks` says; with `CallbacksRejected`, each is rejected and changes no field |
| InMemoryEvaluator.InMemoryMemoizingEvaluator.RunParallelEvaluator | src/main/java/com/google/devtools/build/skyframe/InMemoryMemoizingEvaluator.java:115-142 | the evaluation step ends in the state, outcome and calls that `EvalPhase` gives |
| InMemoryEvaluator.InMemoryMemoizingEvaluator.TryEvaluate | src/main/java/com/google/devtools/build/skyframe/InMemoryMemoizingEvaluator.java:98-146 | the `try` block ends in the state, outcome and calls that `Attempt` gives |
| InMemoryEvaluator.InMemoryMemoizingEvaluator.Evaluate | src/main/java/com/google/devtools/build/skyframe/InMemoryMemoizingEvaluator.java:86-153 | a call made while another is active is rejected and changes nothing; a call that takes the guard releases it whenever the version can be committed; in every case the state, outcome and calls are those of `Round` on the old state |
| EvaluationRound.Drain | src/main/java/com/google/devtools/build/skyframe/InMemoryMemoizingEvaluator.java:93-97 | after the guard, the tracker's two sets are emptied into `valuesToDelete`: nothing owed is lost, nothing already pending is dropped, and no other field changes |
| EvaluationRound.InvalidationPhase | src/main/java/com/google/devtools/build/skyframe/InMemoryMemoizingEvaluator.java:105-113 | the block runs exactly when the diff is non-empty or something is pending; when skipped, nothing changes and nothing is called; it changes only the two pending sets |
| EvaluationRound.InvalidationOrder | src/main/java/com/google/devtools/build/skyframe/InMemoryMemoizingEvaluator.java:106-112 | in order: invalidate the keys changed without values; offer the merge for pruning, with the diff's values overriding; invalidate exactly the keys left after pruning; hand over the pending deletions; inject the pruned values at the round's version |
| EvaluationRound.Finish | src/main/java/com/google/devtools/build/skyframe/InMemoryMemoizingEvaluator.java:147-152 | when edges are kept and the version is not an `IntVersion`, the cast failure is the outcome and nothing changes, the guard included; otherwise the version is committed iff edges are kept, the guard ends free, a failed release replaces the outcome, and nothing else changes |
| EvaluationRound.Round | src/main/java/com/google/devtools/build/skyframe/InMemoryMemoizingEvaluator.java:90-91 | a round started while another is active is rejected before it touches anything |
| EvaluationRound.CallbacksRejected | src/main/java/com/google/devtools/build/skyframe/InMemoryMemoizingEvaluator.java:155-158 | every nested `evaluate` made while the guard is held is rejected with its own roots and leaves the state alone |
| EvaluationRound.CallbackRejected | src/main/java/com/google/devtools/build/skyframe/InMemoryMemoizingEvaluator.java:155-158 | one more rejected nested call adds only its own record |
| EvaluationRound.EvalPhaseEffect | src/main/java/com/google/devtools/build/skyframe/InMemoryMemoizingEvaluator.java:115-142 | the evaluator runs over the roots at the round's version; the tracker gains the keys it leaves; nothing else changes; its ending is the outcome |
| EvaluationRound.AttemptEffect | src/main/java/com/google/devtools/build/skyframe/InMemoryMemoizingEvaluator.java:98-146 | the `try` block changes only the pending sets and the tracker; the diff is asked for first; an interrupted diff ends the block at once; otherwise the conditional block's calls come next and then `eval` at the round's version, the pending sets are what the block left, the tracker gains exactly what `eval` left, and `eval`'s ending is the outcome |
| EvaluationRound.ReleasedOnEveryExit | src/main/java/com/google/devtools/build/skyframe/InMemoryMemoizingEvaluator.java:147-151 | once the guard is taken and the version can be committed, every exit (normal or interrupted) releases it without failing, and `lastGraphVersion` becomes this round's version iff edges are kept |
| EvaluationRound.CastFailureKeepsGuard | src/main/java/com/google/devtools/build/skyframe/InMemoryMemoizingEvaluator.java:148-151 | with edges kept and a version that is not an `IntVersion`, the round ends in the cast failure with the guard held and nothing committed, and the next call is rejected unchanged |
| EvaluationRound.DiffThenEvalAtRoundVersion | src/main/java/com/google/devtools/build/skyframe/InMemoryMemoizingEvaluator.java:103-141 | the diff is asked over (last committed version, this round's version); after a returned diff the conditional block's calls come next, then `eval` at this round's version; the tracker ends holding exactly what `eval` left; `eval`'s ending is the outcome unless the commit's cast fails |
| EvaluationRound.InterruptedDiffKeepsDebt | src/main/java/com/google/devtools/build/skyframe/InMemoryMemoizingEvaluator.java:93-104 | an interrupted `getDiff` leaves the drained tracker keys pending deletion, the injections untouched and the tracker empty; the outcome is the interruption unless the commit's cast fails |
| EvaluationRound.DebtNotLost | src/main/java/com/google/devtools/build/skyframe/InMemoryMemoizingEvaluator.java:93-111 | every key owed at the start of a round is still pending deletion at its end or was handed to `performInvalidation` |
| EvaluationRound.NoWorkNoInvalidation | src/main/java/com/google/devtools/build/skyframe/InMemoryMemoizingEvaluator.java:105 | with an empty diff and nothing pending, the block is skipped: no invalidation, pruning or injection is asked for and nothing becomes pending |
| RoundSequences.Run | src/main/java/com/google/devtools/build/skyframe/InMemoryMemoizingEvaluator.java:86-153 | one result per call, in order: the first round runs from the starting state and each later one from the state the round before it left |
| RoundSequences.GuardFreeAcrossRounds | src/main/java/com/google/devtools/build/skyframe/InMemoryMemoizingEvaluator.java:151-157 | calls that do not overlap, with versions that can be committed, are never rejected, and each ends with the guard free |
| RoundSequences.DiffRangesChain | src/main/java/com/google/devtools/build/skyframe/InMemoryMemoizingEvaluator.java:103-104 | with edges kept, each round asks for the diff from the version the round before it allocated, whether that round completed or was interrupted |
| RoundSequences.EdgelessNeverCommits | src/main/java/com/google/devtools/build/skyframe/InMemoryMemoizingEvaluator.java:148-150 | without edges, no round commits a version, so every diff starts from the same point |
| RoundSequences.DiffRangesMoveForward | src/main/java/com/google/devtools/build/skyframe/InMemoryMemoizingEvaluator.java:32-33 | with edges kept and increasing `IntVersion`s handed out, every diff range moves strictly forward |

## Left out

- The parallel evaluator, the differencer and the graph's storage are not part of this model. Their effects on the driver come in through the `Request`, and the graph is only its kind (`GraphKind`).
- The superclass helpers `invalidate`, `pruneInjectedValues`, `performInvalidation`, `injectValues` and `getNextGraphVersion` are not part of this model. Their effect on the pending sets, and the version handed out, are taken from the `Request`. Pruning drops a given set of keys and keeps the rest unchanged.
- The increase of versions from one round to the next is the allocator's promise. `IncreasingVersions` takes it as an assumption.
- The cast failure in the `finally` block is an outcome of its own, `VersionCastFailed`. The model does not distinguish it from other runtime exceptions.
- ReleasedOnEveryExit: promises the release only for versions that can be committed. With edges kept and a non-`IntVersion` version, the source leaves the guard held, as `CastFailureKeepsGuard` states.
- GuardFreeAcrossRounds: promises a free guard only when every version can be committed, for the same reason.
- `AtomicBoolean` is a plain field. Atomicity and concurrent calls from other threads are not modelled, only re-entrant calls on the same thread.
- Evaluate: a rejected nested call is recorded in the trace and the parent evaluation continues. How the parallel evaluator reports the exception of a nested call to its caller is not modelled.
- An interrupt inside `performInvalidation` or `injectValues` is not modelled. Those helpers always return.
- The profiler, the result builder, the walkable graph handed back with the result, `postLoggingStats` and the testing hooks are left out.
- The two shorter constructor overloads are left out. They only fill in defaults: edges kept and pooled interning on.
- The superclass's initial state is not part of this model. The constructor starts with no committed version and nothing pending.
