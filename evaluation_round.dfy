/**
 * One call of `evaluate` on the in-memory memoizing evaluator, as a function of the
 * driver's own state.
 *
 * The collaborators the driver talks to (the version allocator, the differencer, the
 * superclass helpers that prune, invalidate and inject, and the parallel evaluator) are
 * not modelled internally: a `Request` fixes what each of them does during the call, and
 * every call the driver makes to them is recorded, in order, in the round's `calls`.
 */
module EvaluationRound {

  datatype Option<T> = None | Some(value: T)

  /** Identity of one computation: a function name and its argument. */
  datatype SkyKey = SkyKey(functionName: string, argument: string)

  /** A computed or externally supplied value; the driver never looks inside. */
  datatype SkyValue = SkyValue(payload: string)

  /** An `IntVersion` for incremental evaluation, the constant version otherwise. */
  datatype Version = IntVersion(number: int) | ConstantVersion

  /** Which graph the evaluator was built with. */
  datatype GraphKind = EdgeTracking(pooledInterning: bool) | Edgeless(pooledInterning: bool)

  /** What the differencer reports as changed since the last committed version. */
  datatype Diff = Diff(changedKeysWithoutNewValues: set<SkyKey>,
                       changedKeysWithNewValues: map<SkyKey, SkyValue>)
  {
    /** Nothing changed, with or without a new value. */
    predicate IsEmpty() {
      changedKeysWithoutNewValues == {} && changedKeysWithNewValues == map[]
    }
  }

  /** The parallel evaluator's answer for the requested roots. */
  datatype EvalResult = EvalResult(values: map<SkyKey, SkyValue>, errors: set<SkyKey>)

  /** `getDiff` either returns a diff or is interrupted. */
  datatype DiffStep = DiffReturns(diff: Diff) | DiffInterrupted

  /** `eval` either returns a result or is interrupted. */
  datatype EvalEnding = EvalReturns(result: EvalResult) | EvalInterrupted

  /**
   * What the parallel evaluator does: the `evaluate` calls its computations make back
   * into this same evaluator, in order; the keys it leaves in the tracker as still
   * inflight or unsuccessfully rewound; and how it ends.
   */
  datatype EvalStep = EvalStep(callbacks: seq<Request>,
                               inflight: set<SkyKey>,
                               failedRewinds: set<SkyKey>,
                               ending: EvalEnding)

  /**
   * One call of `evaluate(roots, ...)` together with the behaviour of the collaborators
   * it meets: the version `getNextGraphVersion` hands out, the diff step, the keys whose
   * injected value `pruneInjectedValues` finds already in the graph, what
   * `performInvalidation` and `injectValues` leave pending, and the evaluation step.
   */
  datatype Request = Request(roots: seq<SkyKey>,
                             graphVersion: Version,
                             diffStep: DiffStep,
                             unchangedInjections: set<SkyKey>,
                             deleteLeft: set<SkyKey>,
                             injectLeft: map<SkyKey, SkyValue>,
                             evalStep: EvalStep)

  /**
   * How a call of `evaluate` ends: a result, an interruption, the re-entrancy failure, or
   * the failed cast of a non-`IntVersion` to be committed as `lastGraphVersion`.
   */
  datatype Outcome =
    | Completed(result: EvalResult)
    | Interrupted
    | ReentrantEvaluation(request: seq<SkyKey>)
    | VersionCastFailed(version: Version)

  /** A call the driver makes to a collaborator, with the arguments it passes. */
  datatype Call =
    | GetDiff(from: Option<Version>, to: Version)
    | Invalidate(keys: set<SkyKey>)
    | PruneInjectedValues(offered: map<SkyKey, SkyValue>)
    | PerformInvalidation(toDelete: set<SkyKey>)
    | InjectValues(values: map<SkyKey, SkyValue>, version: Version)
    | Eval(evalRoots: seq<SkyKey>, evalVersion: Version)
    | Reentered(nestedRoots: seq<SkyKey>, nestedOutcome: Outcome)

  /**
   * The driver's state: the re-entrancy flag, the last committed version (`None` before
   * any commit), the pending deletions and injections, the tracker's two key sets, and
   * whether the graph keeps edges.
   */
  datatype DriverState = DriverState(evaluating: bool,
                                     lastGraphVersion: Option<Version>,
                                     valuesToDelete: set<SkyKey>,
                                     valuesToInject: map<SkyKey, SkyValue>,
                                     inflightKeys: set<SkyKey>,
                                     unsuccessfullyRewoundKeys: set<SkyKey>,
                                     keepEdges: bool)

  datatype RoundResult = RoundResult(state: DriverState, outcome: Outcome, calls: seq<Call>)

  datatype PhaseResult = PhaseResult(state: DriverState, calls: seq<Call>)

  /** The keys a round must not trust: pending deletions plus the tracker's debt. */
  function Owed(s: DriverState): set<SkyKey> {
    s.valuesToDelete + s.inflightKeys + s.unsuccessfullyRewoundKeys
  }

  /** Committing `version` succeeds: nothing is committed without edges, and only an `IntVersion` casts. */
  predicate Commitable(keepEdges: bool, version: Version) {
    !keepEdges || version.IntVersion?
  }

  /** The condition under which a round invalidates, prunes and injects. */
  predicate NeedsInvalidation(s: DriverState, diff: Diff) {
    !diff.IsEmpty() || s.valuesToInject != map[] || s.valuesToDelete != {}
  }

  /** `merged` is `base` with every entry of `update` put over it. */
  ghost predicate Overrides(merged: map<SkyKey, SkyValue>, base: map<SkyKey, SkyValue>,
                            update: map<SkyKey, SkyValue>)
  {
    && merged.Keys == base.Keys + update.Keys
    && (forall k :: k in update ==> merged[k] == update[k])
    && (forall k :: k in base && k !in update ==> merged[k] == base[k])
  }

  /** Every entry of `small` is an entry of `large`. */
  ghost predicate SubMap(small: map<SkyKey, SkyValue>, large: map<SkyKey, SkyValue>) {
    forall k :: k in small ==> k in large && small[k] == large[k]
  }

  /** The abstract effect of `pruneInjectedValues`: drop the entries the graph already holds. */
  function Prune(offered: map<SkyKey, SkyValue>, alreadyStored: set<SkyKey>): map<SkyKey, SkyValue> {
    map k | k in offered && k !in alreadyStored :: offered[k]
  }

  /** Start of a round after the guard: the tracker's debt moves into `valuesToDelete`. */
  function Drain(s: DriverState): (r: DriverState)
    ensures Owed(r) == Owed(s) && s.valuesToDelete <= r.valuesToDelete
    ensures r.inflightKeys == {} && r.unsuccessfullyRewoundKeys == {}
    ensures r.(valuesToDelete := s.valuesToDelete, inflightKeys := s.inflightKeys,
               unsuccessfullyRewoundKeys := s.unsuccessfullyRewoundKeys) == s
  {
    s.(valuesToDelete := Owed(s), inflightKeys := {}, unsuccessfullyRewoundKeys := {})
  }

  /**
   * The conditional block of `evaluate`: when there is anything to do, merge the diff's
   * new values into the pending injections, invalidate the keys changed without a value,
   * prune, invalidate the keys left to inject, perform the invalidation and inject.
   */
  function InvalidationPhase(s: DriverState, diff: Diff, req: Request): (r: PhaseResult)
    ensures r.state.(valuesToDelete := s.valuesToDelete, valuesToInject := s.valuesToInject) == s
    ensures !NeedsInvalidation(s, diff) ==> r == PhaseResult(s, [])
    ensures NeedsInvalidation(s, diff) ==>
      r.state.valuesToDelete == req.deleteLeft && r.state.valuesToInject == req.injectLeft && |r.calls| == 5
  {
    if !NeedsInvalidation(s, diff) then PhaseResult(s, [])
    else
      var merged := s.valuesToInject + diff.changedKeysWithNewValues;
      var pruned := Prune(merged, req.unchangedInjections);
      PhaseResult(s.(valuesToDelete := req.deleteLeft, valuesToInject := req.injectLeft),
                  [Invalidate(diff.changedKeysWithoutNewValues),
                   PruneInjectedValues(merged),
                   Invalidate(pruned.Keys),
                   PerformInvalidation(s.valuesToDelete),
                   InjectValues(pruned, req.graphVersion)])
  }

  /**
   * Inside the block, in this order: the keys changed without a value are invalidated;
   * the pending injections, with the diff's new values put over them, are offered for
   * pruning; exactly the keys that survive pruning are invalidated; the pending deletions
   * are handed over; and what survived pruning is injected at the round's version.
   */
  lemma InvalidationOrder(s: DriverState, diff: Diff, req: Request)
    requires NeedsInvalidation(s, diff)
    ensures var r := InvalidationPhase(s, diff, req);
      && |r.calls| == 5
      && r.calls[0] == Invalidate(diff.changedKeysWithoutNewValues)
      && r.calls[1].PruneInjectedValues?
      && Overrides(r.calls[1].offered, s.valuesToInject, diff.changedKeysWithNewValues)
      && r.calls[4].InjectValues?
      && r.calls[4].version == req.graphVersion
      && SubMap(r.calls[4].values, r.calls[1].offered)
      && r.calls[4].values.Keys == r.calls[1].offered.Keys - req.unchangedInjections
      && r.calls[2] == Invalidate(r.calls[4].values.Keys)
      && r.calls[3] == PerformInvalidation(s.valuesToDelete)
  {
  }

  /**
   * The `finally` block: commit the round's version when edges are kept, then release the
   * guard. Releasing a guard that is not held fails, and that failure replaces the
   * round's outcome. A version that is not an `IntVersion` fails the cast on commit: that
   * failure replaces the outcome and the guard is never released.
   */
  function Finish(s: DriverState, req: Request, outcome: Outcome, calls: seq<Call>): (r: RoundResult)
    ensures r.calls == calls
    ensures !Commitable(s.keepEdges, req.graphVersion) ==>
      r == RoundResult(s, VersionCastFailed(req.graphVersion), calls)
    ensures Commitable(s.keepEdges, req.graphVersion) ==>
      && !r.state.evaluating
      && r.state.lastGraphVersion == (if s.keepEdges then Some(req.graphVersion) else s.lastGraphVersion)
      && r.outcome == (if s.evaluating then outcome else ReentrantEvaluation(req.roots))
      && r.state.(evaluating := s.evaluating, lastGraphVersion := s.lastGraphVersion) == s
  {
    if !Commitable(s.keepEdges, req.graphVersion) then RoundResult(s, VersionCastFailed(req.graphVersion), calls)
    else
      var committed := if s.keepEdges then s.(lastGraphVersion := Some(req.graphVersion)) else s;
      if committed.evaluating then RoundResult(committed.(evaluating := false), outcome, calls)
      else RoundResult(committed, ReentrantEvaluation(req.roots), calls)
  }

  /**
   * The first `n` calls of `evaluate` that the computations of `parent`'s evaluation make
   * back into this evaluator, each starting where the previous one left off.
   */
  function RunCallbacks(s: DriverState, parent: Request, n: nat): PhaseResult
    requires n <= |parent.evalStep.callbacks|
    decreases parent, 0, n
  {
    if n == 0 then PhaseResult(s, [])
    else
      var before := RunCallbacks(s, parent, n - 1);
      var nested := parent.evalStep.callbacks[n - 1];
      var r := Round(before.state, nested);
      PhaseResult(r.state, before.calls + r.calls + [Reentered(nested.roots, r.outcome)])
  }

  /** The evaluation step: run `eval`, let its callbacks re-enter, record what it leaves in the tracker. */
  function EvalPhase(s: DriverState, req: Request): (r: RoundResult)
    requires s.evaluating
    decreases req, 0, |req.evalStep.callbacks| + 1
  {
    var back := RunCallbacks(s, req, |req.evalStep.callbacks|);
    var left := back.state.(inflightKeys := back.state.inflightKeys + req.evalStep.inflight,
                            unsuccessfullyRewoundKeys :=
                              back.state.unsuccessfullyRewoundKeys + req.evalStep.failedRewinds);
    RoundResult(left, Ending(req.evalStep.ending), [Eval(req.roots, req.graphVersion)] + back.calls)
  }

  /** The outcome an evaluation ending gives. */
  function Ending(e: EvalEnding): Outcome {
    match e
    case EvalReturns(result) => Completed(result)
    case EvalInterrupted => Interrupted
  }

  /**
   * The `try` block of `evaluate`, from a state whose guard is held: ask for the diff,
   * invalidate and inject when there is anything to do, then evaluate.
   */
  function Attempt(s: DriverState, req: Request): RoundResult
    requires s.evaluating
    decreases req, 1
  {
    var asked := GetDiff(s.lastGraphVersion, req.graphVersion);
    match req.diffStep
    case DiffInterrupted => RoundResult(s, Interrupted, [asked])
    case DiffReturns(diff) =>
      var phase := InvalidationPhase(s, diff, req);
      var ran := EvalPhase(phase.state, req);
      RoundResult(ran.state, ran.outcome, [asked] + phase.calls + ran.calls)
  }

  /**
   * One call of `evaluate`: allocate the version (given by the request), take the guard,
   * drain the tracker into `valuesToDelete`, run the `try` block, and in every case
   * commit and release. A call made while another is active is rejected before it
   * touches anything.
   */
  function Round(s: DriverState, req: Request): (r: RoundResult)
    decreases req, 2
    ensures s.evaluating ==> r == RoundResult(s, ReentrantEvaluation(req.roots), [])
  {
    if s.evaluating then RoundResult(s, ReentrantEvaluation(req.roots), [])
    else
      var tried := Attempt(Drain(s.(evaluating := true)), req);
      Finish(tried.state, req, tried.outcome, tried.calls)
  }

  /**
   * The evaluation step leaves the driver state as it found it apart from the tracker,
   * which gains the keys the evaluator leaves behind; the nested calls its computations
   * make are all rejected; and its ending is the outcome.
   */
  lemma EvalPhaseEffect(s: DriverState, req: Request)
    requires s.evaluating
    ensures var r := EvalPhase(s, req);
      && r.state.(inflightKeys := s.inflightKeys,
                  unsuccessfullyRewoundKeys := s.unsuccessfullyRewoundKeys) == s
      && r.state.inflightKeys == s.inflightKeys + req.evalStep.inflight
      && r.state.unsuccessfullyRewoundKeys == s.unsuccessfullyRewoundKeys + req.evalStep.failedRewinds
      && |r.calls| == 1 + |req.evalStep.callbacks|
      && r.calls[0] == Eval(req.roots, req.graphVersion)
      && (forall i :: 1 <= i < |r.calls| ==>
            r.calls[i] == Reentered(req.evalStep.callbacks[i - 1].roots,
                                    ReentrantEvaluation(req.evalStep.callbacks[i - 1].roots)))
      && r.outcome == Ending(req.evalStep.ending)
  {
    var n := |req.evalStep.callbacks|;
    CallbacksRejected(s, req, n);
  }

  /** Every nested call made while the guard is held is rejected and leaves the state alone. */
  lemma {:induction false} CallbacksRejected(s: DriverState, parent: Request, n: nat)
    requires s.evaluating && n <= |parent.evalStep.callbacks|
    ensures var r := RunCallbacks(s, parent, n);
      && r.state == s
      && |r.calls| == n
      && forall i :: 0 <= i < n ==>
           r.calls[i] == Reentered(parent.evalStep.callbacks[i].roots,
                                   ReentrantEvaluation(parent.evalStep.callbacks[i].roots))
  {
    if n > 0 {
      CallbacksRejected(s, parent, n - 1);
    }
  }

  /** One more nested call while the guard is held: rejected, it adds only its record. */
  lemma CallbackRejected(s: DriverState, parent: Request, n: nat)
    requires s.evaluating && n < |parent.evalStep.callbacks|
    ensures RunCallbacks(s, parent, n + 1) ==
      PhaseResult(s, RunCallbacks(s, parent, n).calls
                     + [Reentered(parent.evalStep.callbacks[n].roots,
                                  ReentrantEvaluation(parent.evalStep.callbacks[n].roots))])
  {
    CallbacksRejected(s, parent, n);
  }

  /**
   * What the `try` block does once the guard is held: it changes only the pending sets
   * and the tracker; it asks for the diff first, over (last committed version, this
   * round's version); an interrupted diff ends it at once; otherwise the conditional
   * block's calls come next, then the evaluator runs at the round's own version, the
   * pending sets are what the block left, and the evaluator's ending is the outcome.
   */
  lemma AttemptEffect(s: DriverState, req: Request)
    requires s.evaluating
    ensures var r := Attempt(s, req);
      && r.state.(valuesToDelete := s.valuesToDelete, valuesToInject := s.valuesToInject,
                  inflightKeys := s.inflightKeys,
                  unsuccessfullyRewoundKeys := s.unsuccessfullyRewoundKeys) == s
      && |r.calls| > 0 && r.calls[0] == GetDiff(s.lastGraphVersion, req.graphVersion)
      && (req.diffStep.DiffInterrupted? ==>
            r == RoundResult(s, Interrupted, [GetDiff(s.lastGraphVersion, req.graphVersion)]))
      && (req.diffStep.DiffReturns? ==>
            var phase := InvalidationPhase(s, req.diffStep.diff, req);
            && |r.calls| > 1 + |phase.calls|
            && r.calls[1..1 + |phase.calls|] == phase.calls
            && r.calls[1 + |phase.calls|] == Eval(req.roots, req.graphVersion)
            && r.state.valuesToDelete == phase.state.valuesToDelete
            && r.state.valuesToInject == phase.state.valuesToInject
            && r.state.inflightKeys == s.inflightKeys + req.evalStep.inflight
            && r.state.unsuccessfullyRewoundKeys == s.unsuccessfullyRewoundKeys + req.evalStep.failedRewinds
            && r.outcome == Ending(req.evalStep.ending))
  {
    match req.diffStep
    case DiffInterrupted =>
    case DiffReturns(diff) =>
      var phase := InvalidationPhase(s, diff, req);
      EvalPhaseEffect(phase.state, req);
      var ran := EvalPhase(phase.state, req);
      var all := [GetDiff(s.lastGraphVersion, req.graphVersion)] + phase.calls + ran.calls;
      assert all[1..1 + |phase.calls|] == phase.calls;
      assert all[1 + |phase.calls|] == ran.calls[0];
  }

  /**
   * Once the guard is taken, every exit (normal, or interrupted in the diff or in the
   * evaluation) releases it, releasing never fails, and the version is committed exactly
   * when edges are kept, provided the version casts to an `IntVersion` whenever it is
   * committed (see `CastFailureKeepsGuard` for the other case).
   */
  lemma ReleasedOnEveryExit(s: DriverState, req: Request)
    requires !s.evaluating && Commitable(s.keepEdges, req.graphVersion)
    ensures var r := Round(s, req);
      && !r.state.evaluating
      && !r.outcome.ReentrantEvaluation?
      && r.state.keepEdges == s.keepEdges
      && r.state.lastGraphVersion == if s.keepEdges then Some(req.graphVersion) else s.lastGraphVersion
  {
    var started := Drain(s.(evaluating := true));
    AttemptEffect(started, req);
    if req.diffStep.DiffReturns? {
      assert Ending(req.evalStep.ending) != ReentrantEvaluation(req.roots);
    }
  }

  /**
   * With edges kept and a version that is not an `IntVersion`, the commit's cast fails
   * inside the `finally` block before the guard is released: the round ends with that
   * failure and the guard still held, and every later call is rejected unchanged.
   */
  lemma CastFailureKeepsGuard(s: DriverState, req: Request, next: Request)
    requires !s.evaluating && !Commitable(s.keepEdges, req.graphVersion)
    ensures var r := Round(s, req);
      && r.outcome == VersionCastFailed(req.graphVersion)
      && r.state.evaluating
      && r.state.lastGraphVersion == s.lastGraphVersion
      && Round(r.state, next) == RoundResult(r.state, ReentrantEvaluation(next.roots), [])
  {
    var started := Drain(s.(evaluating := true));
    AttemptEffect(started, req);
    var tried := Attempt(started, req);
    assert Round(s, req) == Finish(tried.state, req, tried.outcome, tried.calls);
  }

  /**
   * The diff is asked for first, over (last committed version, this round's version); when
   * it arrives, the conditional block's calls come next, then the evaluator runs at that
   * same version; the tracker ends holding exactly what the evaluator left in it, and the
   * evaluator's ending is the outcome unless the commit's cast fails.
   */
  lemma DiffThenEvalAtRoundVersion(s: DriverState, req: Request)
    requires !s.evaluating
    ensures var r := Round(s, req);
      && |r.calls| > 0 && r.calls[0] == GetDiff(s.lastGraphVersion, req.graphVersion)
      && (req.diffStep.DiffReturns? ==>
            var phase := InvalidationPhase(Drain(s.(evaluating := true)), req.diffStep.diff, req);
            && |r.calls| > 1 + |phase.calls|
            && r.calls[1..1 + |phase.calls|] == phase.calls
            && r.calls[1 + |phase.calls|] == Eval(req.roots, req.graphVersion)
            && r.state.inflightKeys == req.evalStep.inflight
            && r.state.unsuccessfullyRewoundKeys == req.evalStep.failedRewinds
            && r.outcome == (if Commitable(s.keepEdges, req.graphVersion) then Ending(req.evalStep.ending)
                             else VersionCastFailed(req.graphVersion)))
  {
    AttemptEffect(Drain(s.(evaluating := true)), req);
  }

  /**
   * An interrupted diff still drains the tracker: its keys stay pending deletion, nothing
   * else is pending or asked for, and the outcome is the interruption.
   */
  lemma InterruptedDiffKeepsDebt(s: DriverState, req: Request)
    requires !s.evaluating && req.diffStep.DiffInterrupted?
    ensures var r := Round(s, req);
      && r.outcome == (if Commitable(s.keepEdges, req.graphVersion) then Interrupted
                       else VersionCastFailed(req.graphVersion))
      && r.calls == [GetDiff(s.lastGraphVersion, req.graphVersion)]
      && r.state.valuesToDelete == Owed(s)
      && r.state.valuesToInject == s.valuesToInject
      && r.state.inflightKeys == {} && r.state.unsuccessfullyRewoundKeys == {}
  {
  }

  /**
   * The drained debt is never lost: after a round that took the guard, every key owed at
   * its start is still pending deletion or was handed to `performInvalidation`.
   */
  lemma DebtNotLost(s: DriverState, req: Request)
    requires !s.evaluating
    ensures var r := Round(s, req);
      Owed(s) <= r.state.valuesToDelete || PerformInvalidation(Owed(s)) in r.calls
  {
  }

  /**
   * Skipping the block leaves the pending sets alone: when the diff is empty and nothing
   * is pending (after the drain), the round ends with both pending sets empty and asks
   * for nothing but the diff and the evaluation (besides the rejected nested calls).
   */
  lemma NoWorkNoInvalidation(s: DriverState, req: Request)
    requires !s.evaluating && req.diffStep.DiffReturns? && req.diffStep.diff.IsEmpty()
    requires s.valuesToInject == map[] && Owed(s) == {}
    ensures var r := Round(s, req);
      && r.state.valuesToDelete == {} && r.state.valuesToInject == map[]
      && forall c :: c in r.calls ==> c.GetDiff? || c.Eval? || c.Reentered?
  {
    var started := Drain(s.(evaluating := true));
    var phase := InvalidationPhase(started, req.diffStep.diff, req);
    assert phase.calls == [];
    EvalPhaseEffect(phase.state, req);
    var ran := EvalPhase(phase.state, req);
    var r := Round(s, req);
    var tried := Attempt(started, req);
    assert r == Finish(tried.state, req, tried.outcome, tried.calls);
    assert r.calls == [GetDiff(s.lastGraphVersion, req.graphVersion)] + ran.calls;
  }
}
