/**
 * The evaluator object itself: its fields, its constructor's choice of graph, the
 * re-entrancy guard and the `evaluate` driver, each step changing the fields in place.
 * `Evaluate` is proved to leave exactly the state, outcome and collaborator calls that
 * `EvaluationRound.Round` gives for the state it started from.
 */
module InMemoryEvaluator {
  import opened EvaluationRound

  class InMemoryMemoizingEvaluator {
    var graph: GraphKind
    var evaluating: bool
    const keepEdges: bool
    var lastGraphVersion: Option<Version>
    var valuesToDelete: set<SkyKey>
    var valuesToInject: map<SkyKey, SkyValue>
    // The two key sets of the dirty-and-inflight tracking progress receiver.
    var inflightKeys: set<SkyKey>
    var unsuccessfullyRewoundKeys: set<SkyKey>
    // Every call made to a collaborator so far, in order.
    ghost var calls: seq<Call>

    /** The driver's state as a value. */
    function State(): DriverState
      reads this
    {
      DriverState(evaluating, lastGraphVersion, valuesToDelete, valuesToInject,
                  inflightKeys, unsuccessfullyRewoundKeys, keepEdges)
    }

    /** Builds an idle evaluator over a fresh graph, edge-tracking only when `keepEdges`. */
    constructor (keepEdges: bool, usePooledInterning: bool)
      ensures graph.EdgeTracking? <==> keepEdges
      ensures graph == if keepEdges then EdgeTracking(usePooledInterning) else Edgeless(usePooledInterning)
      ensures State() == DriverState(false, None, {}, map[], {}, {}, keepEdges)
      ensures calls == []
    {
      this.keepEdges := keepEdges;
      graph := if keepEdges then EdgeTracking(usePooledInterning) else Edgeless(usePooledInterning);
      evaluating := false;
      lastGraphVersion := None;
      valuesToDelete, valuesToInject := {}, map[];
      inflightKeys, unsuccessfullyRewoundKeys := {}, {};
      calls := [];
    }

    /**
     * Sets the flag to `newValue`; succeeds exactly when the flag held the other value.
     * A failure is the re-entrancy precondition violation.
     */
    method SetAndCheckEvaluateState(newValue: bool) returns (ok: bool)
      modifies this`evaluating
      ensures ok <==> old(evaluating) != newValue
      ensures evaluating == newValue
    {
      var previous := evaluating;
      evaluating := newValue;
      ok := previous != newValue;
    }

    /** The tracker's inflight keys, which it forgets on read. */
    method GetAndClearInflightKeys() returns (keys: set<SkyKey>)
      modifies this`inflightKeys
      ensures keys == old(inflightKeys) && inflightKeys == {}
    {
      keys := inflightKeys;
      inflightKeys := {};
    }

    /** The tracker's unsuccessfully rewound keys, which it forgets on read. */
    method GetAndClearUnsuccessfullyRewoundKeys() returns (keys: set<SkyKey>)
      modifies this`unsuccessfullyRewoundKeys
      ensures keys == old(unsuccessfullyRewoundKeys) && unsuccessfullyRewoundKeys == {}
    {
      keys := unsuccessfullyRewoundKeys;
      unsuccessfullyRewoundKeys := {};
    }

    /** Superclass helper: queues `keys` for invalidation. */
    method Invalidate(keys: set<SkyKey>)
      modifies this`calls
      ensures calls == old(calls) + [Call.Invalidate(keys)]
    {
      calls := calls + [Call.Invalidate(keys)];
    }

    /** Superclass helper: drops the pending injections whose value the graph already holds. */
    method PruneInjectedValues(alreadyStored: set<SkyKey>)
      modifies this`valuesToInject, this`calls
      ensures valuesToInject.Keys == old(valuesToInject).Keys - alreadyStored
      ensures SubMap(valuesToInject, old(valuesToInject))
      ensures calls == old(calls) + [Call.PruneInjectedValues(old(valuesToInject))]
    {
      calls := calls + [Call.PruneInjectedValues(valuesToInject)];
      valuesToInject := Prune(valuesToInject, alreadyStored);
    }

    /** Superclass helper: deletes and dirties in the graph; `left` is what it leaves pending. */
    method PerformInvalidation(left: set<SkyKey>)
      modifies this`valuesToDelete, this`calls
      ensures valuesToDelete == left
      ensures calls == old(calls) + [Call.PerformInvalidation(old(valuesToDelete))]
    {
      calls := calls + [Call.PerformInvalidation(valuesToDelete)];
      valuesToDelete := left;
    }

    /** Superclass helper: writes the pending injections at `version`; `left` is what it leaves pending. */
    method InjectValues(version: Version, left: map<SkyKey, SkyValue>)
      modifies this`valuesToInject, this`calls
      ensures valuesToInject == left
      ensures calls == old(calls) + [Call.InjectValues(old(valuesToInject), version)]
    {
      calls := calls + [Call.InjectValues(valuesToInject, version)];
      valuesToInject := left;
    }

    /**
     * The body of the conditional block: merge the diff's new values over the pending
     * injections, invalidate, prune, invalidate what is left to inject, perform the
     * invalidation and inject at the request's version.
     */
    method InvalidateAndInject(diff: Diff, req: Request)
      requires NeedsInvalidation(State(), diff)
      modifies this`valuesToDelete, this`valuesToInject, this`calls
      ensures var r := InvalidationPhase(old(State()), diff, req);
        State() == r.state && calls == old(calls) + r.calls
    {
      ghost var start := State();
      valuesToInject := valuesToInject + diff.changedKeysWithNewValues;
      Invalidate(diff.changedKeysWithoutNewValues);
      PruneInjectedValues(req.unchangedInjections);
      assert valuesToInject == Prune(start.valuesToInject + diff.changedKeysWithNewValues, req.unchangedInjections);
      Invalidate(valuesToInject.Keys);
      PerformInvalidation(req.deleteLeft);
      InjectValues(req.graphVersion, req.injectLeft);
    }

    /**
     * The calls of `evaluate` that the evaluator's computations make back into this same
     * object while the guard is held, in order.
     */
    method RunCallbacksFrom(req: Request)
      requires evaluating
      modifies this`evaluating, this`lastGraphVersion, this`valuesToDelete, this`valuesToInject,
               this`inflightKeys, this`unsuccessfullyRewoundKeys, this`calls
      decreases req, 0, 0
      ensures var r := RunCallbacks(old(State()), req, |req.evalStep.callbacks|);
        State() == r.state && calls == old(calls) + r.calls
    {
      ghost var start := State();
      var callbacks := req.evalStep.callbacks;
      var i := 0;
      while i < |callbacks|
        invariant 0 <= i <= |callbacks|
        invariant State() == start
        invariant calls == old(calls) + RunCallbacks(start, req, i).calls
      {
        var nestedRequest := callbacks[i];
        assert nestedRequest in req.evalStep.callbacks;
        CallbackRejected(start, req, i);
        var nested := Evaluate(nestedRequest);
        calls := calls + [Reentered(nestedRequest.roots, nested)];
        i := i + 1;
      }
      CallbacksRejected(start, req, |callbacks|);
    }

    /**
     * The parallel evaluator over `req.roots` at `req.graphVersion`: its computations call
     * back into `Evaluate` on this same object, then it records its leftover keys in the
     * tracker and returns or is interrupted.
     */
    method RunParallelEvaluator(req: Request) returns (outcome: Outcome)
      requires evaluating
      modifies this`evaluating, this`lastGraphVersion, this`valuesToDelete, this`valuesToInject,
               this`inflightKeys, this`unsuccessfullyRewoundKeys, this`calls
      decreases req, 0, 1
      ensures var r := EvalPhase(old(State()), req);
        State() == r.state && outcome == r.outcome && calls == old(calls) + r.calls
    {
      calls := calls + [Eval(req.roots, req.graphVersion)];
      RunCallbacksFrom(req);
      inflightKeys := inflightKeys + req.evalStep.inflight;
      unsuccessfullyRewoundKeys := unsuccessfullyRewoundKeys + req.evalStep.failedRewinds;
      match req.evalStep.ending
      case EvalReturns(result) => outcome := Completed(result);
      case EvalInterrupted => outcome := Interrupted;
    }

    /**
     * The `try` block of `evaluate`: request the diff over (last committed version, this
     * round's version), run the invalidate/prune/inject block when there is anything to
     * do, and run the evaluator at this round's version.
     */
    method TryEvaluate(req: Request) returns (outcome: Outcome)
      requires evaluating
      modifies this`evaluating, this`lastGraphVersion, this`valuesToDelete, this`valuesToInject,
               this`inflightKeys, this`unsuccessfullyRewoundKeys, this`calls
      decreases req, 1
      ensures var r := Attempt(old(State()), req);
        State() == r.state && outcome == r.outcome && calls == old(calls) + r.calls
    {
      ghost var start := State();
      ghost var asked := [GetDiff(lastGraphVersion, req.graphVersion)];
      calls := calls + asked;
      match req.diffStep {
        case DiffInterrupted =>
          outcome := Interrupted;
        case DiffReturns(diff) =>
          ghost var phase := InvalidationPhase(start, diff, req);
          if !diff.IsEmpty() || valuesToInject != map[] || valuesToDelete != {} {
            InvalidateAndInject(diff, req);
          }
          assert State() == phase.state && calls == old(calls) + asked + phase.calls;
          ghost var ran := EvalPhase(phase.state, req);
          outcome := RunParallelEvaluator(req);
          assert calls == old(calls) + asked + phase.calls + ran.calls;
          assert old(calls) + asked + phase.calls + ran.calls == old(calls) + (asked + phase.calls + ran.calls);
      }
    }

    /**
     * `evaluate(roots)`: the version comes from the request, the guard is taken, the
     * tracker's debt is moved to `valuesToDelete`, the `try` block runs, and finally the
     * version is committed when edges are kept and the guard is released. A version that
     * fails the cast on commit ends the call there, with the guard still held.
     */
    method Evaluate(req: Request) returns (outcome: Outcome)
      modifies this`evaluating, this`lastGraphVersion, this`valuesToDelete, this`valuesToInject,
               this`inflightKeys, this`unsuccessfullyRewoundKeys, this`calls
      decreases req, 2
      ensures old(evaluating) ==>
        outcome == ReentrantEvaluation(req.roots) && State() == old(State()) && calls == old(calls)
      ensures !old(evaluating) && Commitable(keepEdges, req.graphVersion) ==> !evaluating
      ensures var r := Round(old(State()), req);
        State() == r.state && outcome == r.outcome && calls == old(calls) + r.calls
    {
      var graphVersion := req.graphVersion;
      var entered := SetAndCheckEvaluateState(true);
      if !entered {
        return ReentrantEvaluation(req.roots);
      }
      var inflight := GetAndClearInflightKeys();
      valuesToDelete := valuesToDelete + inflight;
      var rewound := GetAndClearUnsuccessfullyRewoundKeys();
      valuesToDelete := valuesToDelete + rewound;
      assert State() == Drain(old(State()).(evaluating := true));

      outcome := TryEvaluate(req);

      // finally
      if keepEdges && !graphVersion.IntVersion? {
        // The cast of the version to commit fails before the guard is released.
        outcome := VersionCastFailed(graphVersion);
      } else {
        if keepEdges {
          lastGraphVersion := Some(graphVersion);
        }
        var released := SetAndCheckEvaluateState(false);
        if !released {
          outcome := ReentrantEvaluation(req.roots);
        }
        ReleasedOnEveryExit(old(State()), req);
      }
    }
  }
}
