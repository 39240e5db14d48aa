/**
 * Successive top-level calls of `evaluate` on one evaluator, each starting from the
 * state the previous one left: what holds across rounds.
 */
module RoundSequences {
  import opened EvaluationRound

  /** The rounds of `reqs`, run one after the other from `s`. */
  function Run(s: DriverState, reqs: seq<Request>): (rs: seq<RoundResult>)
    decreases |reqs|
    ensures |rs| == |reqs|
    ensures forall i :: 0 <= i < |reqs| ==>
      rs[i] == Round(if i == 0 then s else rs[i - 1].state, reqs[i])
  {
    if reqs == [] then []
    else
      var r := Round(s, reqs[0]);
      [r] + Run(r.state, reqs[1..])
  }

  /**
   * The versions handed out are `IntVersion`s that increase from one call to the next
   * and lie above the last committed one: the allocator's promise for incremental use,
   * taken here as an assumption.
   */
  ghost predicate IncreasingVersions(last: Option<Version>, reqs: seq<Request>) {
    && (forall i :: 0 <= i < |reqs| ==> reqs[i].graphVersion.IntVersion?)
    && (forall i, j :: 0 <= i < j < |reqs| ==> reqs[i].graphVersion.number < reqs[j].graphVersion.number)
    && (last.Some? ==>
          && last.value.IntVersion?
          && forall i :: 0 <= i < |reqs| ==> last.value.number < reqs[i].graphVersion.number)
  }

  /** Every version handed out can be committed: an `IntVersion` whenever edges are kept. */
  predicate AllCommitable(keepEdges: bool, reqs: seq<Request>) {
    forall i :: 0 <= i < |reqs| ==> Commitable(keepEdges, reqs[i].graphVersion)
  }

  /**
   * Calls that do not overlap are never rejected: each one ends with the guard free and
   * none fails the re-entrancy check, as long as every version handed out can be committed.
   */
  lemma {:induction false} GuardFreeAcrossRounds(s: DriverState, reqs: seq<Request>)
    requires !s.evaluating && AllCommitable(s.keepEdges, reqs)
    decreases |reqs|
    ensures forall i :: 0 <= i < |reqs| ==>
      !Run(s, reqs)[i].state.evaluating && !Run(s, reqs)[i].outcome.ReentrantEvaluation?
  {
    if reqs != [] {
      ReleasedOnEveryExit(s, reqs[0]);
      var r := Round(s, reqs[0]);
      GuardFreeAcrossRounds(r.state, reqs[1..]);
      var rs := Run(s, reqs);
      forall i | 0 <= i < |reqs|
        ensures !rs[i].state.evaluating && !rs[i].outcome.ReentrantEvaluation?
      {
        if i > 0 {
          assert rs[i] == Run(r.state, reqs[1..])[i - 1];
        }
      }
    }
  }

  /**
   * With edges kept, each round asks for the diff from exactly the version the round
   * before it allocated (whether that round completed or was interrupted), and the first
   * from the version committed before the sequence.
   */
  lemma {:induction false} DiffRangesChain(s: DriverState, reqs: seq<Request>)
    requires !s.evaluating && s.keepEdges && AllCommitable(s.keepEdges, reqs)
    decreases |reqs|
    ensures |reqs| > 0 ==>
      |Run(s, reqs)[0].calls| > 0 && Run(s, reqs)[0].calls[0] == GetDiff(s.lastGraphVersion, reqs[0].graphVersion)
    ensures forall i :: 1 <= i < |reqs| ==>
      |Run(s, reqs)[i].calls| > 0 && Run(s, reqs)[i].calls[0] == GetDiff(Some(reqs[i - 1].graphVersion), reqs[i].graphVersion)
  {
    if reqs != [] {
      DiffThenEvalAtRoundVersion(s, reqs[0]);
      ReleasedOnEveryExit(s, reqs[0]);
      var r := Round(s, reqs[0]);
      DiffRangesChain(r.state, reqs[1..]);
      var rs := Run(s, reqs);
      forall i | 1 <= i < |reqs|
        ensures |rs[i].calls| > 0 && rs[i].calls[0] == GetDiff(Some(reqs[i - 1].graphVersion), reqs[i].graphVersion)
      {
        assert rs[i] == Run(r.state, reqs[1..])[i - 1];
      }
    }
  }

  /**
   * Without edges, no round ever commits a version: every round asks for the diff from
   * the same starting point, whatever versions are handed out.
   */
  lemma {:induction false} EdgelessNeverCommits(s: DriverState, reqs: seq<Request>)
    requires !s.evaluating && !s.keepEdges
    decreases |reqs|
    ensures forall i :: 0 <= i < |reqs| ==>
      && Run(s, reqs)[i].state.lastGraphVersion == s.lastGraphVersion
      && |Run(s, reqs)[i].calls| > 0
      && Run(s, reqs)[i].calls[0] == GetDiff(s.lastGraphVersion, reqs[i].graphVersion)
  {
    if reqs != [] {
      DiffThenEvalAtRoundVersion(s, reqs[0]);
      ReleasedOnEveryExit(s, reqs[0]);
      var r := Round(s, reqs[0]);
      EdgelessNeverCommits(r.state, reqs[1..]);
      var rs := Run(s, reqs);
      forall i | 0 <= i < |reqs|
        ensures rs[i].state.lastGraphVersion == s.lastGraphVersion
        ensures |rs[i].calls| > 0 && rs[i].calls[0] == GetDiff(s.lastGraphVersion, reqs[i].graphVersion)
      {
        if i > 0 {
          assert rs[i] == Run(r.state, reqs[1..])[i - 1];
        }
      }
    }
  }

  /**
   * With edges kept and versions handed out as the allocator promises, every diff is
   * asked for over a range that moves strictly forward.
   */
  lemma DiffRangesMoveForward(s: DriverState, reqs: seq<Request>)
    requires !s.evaluating && s.keepEdges && IncreasingVersions(s.lastGraphVersion, reqs)
    ensures forall i :: 0 <= i < |reqs| ==>
      |Run(s, reqs)[i].calls| > 0 &&
      var asked := Run(s, reqs)[i].calls[0];
      asked.GetDiff? && asked.to.IntVersion? &&
      (asked.from.Some? ==> asked.from.value.IntVersion? && asked.from.value.number < asked.to.number)
  {
    DiffRangesChain(s, reqs);
    var rs := Run(s, reqs);
    forall i | 0 <= i < |reqs|
      ensures |rs[i].calls| > 0 && rs[i].calls[0].GetDiff? && rs[i].calls[0].to.IntVersion?
      ensures rs[i].calls[0].from.Some? ==>
        rs[i].calls[0].from.value.IntVersion? && rs[i].calls[0].from.value.number < rs[i].calls[0].to.number
    {
      if i > 0 {
        assert rs[i].calls[0] == GetDiff(Some(reqs[i - 1].graphVersion), reqs[i].graphVersion);
      } else {
        assert rs[0].calls[0] == GetDiff(s.lastGraphVersion, reqs[0].graphVersion);
      }
    }
  }
}
