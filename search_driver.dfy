/** The random-restart search driver, `InitialPoseGraph::optimizeGraph` of
    src/initial_pose_graph.cpp. Each round runs one bounded attempt, promotes
    its result only if the error is strictly lower and the pose passes the
    cheirality check, stops once the best error is below the adjusted limit, and
    otherwise moves to the next random candidate while the limit grows by FFAC.

    The loop is specified step by step by `Run`, whose outcome from round 0 is
    `Drive`; the method `OptimizeGraph` computes exactly `Drive`. The same outcome
    is also described round by round: `StateAt(j)` is the state at the top of
    round j, `FirstBreak` the round at which the loop stops, and `Search` the
    outcome; `DriveIsSearch` proves the two descriptions agree. */
module SearchDriver {
  import opened PoseTypes
  import opened LocalOptimizer

  /** The round budget. */
  const MAX_NUM_ITER: nat := 2000
  /** std::pow(5.0, 1.0 / MAX_NUM_ITER), the exact value of the double it returns: the error
      limit may grow by a factor of about 5 (MAX_ADJUST_RATIO) over the whole budget. */
  const FFAC: real := 1.0008050428293862044171191882924176752567291259765625

  /** One call of the driver: the graph, the start pose, the base error limit, the
      points for the cheirality check, and the random candidates in drawing order. */
  datatype Problem = Problem(graph: Graph, startPose: Pose3, errorLimit: real,
                             wp: seq<Point3>, randomPoses: seq<Pose3>)

  /** The state at the top of a round: the candidate pose, the best estimate so far and
      the growth factor of the error limit. */
  datatype Round = Round(pose: Pose3, best: Estimate, adjFac: real)

  function Pow(b: real, n: nat): real
  {
    if n == 0 then 1.0 else Pow(b, n - 1) * b
  }

  /** The cheirality check: some point lies behind the camera under the inverted pose. */
  predicate FailsCheirality(env: Externals, wp: seq<Point3>, e: Estimate)
  {
    env.hasNegativeZ(env.inverse(e.pose), wp)
  }

  /** Promotion of an attempt: never raises the best error, only ever adopts an attempt
      that is strictly better and passes the cheirality check, and adopts every such attempt. */
  function Promote(env: Externals, wp: seq<Point3>, best: Estimate, pe: Estimate): (r: Estimate)
    ensures r.error <= best.error
    ensures r == best || (r == pe && pe.error < best.error && !FailsCheirality(env, wp, pe))
    ensures pe.error < best.error && !FailsCheirality(env, wp, pe) ==> r == pe
  {
    if pe.error < best.error && !FailsCheirality(env, wp, pe) then pe else best
  }

  /** The best estimate before the first round: the start pose with its own graph error. */
  function StartEstimate(env: Externals, prob: Problem): Estimate
  {
    Estimate(prob.startPose, GraphError(env, prob.graph, prob.startPose), 0)
  }

  /** The state at the top of round 0. */
  function Initial(env: Externals, prob: Problem): Round
  {
    Round(prob.startPose, StartEstimate(env, prob), 1.0)
  }

  /** The best estimate after the attempt of a round. */
  function Attempt(env: Externals, prob: Problem, s: Round): Estimate
  {
    Promote(env, prob.wp, s.best, TryOptimization(env, s.pose, prob.graph))
  }

  /** The error limit adjusted by the growth factor. */
  function AdjustedLimit(errorLimit: real, adjFac: real): real
  {
    errorLimit * adjFac
  }

  /** The round ends the loop: the best error is below the limit adjusted for that round. */
  predicate Breaks(env: Externals, prob: Problem, s: Round)
  {
    Attempt(env, prob, s).error < AdjustedLimit(prob.errorLimit, s.adjFac)
  }

  /** The growth factor of the next round. */
  function Grow(adjFac: real): real
  {
    adjFac * FFAC
  }

  /** The state at the top of round j + 1 when round j did not end the loop. */
  function Next(env: Externals, prob: Problem, s: Round, j: nat): Round
    requires j < |prob.randomPoses|
  {
    Round(prob.randomPoses[j], Attempt(env, prob, s), Grow(s.adjFac))
  }

  /** The rest of the loop from round j in state s: what the loop hands back. */
  function Run(env: Externals, prob: Problem, s: Round, j: nat): Outcome
    requires j <= MAX_NUM_ITER <= |prob.randomPoses|
    decreases MAX_NUM_ITER - j
  {
    if j == MAX_NUM_ITER then Estimated(s.best, AdjustedLimit(prob.errorLimit, s.adjFac))
    else if Breaks(env, prob, s) then Estimated(Attempt(env, prob, s), AdjustedLimit(prob.errorLimit, s.adjFac))
    else Run(env, prob, Next(env, prob, s, j), j + 1)
  }

  /** What the driver returns, step by step: a fatal error when the start pose's graph
      error is not normal, and otherwise what the loop hands back from round 0. */
  function Drive(env: Externals, prob: Problem): Outcome
    requires MAX_NUM_ITER <= |prob.randomPoses|
  {
    match GetGraphError(env, prob.startPose, prob.graph)
    case Failure(msg) => BadStartingGuess(msg)
    case Ok(_) => Run(env, prob, Initial(env, prob), 0)
  }

  /** The loop of the driver, with the state the source updates in place. */
  method OptimizeGraph(env: Externals, startPose: Pose3, graph: Graph, errorLimit: real,
                       wp: seq<Point3>, randomPoses: seq<Pose3>)
    returns (outcome: Outcome)
    requires MAX_NUM_ITER <= |randomPoses|
    ensures outcome == Drive(env, Problem(graph, startPose, errorLimit, wp, randomPoses))
  {
    ghost var prob := Problem(graph, startPose, errorLimit, wp, randomPoses);
    var start := GetGraphError(env, startPose, graph);
    if start.Failure? {
      return BadStartingGuess(start.message);
    }
    var pose := startPose;
    var bestPose := Estimate(startPose, start.value, 0);
    var numIter := 0;
    var adjFac := 1.0;
    ghost var result := Run(env, prob, StateAt(env, prob, 0), 0);
    assert result == Drive(env, prob);
    while numIter < MAX_NUM_ITER
      invariant numIter <= MAX_NUM_ITER
      invariant Round(pose, bestPose, adjFac) == StateAt(env, prob, numIter)
      invariant Run(env, prob, StateAt(env, prob, numIter), numIter) == result
    {
      var pe := TryOptimization(env, pose, graph);
      var adjustedLimit := AdjustedLimit(errorLimit, adjFac);
      if pe.error < bestPose.error {
        if !env.hasNegativeZ(env.inverse(pe.pose), wp) {
          bestPose := pe;
        }
      }
      RunStep(env, prob, numIter, bestPose, adjustedLimit);
      if bestPose.error < adjustedLimit {
        return Estimated(bestPose, adjustedLimit);
      }
      pose := randomPoses[numIter];
      adjFac := Grow(adjFac);
      numIter := numIter + 1;
    }
    outcome := Estimated(bestPose, AdjustedLimit(errorLimit, adjFac));
  }

  /** Round j of the loop, from the state `StateAt(j)`: it either ends the loop with its
      promoted attempt and adjusted limit, or its successor state is `StateAt(j + 1)`. */
  lemma RunStep(env: Externals, prob: Problem, j: nat, best: Estimate, limit: real)
    requires j < MAX_NUM_ITER <= |prob.randomPoses|
    requires best == Attempt(env, prob, StateAt(env, prob, j))
    requires limit == AdjustedLimit(prob.errorLimit, StateAt(env, prob, j).adjFac)
    ensures best.error < limit ==> Run(env, prob, StateAt(env, prob, j), j) == Estimated(best, limit)
    ensures !(best.error < limit) ==>
              && StateAt(env, prob, j + 1) == Round(prob.randomPoses[j], best, Grow(StateAt(env, prob, j).adjFac))
              && Run(env, prob, StateAt(env, prob, j), j) == Run(env, prob, StateAt(env, prob, j + 1), j + 1)
  {
  }

  /** The state at the top of round j, had no earlier round ended the loop. */
  function StateAt(env: Externals, prob: Problem, j: nat): Round
    requires j <= MAX_NUM_ITER <= |prob.randomPoses|
  {
    if j == 0 then Initial(env, prob) else Next(env, prob, StateAt(env, prob, j - 1), j - 1)
  }

  /** The first round from j on that ends the loop, or MAX_NUM_ITER if none does. */
  function FirstBreak(env: Externals, prob: Problem, j: nat): (n: nat)
    requires j <= MAX_NUM_ITER <= |prob.randomPoses|
    ensures j <= n <= MAX_NUM_ITER
    ensures forall i {:trigger Breaks(env, prob, StateAt(env, prob, i))} ::
              j <= i < n ==> !Breaks(env, prob, StateAt(env, prob, i))
    ensures n < MAX_NUM_ITER ==> Breaks(env, prob, StateAt(env, prob, n))
    decreases MAX_NUM_ITER - j
  {
    if j == MAX_NUM_ITER || Breaks(env, prob, StateAt(env, prob, j)) then j
    else FirstBreak(env, prob, j + 1)
  }

  /** The driver's outcome, round by round: the estimate and the adjusted limit of the
      first round that meets its limit, or of the state after the last round. */
  function Search(env: Externals, prob: Problem): Outcome
    requires MAX_NUM_ITER <= |prob.randomPoses|
  {
    match GetGraphError(env, prob.startPose, prob.graph)
    case Failure(msg) => BadStartingGuess(msg)
    case Ok(_) =>
      var n := FirstBreak(env, prob, 0);
      var s := StateAt(env, prob, n);
      Estimated(if n < MAX_NUM_ITER then Attempt(env, prob, s) else s.best, AdjustedLimit(prob.errorLimit, s.adjFac))
  }

  /** From round j on, the loop hands back the state of the first round that meets its limit. */
  lemma {:induction false} RunStopsAtFirstBreak(env: Externals, prob: Problem, j: nat)
    requires j <= MAX_NUM_ITER <= |prob.randomPoses|
    ensures var n := FirstBreak(env, prob, j);
            var s := StateAt(env, prob, n);
            Run(env, prob, StateAt(env, prob, j), j)
            == Estimated(if n < MAX_NUM_ITER then Attempt(env, prob, s) else s.best, AdjustedLimit(prob.errorLimit, s.adjFac))
    decreases MAX_NUM_ITER - j
  {
    if j < MAX_NUM_ITER && !Breaks(env, prob, StateAt(env, prob, j)) {
      RunStopsAtFirstBreak(env, prob, j + 1);
    }
  }

  /** The step-by-step and the round-by-round descriptions of the driver agree. */
  lemma DriveIsSearch(env: Externals, prob: Problem)
    requires MAX_NUM_ITER <= |prob.randomPoses|
    ensures Drive(env, prob) == Search(env, prob)
  {
    RunStopsAtFirstBreak(env, prob, 0);
  }

  /** A round count with the defining properties of the first breaking round from j on is that round. */
  lemma {:induction false} FirstBreakIsUnique(env: Externals, prob: Problem, j: nat, n: nat)
    requires j <= n <= MAX_NUM_ITER <= |prob.randomPoses|
    requires forall i {:trigger Breaks(env, prob, StateAt(env, prob, i))} ::
               j <= i < n ==> !Breaks(env, prob, StateAt(env, prob, i))
    requires n < MAX_NUM_ITER ==> Breaks(env, prob, StateAt(env, prob, n))
    ensures FirstBreak(env, prob, j) == n
    decreases n - j
  {
    if j < n {
      assert !Breaks(env, prob, StateAt(env, prob, j));
      FirstBreakIsUnique(env, prob, j + 1, n);
    }
  }

  /** At the top of round j the growth factor is FFAC^j. */
  lemma {:induction false} GrowthFactorAt(env: Externals, prob: Problem, j: nat)
    requires j <= MAX_NUM_ITER <= |prob.randomPoses|
    ensures StateAt(env, prob, j).adjFac == Pow(FFAC, j)
  {
    if j > 0 {
      GrowthFactorAt(env, prob, j - 1);
    }
  }

  /** Powers of a base of at least one are at least one and never shrink as the exponent grows. */
  lemma {:induction false} PowGrows(b: real, j: nat, k: nat)
    requires 1.0 <= b && j <= k
    ensures 1.0 <= Pow(b, j) <= Pow(b, k)
    decreases k
  {
    if j < k {
      PowGrows(b, j, k - 1);
      var p := Pow(b, k - 1);
      assert p <= p * b by {
        assert p * b - p == p * (b - 1.0);
      }
    } else if j > 0 {
      PowGrows(b, j - 1, j - 1);
      var p := Pow(b, j - 1);
      assert p <= p * b by {
        assert p * b - p == p * (b - 1.0);
      }
    }
  }

  /** The growth factor is at least one and never shrinks from one round to a later one. */
  lemma GrowthFactorGrows(env: Externals, prob: Problem, j: nat, k: nat)
    requires j <= k <= MAX_NUM_ITER <= |prob.randomPoses|
    ensures 1.0 <= StateAt(env, prob, j).adjFac <= StateAt(env, prob, k).adjFac
  {
    GrowthFactorAt(env, prob, j);
    GrowthFactorAt(env, prob, k);
    PowGrows(FFAC, j, k);
  }

  /** With a non-negative base limit, the adjusted limit never drops below the base
      limit and never shrinks from one round to a later one. */
  lemma LimitNeverShrinks(env: Externals, prob: Problem, j: nat, k: nat)
    requires j <= k <= MAX_NUM_ITER <= |prob.randomPoses|
    requires 0.0 <= prob.errorLimit
    ensures prob.errorLimit <= AdjustedLimit(prob.errorLimit, StateAt(env, prob, j).adjFac)
                            <= AdjustedLimit(prob.errorLimit, StateAt(env, prob, k).adjFac)
  {
    GrowthFactorGrows(env, prob, j, k);
    ScaleMonotone(prob.errorLimit, StateAt(env, prob, j).adjFac, StateAt(env, prob, k).adjFac);
  }

  lemma ScaleMonotone(l: real, x: real, y: real)
    requires 0.0 <= l && 1.0 <= x <= y
    ensures l <= AdjustedLimit(l, x) <= AdjustedLimit(l, y)
  {
    assert l * y - l * x == l * (y - x);
    assert l * x - l == l * (x - 1.0);
  }

  /** The best error never increases from one round to a later one. */
  lemma {:induction false} BestNeverIncreases(env: Externals, prob: Problem, j: nat, k: nat)
    requires j <= k <= MAX_NUM_ITER <= |prob.randomPoses|
    ensures StateAt(env, prob, k).best.error <= StateAt(env, prob, j).best.error
  {
    if j < k {
      BestNeverIncreases(env, prob, j, k - 1);
    }
  }

  /** The best estimate is the start estimate or an attempt that passed the cheirality check
      with an error strictly below the start error. */
  lemma {:induction false} BestIsStartOrChecked(env: Externals, prob: Problem, j: nat)
    requires j <= MAX_NUM_ITER <= |prob.randomPoses|
    ensures var b := StateAt(env, prob, j).best;
            b == StartEstimate(env, prob)
            || (&& !FailsCheirality(env, prob.wp, b)
                && b.error < StartEstimate(env, prob).error
                && exists i {:trigger StateAt(env, prob, i)} ::
                     0 <= i < j && b == TryOptimization(env, StateAt(env, prob, i).pose, prob.graph))
  {
    if j > 0 {
      BestIsStartOrChecked(env, prob, j - 1);
    }
  }

  /** The best estimate after round i is no worse than the attempt of round i whenever
      that attempt passes the cheirality check, and it stays so in every later round. */
  lemma BestAtMostCheckedAttempt(env: Externals, prob: Problem, i: nat, j: nat)
    requires i < j <= MAX_NUM_ITER <= |prob.randomPoses|
    requires !FailsCheirality(env, prob.wp, TryOptimization(env, StateAt(env, prob, i).pose, prob.graph))
    ensures StateAt(env, prob, j).best.error <= TryOptimization(env, StateAt(env, prob, i).pose, prob.graph).error
  {
    BestNeverIncreases(env, prob, i + 1, j);
  }

  /** A graph without factors makes the driver fail before any attempt. */
  lemma EmptyGraphIsFatal(env: Externals, prob: Problem)
    requires MAX_NUM_ITER <= |prob.randomPoses|
    requires prob.graph == []
    ensures Search(env, prob) == BadStartingGuess("bad starting guess for graph error")
  {
    EmptyGraphErrorIsNotNormal(env, prob.startPose);
  }

  /** The driver fails exactly when the start pose's graph error is not normal. */
  lemma FatalExactlyOnBadStart(env: Externals, prob: Problem)
    requires MAX_NUM_ITER <= |prob.randomPoses|
    ensures Search(env, prob).BadStartingGuess?
            <==> !IsNormal(env, GraphError(env, prob.graph, prob.startPose))
    ensures !Search(env, prob).NoCorrespondences?
  {
  }

  /** The returned estimate is never worse than the start pose, and it is the start
      estimate itself or a pose that passed the cheirality check. */
  lemma SearchKeepsBestChecked(env: Externals, prob: Problem)
    requires MAX_NUM_ITER <= |prob.randomPoses|
    requires Search(env, prob).Estimated?
    ensures var b := Search(env, prob).best;
            && b.error <= GraphError(env, prob.graph, prob.startPose)
            && (b == StartEstimate(env, prob) || !FailsCheirality(env, prob.wp, b))
  {
    var n := FirstBreak(env, prob, 0);
    BestNeverIncreases(env, prob, 0, n);
    BestIsStartOrChecked(env, prob, n);
    if n < MAX_NUM_ITER {
      BestIsStartOrChecked(env, prob, n + 1);
    }
  }

  /** The returned estimate is the best of the rounds that ran: its error is at most the
      error of every attempt that passed the cheirality check, up to and including the
      round that ended the loop. */
  lemma SearchIsBestChecked(env: Externals, prob: Problem, i: nat)
    requires MAX_NUM_ITER <= |prob.randomPoses|
    requires Search(env, prob).Estimated?
    requires i <= FirstBreak(env, prob, 0) && i < MAX_NUM_ITER
    requires !FailsCheirality(env, prob.wp, TryOptimization(env, StateAt(env, prob, i).pose, prob.graph))
    ensures Search(env, prob).best.error <= TryOptimization(env, StateAt(env, prob, i).pose, prob.graph).error
  {
    var n := FirstBreak(env, prob, 0);
    if n < MAX_NUM_ITER {
      BestAtMostCheckedAttempt(env, prob, i, n + 1);
    } else {
      BestAtMostCheckedAttempt(env, prob, i, MAX_NUM_ITER);
    }
  }

  /** The limit written to the out-parameter is the base limit times FFAC^n, where n is
      the number of rounds that did not end the loop; with a non-negative base limit it
      is at least the base limit. When the loop ended early, the returned error is
      strictly below that limit. */
  lemma SearchLimit(env: Externals, prob: Problem)
    requires MAX_NUM_ITER <= |prob.randomPoses|
    requires Search(env, prob).Estimated?
    ensures var n := FirstBreak(env, prob, 0);
            && Search(env, prob).adjErrorLimit == AdjustedLimit(prob.errorLimit, Pow(FFAC, n))
            && (0.0 <= prob.errorLimit ==> prob.errorLimit <= Search(env, prob).adjErrorLimit)
            && (n < MAX_NUM_ITER ==> Search(env, prob).best.error < Search(env, prob).adjErrorLimit)
  {
    var n := FirstBreak(env, prob, 0);
    GrowthFactorAt(env, prob, n);
    if 0.0 <= prob.errorLimit {
      LimitNeverShrinks(env, prob, n, n);
    }
  }

  /** When all 2000 rounds ran, none of them met its adjusted limit, and the returned
      best estimate is the one after the last round. */
  lemma SearchExhausted(env: Externals, prob: Problem)
    requires MAX_NUM_ITER <= |prob.randomPoses|
    requires Search(env, prob).Estimated? && FirstBreak(env, prob, 0) == MAX_NUM_ITER
    ensures forall i {:trigger Breaks(env, prob, StateAt(env, prob, i))} :: 0 <= i < MAX_NUM_ITER ==>
              !Breaks(env, prob, StateAt(env, prob, i))
    ensures Search(env, prob).best == StateAt(env, prob, MAX_NUM_ITER).best
  {
  }

  /** The start estimate is measured as the TOTAL graph error while attempts report the
      error PER FACTOR. With more than one factor, an attempt whose total error is higher
      than the start's can therefore replace the start estimate in round 0. */
  lemma PromotesHigherTotalError(env: Externals, prob: Problem)
    requires MAX_NUM_ITER <= |prob.randomPoses|
    requires var lm := env.levenbergMarquardt(prob.graph, prob.startPose, LM_PARAMS);
             var e0 := GraphError(env, prob.graph, prob.startPose);
             && IsNormal(env, e0)
             && lm.LmConverged?
             && e0 < lm.error < e0 * |prob.graph| as real
             && !env.hasNegativeZ(env.inverse(lm.pose), prob.wp)
    ensures var lm := env.levenbergMarquardt(prob.graph, prob.startPose, LM_PARAMS);
            StateAt(env, prob, 1).best == Estimate(lm.pose, PerFactor(lm.error, |prob.graph|), lm.iterations)
  {
    var lm := env.levenbergMarquardt(prob.graph, prob.startPose, LM_PARAMS);
    var e0 := GraphError(env, prob.graph, prob.startPose);
    var n := |prob.graph| as real;
    assert n > 0.0;
    assert PerFactor(lm.error, |prob.graph|) < e0 by {
      assert lm.error < e0 * n;
    }
  }
}
