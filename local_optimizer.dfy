/** One bounded attempt of the local optimizer, with its failures contained:
    `get_graph_error` and `try_optimization` of src/initial_pose_graph.cpp.
    The exceptions of the source become the `Checked` result and the sentinel
    estimate. The auxiliary values the source passes are always empty, so the
    pose P0 is the only value the graph is evaluated at. */
module LocalOptimizer {
  import opened PoseTypes

  /** Iteration cap of one Levenberg-Marquardt run. */
  const MAX_ITER: nat := 100
  /** The "very bad" error reported for a failed attempt (1e10). */
  const SENTINEL_ERROR: real := 10000000000.0
  /** Silent optimizer, at most 100 iterations, absolute tolerance 1e-7, relative tolerance 0. */
  const LM_PARAMS: LmParams := LmParams(MAX_ITER, 0.0000001, 0.0)

  /** A graph error, or the message of the exception thrown instead. */
  datatype Checked = Ok(value: real) | Failure(message: string)

  /** The graph error at the start pose; a value that is not normal is a fatal error. */
  function GetGraphError(env: Externals, pose: Pose3, graph: Graph): (r: Checked)
    ensures r.Ok? <==> IsNormal(env, GraphError(env, graph, pose))
    ensures r.Ok? ==> r.value == GraphError(env, graph, pose) && r.value != 0.0 && |graph| > 0
    ensures r.Failure? ==> r.message == "bad starting guess for graph error"
  {
    var e := GraphError(env, graph, pose);
    if !IsNormal(env, e) then Failure("bad starting guess for graph error") else Ok(e)
  }

  /** What a failed attempt reports: the start pose, error 1e10, all iterations used. */
  function Sentinel(startPose: Pose3): Estimate
  {
    Estimate(startPose, SENTINEL_ERROR, MAX_ITER)
  }

  /** One optimization attempt from `startPose`. It never fails: a start error that is
      not normal or an exception from the optimizer yields the sentinel, and a
      successful run reports the optimized pose with its error per factor. */
  function TryOptimization(env: Externals, startPose: Pose3, graph: Graph): (r: Estimate)
    ensures !IsNormal(env, GraphError(env, graph, startPose)) ==> r == Sentinel(startPose)
    ensures env.levenbergMarquardt(graph, startPose, LM_PARAMS).LmThrew? ==> r == Sentinel(startPose)
    ensures var lm := env.levenbergMarquardt(graph, startPose, LM_PARAMS);
            IsNormal(env, GraphError(env, graph, startPose)) && lm.LmConverged? ==>
              |graph| > 0 && r == Estimate(lm.pose, PerFactor(lm.error, |graph|), lm.iterations)
  {
    if !IsNormal(env, GraphError(env, graph, startPose)) then
      Sentinel(startPose)
    else
      match env.levenbergMarquardt(graph, startPose, LM_PARAMS)
      case LmThrew => Sentinel(startPose)
      case LmConverged(p, e, n) =>
        assert graph != [];
        Estimate(p, PerFactor(e, |graph|), n)
  }

  /** The mean error per factor of a graph with `factors` factors and total error `total`. */
  function PerFactor(total: real, factors: nat): real
    requires factors > 0
  {
    total / factors as real
  }

  /** An attempt whose start pose would be fatal to the driver is contained. */
  lemma FatalStartIsContained(env: Externals, startPose: Pose3, graph: Graph)
    requires GetGraphError(env, startPose, graph).Failure?
    ensures TryOptimization(env, startPose, graph) == Sentinel(startPose)
  {
  }

  /** As long as the optimizer honours its iteration cap, no attempt reports more than 100 iterations. */
  lemma AttemptIterationsBounded(env: Externals, startPose: Pose3, graph: Graph)
    requires var lm := env.levenbergMarquardt(graph, startPose, LM_PARAMS);
             lm.LmConverged? ==> lm.iterations <= LM_PARAMS.maxIterations
    ensures TryOptimization(env, startPose, graph).iterations <= MAX_ITER
  {
  }
}
