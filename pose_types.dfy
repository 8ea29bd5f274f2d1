/** Values shared by the initial pose estimator: the GTSAM geometry it treats
    as opaque, the residual factors of its estimation graph, the pose estimate
    it produces, and the foreign numerical code it calls. Foreign code
    (GTSAM, the utility helpers, std::isnormal) enters the model as the fields
    of an `Externals` value, so every statement proved here holds for every
    behaviour that code may have. */
module PoseTypes {

  /** A 6-DoF rigid transform (gtsam::Pose3); its algebra is foreign code. */
  type Pose3(==)
  /** A 3D point (gtsam::Point3). */
  type Point3(==)
  /** A pixel coordinate (gtsam::Point2). */
  type Point2(==)
  /** Fixed radial-tangential calibration parameters (Cal3DS3). */
  type Cal3DS3(==)
  /** Fixed equidistant (fisheye) calibration parameters (Cal3FS2). */
  type Cal3FS2(==)

  datatype Option<T> = None | Some(value: T)

  /** The lens model a residual factor projects through. */
  datatype Projection = Radtan(radtan: Cal3DS3) | Equidistant(equidistant: Cal3FS2)

  /** How the one unknown pose (symbol P0) reaches the observing camera's frame. */
  datatype Chain =
      /** Body pose: X_c = T_c_r * T_r_w * T_w_b * X_b, camera and rig poses fixed. The
          camera index is bookkeeping only, so that `BodyFactorsFromValidCameras` can
          say which camera a factor came from. The estimator's factor carries no such
          index, so `factorError` stands for a function that ignores it. */
    | ThroughRig(camera: nat, cameraPose: Pose3, rigPose: Pose3)
      /** Camera pose: X_c = T_c_w * X_w. */
    | Direct

  /** One reprojection residual with isotropic pixel noise of sigma 1. */
  datatype Factor = Factor(chain: Chain, point: Point3, pixel: Point2, model: Projection)

  type Graph = seq<Factor>

  /** A pose estimate: the pose, its error (the total graph error for the start estimate,
      the mean error per factor for an attempt) and the optimizer iterations. */
  datatype Estimate = Estimate(pose: Pose3, error: real, iterations: nat)

  /** What a pose estimation call hands back to its caller. */
  datatype Outcome =
      /** std::runtime_error escaping from the search driver. */
    | BadStartingGuess(message: string)
      /** The default, invalid estimate; the adjusted error limit is left unwritten. */
    | NoCorrespondences
      /** The best estimate found and the adjusted error limit written to the out-parameter. */
    | Estimated(best: Estimate, adjErrorLimit: real)

  /** Levenberg-Marquardt settings passed to the optimizer. */
  datatype LmParams = LmParams(maxIterations: nat, absoluteErrorTol: real, relativeErrorTol: real)

  /** The optimizer either throws (cheirality and other numerical failures) or returns
      the optimized pose, its total graph error and the iterations it used. */
  datatype LmResult = LmThrew | LmConverged(pose: Pose3, error: real, iterations: nat)

  /** The foreign code the estimator calls. */
  datatype Externals = Externals(
    /** One factor's error at a pose (half its squared whitened residual). */
    factorError: (Factor, Pose3) -> real,
    /** The part of std::isnormal beyond "not zero": finite and not subnormal. */
    normalMagnitude: real -> bool,
    /** gtsam::LevenbergMarquardtOptimizer run from a start pose. */
    levenbergMarquardt: (Graph, Pose3, LmParams) -> LmResult,
    /** gtsam::Pose3::inverse. */
    inverse: Pose3 -> Pose3,
    /** utils::has_negative_z: some point has negative depth under the pose. */
    hasNegativeZ: (Pose3, seq<Point3>) -> bool,
    /** utils::get_pixel_range: the spread of the pixel coordinates. */
    pixelRange: seq<Point2> -> real)

  /** gtsam::NonlinearFactorGraph::error: the sum of the factors' errors. */
  function GraphError(env: Externals, graph: Graph, pose: Pose3): real
  {
    if graph == [] then 0.0 else env.factorError(graph[0], pose) + GraphError(env, graph[1..], pose)
  }

  /** std::isnormal on a double: not zero, not subnormal, not infinite, not NaN. */
  predicate IsNormal(env: Externals, x: real)
  {
    x != 0.0 && env.normalMagnitude(x)
  }

  /** A graph without factors has error zero, which is not a normal number. */
  lemma EmptyGraphErrorIsNotNormal(env: Externals, pose: Pose3)
    ensures GraphError(env, [], pose) == 0.0
    ensures !IsNormal(env, GraphError(env, [], pose))
  {
  }
}
