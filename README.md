# Initial pose estimation of tagslam, modelled in Dafny

tagslam estimates the poses of cameras and rigid bodies from the AprilTag corners
they see. When a pose has no usable prior, `InitialPoseGraph` finds a first
estimate. It builds a small factor graph whose only unknown is the pose P0, with at
most one reprojection factor per corner seen by a camera with a valid pose and a lens
model. It then runs a random-restart search over
that graph: each round runs one bounded Levenberg-Marquardt attempt, and the search
keeps the best estimate that passes a cheirality check. The search stops once the
best error drops below an error limit. That limit grows by a constant
factor each round.

The model has four modules:

- `PoseTypes` (pose_types.dfy): the geometry, factors, estimates and outcomes. All
  foreign numerical code is collected in one `Externals` value of functions, so every
  proved statement holds however that code behaves. This covers GTSAM's pose algebra,
  factor errors and optimizer, `std::isnormal`, `utils::get_pixel_range` and
  `utils::has_negative_z`. The graph error is the sum of the factors' errors.
- `LocalOptimizer` (local_optimizer.dfy): `get_graph_error` and `try_optimization`.
  Both are total functions. Their exceptions become a `Checked` result and the
  sentinel estimate (start pose, error 1e10, 100 iterations).
- `SearchDriver` (search_driver.dfy): `optimizeGraph`, as a method with the source's
  loop and in-place variables. It is specified twice:
  - `Drive` is a step-by-step function that mirrors the loop (`Run`), and the method
    is proved to compute exactly `Drive`.
  - `Search` is a round-by-round reference: `StateAt(j)` is the state at the top of
    round j and `FirstBreak` is the first round that meets its limit.
  - `DriveIsSearch` proves the two agree. The lemmas about promotion, limits and the
    fatal start are proved about `Search`.
- `PoseEstimation` (graph_assembly.dfy): the factor and pixel-list assembly of
  `estimateBodyPose` and `estimateCameraPose`, as methods with the source's loops.
  They are specified by prefix-recursive functions (`BodyGraph`, `BodyPixels`,
  `CameraGraph`), and lemmas describe what those contain.

Behaviour of the code that the model follows and makes explicit:

- The driver compares errors on two scales. The start estimate carries the TOTAL
  graph error (src/initial_pose_graph.cpp:275-276). Every attempt reports the error
  PER FACTOR (src/initial_pose_graph.cpp:81). So in round 0 an attempt can replace
  the start pose even though its total error is higher; `PromotesHigherTotalError`
  states when.
- The start pose is never checked for cheirality. Only promoted attempts are. The
  returned estimate is therefore either the start estimate itself or a pose that
  passed the check (`SearchKeepsBestChecked`), and it is no worse than any attempt
  that passed the check in the rounds that ran (`SearchIsBestChecked`).
- The body pose path hands an empty point list to the cheirality check
  (src/initial_pose_graph.cpp:214-215). What `has_negative_z` answers for no points
  is foreign code, so the model leaves it open.
- An empty factor graph has error 0, which is not a normal number. So a body seen by
  no usable camera, or a camera with at least one correspondence but no lens model, makes the
  driver throw before any attempt (`NoUsableCameraIsFatal`,
  `CameraWithoutModelIsFatal`). That is also why the division by the factor count
  in `try_optimization` is never reached with zero factors.
- The random generator is default-constructed on every call of `optimizeGraph`, so
  every call draws the same candidate sequence. The model takes the candidates as a
  parameter `randomPoses` in drawing order. Of the 2000 candidates the loop can draw, the last is drawn but never tried.

## Model

| member | source | states |
|---|---|---|
| PoseTypes.EmptyGraphErrorIsNotNormal | src/initial_pose_graph.cpp:49-51 | a graph without factors has error 0, which `isnormal` rejects |
| LocalOptimizer.GetGraphError | src/initial_pose_graph.cpp:43-54 | succeeds exactly when the start error is normal, and then returns that error, which is nonzero and comes from a non-empty graph; otherwise fails with the message "bad starting guess for graph error" |
| LocalOptimizer.TryOptimization | src/initial_pose_graph.cpp:56-87 | returns the sentinel (start pose, 1e10, 100) when the start error is not normal or the optimizer throws; when the start error is normal and the optimizer converges, the graph is non-empty and the result is exactly the optimizer's pose, its total error per factor and its iterations |
| LocalOptimizer.FatalStartIsContained | src/initial_pose_graph.cpp:69-71 | a start pose that would be fatal to `get_graph_error` only makes the attempt report the sentinel |
| LocalOptimizer.AttemptIterationsBounded | src/initial_pose_graph.cpp:62-86 | if the optimizer honours its 100-iteration cap, no attempt reports more than 100 iterations |
| SearchDriver.Promote | src/initial_pose_graph.cpp:285-290 | promotion never raises the best error; it adopts an attempt exactly when its error is strictly below the best and it passes the cheirality check, so an attempt with an equal error is not adopted |
| SearchDriver.OptimizeGraph | src/initial_pose_graph.cpp:263-307 | the loop's outcome is exactly `Drive`: a fatal error on a bad start, otherwise the best estimate and the adjusted limit from the round the loop stopped at; its loop invariant keeps the state at the top of round j equal to `StateAt(j)`, the state the round-by-round lemmas speak of |
| SearchDriver.RunStopsAtFirstBreak | src/initial_pose_graph.cpp:282-296 | from any round j, the loop returns the promoted attempt of the first round at or after j whose best error is below its adjusted limit, or the best after round 2000 if there is none |
| SearchDriver.DriveIsSearch | src/initial_pose_graph.cpp:274-305 | the step-by-step outcome equals the round-by-round outcome |
| SearchDriver.FirstBreak | src/initial_pose_graph.cpp:282-293 | the loop stops at round n with n at most 2000: no earlier round met its limit, and round n does unless n = 2000 |
| SearchDriver.FirstBreakIsUnique | src/initial_pose_graph.cpp:291-293 | any round count with those two properties is the stopping round |
| SearchDriver.GrowthFactorAt | src/initial_pose_graph.cpp:281-295 | the growth factor at the top of round j is ffac^j |
| SearchDriver.GrowthFactorGrows | src/initial_pose_graph.cpp:281-295 | the growth factor is at least 1 and never shrinks from one round to a later one |
| SearchDriver.LimitNeverShrinks | src/initial_pose_graph.cpp:284-295 | with a non-negative base limit, the adjusted limit is at least the base limit and never shrinks from one round to a later one |
| SearchDriver.BestNeverIncreases | src/initial_pose_graph.cpp:285-289 | the best error never increases from one round to a later one |
| SearchDriver.BestIsStartOrChecked | src/initial_pose_graph.cpp:275-290 | the best estimate is the start estimate, or the attempt of some earlier round that passed the cheirality check with an error strictly below the start error |
| SearchDriver.BestAtMostCheckedAttempt | src/initial_pose_graph.cpp:283-290 | after round i, and in every later round, the best error is at most the error of round i's attempt whenever that attempt passes the cheirality check |
| SearchDriver.EmptyGraphIsFatal | src/initial_pose_graph.cpp:275-276 | a graph without factors makes the driver throw "bad starting guess for graph error" |
| SearchDriver.FatalExactlyOnBadStart | src/initial_pose_graph.cpp:275-276 | the driver throws exactly when the start pose's graph error is not normal, and never returns the default invalid estimate |
| SearchDriver.SearchKeepsBestChecked | src/initial_pose_graph.cpp:275-306 | the returned estimate's error is at most the start error, and the estimate is the start estimate or passed the cheirality check |
| SearchDriver.SearchIsBestChecked | src/initial_pose_graph.cpp:274-306 | the returned error is at most the error of every attempt that passed the cheirality check in the rounds that ran, including the round that ended the loop |
| SearchDriver.SearchLimit | src/initial_pose_graph.cpp:291-305 | the written limit is errorLimit * ffac^n for the stopping round n, and it is at least errorLimit when errorLimit is non-negative; when the loop stopped early, the returned error is strictly below it |
| SearchDriver.SearchExhausted | src/initial_pose_graph.cpp:282-296 | when all 2000 rounds ran, none met its limit, and the result is the best after the last round |
| SearchDriver.PromotesHigherTotalError | src/initial_pose_graph.cpp:275-289 | in round 0, an attempt whose total error lies strictly between the start error and the start error times the factor count still replaces the start estimate |
| PoseEstimation.SelectModel | src/initial_pose_graph.cpp:198-206 | no model exactly when the camera has neither model; the camera's own radtan calibration whenever it has one, whatever its equidistant model; otherwise the camera's own equidistant calibration |
| PoseEstimation.AddObservations | src/initial_pose_graph.cpp:186-207 | appends one camera's factors and pixels for its observations, in order |
| PoseEstimation.EstimateBodyPose | src/initial_pose_graph.cpp:142-224 | runs the driver on `BodyGraph` from the initial pose, with the limit initRelPixErr * pixelRange(`BodyPixels`) and an empty point list for the cheirality check |
| PoseEstimation.EstimateCameraPose | src/initial_pose_graph.cpp:228-259 | returns the default invalid estimate without a graph when there are no world points; otherwise runs the driver on `CameraGraph` with the limit initRelPixErr * pixelRange(ip) and the world points for the cheirality check |
| PoseEstimation.ObservationFactorsShape | src/initial_pose_graph.cpp:186-207 | a camera without a lens model yields no factor; otherwise there is exactly one factor per observation, in order, with that observation's point and pixel and the preferred model |
| PoseEstimation.PixelsOfShape | src/initial_pose_graph.cpp:186-188 | every observation contributes its pixel, in order |
| PoseEstimation.CameraGraphShape | src/initial_pose_graph.cpp:242-253 | the camera graph has factor i from world point i to pixel i for every i, with the preferred model, and is empty when the camera has no model |
| PoseEstimation.CameraWithoutModelIsFatal | src/initial_pose_graph.cpp:242-257 | a camera with at least one world point and neither lens model makes the camera pose estimate throw before any attempt |
| PoseEstimation.BodyCounts | src/initial_pose_graph.cpp:162-211 | the pixel list has one entry per observation of a camera with a valid pose; the graph has one factor for each of them, except those of cameras without a lens model |
| PoseEstimation.InvalidCamerasIgnored | src/initial_pose_graph.cpp:165-167 | dropping the views of cameras with invalid pose estimates changes neither the graph nor the pixel list |
| PoseEstimation.BodyFactorsFromValidCameras | src/initial_pose_graph.cpp:162-207 | every body factor goes through a listed camera with a valid pose, that camera's pose and its rig's pose, and the camera's preferred model; its pixel is on the pixel list |
| PoseEstimation.BodyGraphEmptyIff | src/initial_pose_graph.cpp:162-207 | the body graph is empty exactly when no camera with a valid pose and a lens model observed anything |
| PoseEstimation.NoUsableCameraIsFatal | src/initial_pose_graph.cpp:162-215 | such a body makes the body pose estimate throw before any attempt |

## Left out

- GTSAM numerics are foreign code: pose algebra, `Rot3::rodriguez`, `transform_to`/`transform_from`/`project`, `uncalibrate`, factor errors and the Levenberg-Marquardt optimizer. They are fields of `Externals`, constrained by nothing, and `FailsCheirality` is `has_negative_z` of the inverted pose.
- Floating point: errors, limits and the growth factor are reals. Rounding of `errorLimit * adjFac`, of `adjFac * ffac` and of the division by the factor count is not modelled. NaN comparisons are covered only as far as `isnormal` excludes NaN at the start. ffac is the exact value of the double `pow(5.0, 1.0/2000)`; that ffac^2000 is about 5 is not proved.
- `std::isnormal` is "nonzero and `normalMagnitude`", with `normalMagnitude` foreign; `get_pixel_range` is foreign.
- `make_random_pose` and the Boost normal distributions: the candidates are the parameter `randomPoses`, so their distribution is not modelled.
- `ROS_WARN_STREAM` diagnostics (src/initial_pose_graph.cpp:297-304), the `#if 0` helpers `print_pose` and `analyze_pose`, and `DEBUG_BODY_POSE` printing are logging and I/O only.
- The `startValues`/`initialValues` arguments are always empty, so the model evaluates graphs at P0 alone. The `imgs` and `frameNum` parameters of `estimateBodyPose` are unused and are dropped.
- `PoseEstimate`, `Camera`, the rig and `RigidBody::getAttachedPoints` (declared in `tagslam/initial_pose_graph.h` and the rest of the repository) are not part of this model. A camera is modelled with its pose estimate as an Option, its rig's pose and its two optional lens models. `getAttachedPoints` becomes one list of (point, pixel) observations per camera, which assumes it returns equally long point and pixel lists. `observedTags`, a map, becomes a list of views in key order, and a view's camera index must be in range (`ViewsKnown`), since the source indexes `cams` unchecked. The start estimate's iteration count, set by the two-argument `PoseEstimate` constructor, is taken as 0. The conversion of `estimateCameraPose`'s initial `PoseEstimate` to a pose is taken as its pose.
- The noise model (isotropic, sigma 1) is a fixed property of every factor and is not represented.
- OptimizeGraph: returns from inside the loop where the source breaks and writes the limit after the loop; the written value, errorLimit * adjFac, is the same.
- EstimateCameraPose: requires at least as many pixels as world points, since the source reads `ip[i]` for every world point unchecked.
