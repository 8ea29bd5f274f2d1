/** Graph assembly of `InitialPoseGraph::estimateBodyPose` and
    `InitialPoseGraph::estimateCameraPose` of src/initial_pose_graph.cpp. Both walk
    their observations, append one pixel per observation to the list the pixel range
    is taken from, append at most one reprojection factor per observation (radtan
    model first, then equidistant, else none), and hand the graph to the search
    driver with the error limit `initRelPixErr * pixelRange`.

    The assembly is specified by prefix-recursive functions (`BodyGraph`,
    `BodyPixels`, `CameraGraph`); the two methods build exactly those, and the
    lemmas below state what the assembled graph and pixel list contain. */
module PoseEstimation {
  import opened PoseTypes
  import opened LocalOptimizer
  import opened SearchDriver

  /** A camera as the estimator sees it: its pose estimate (None when invalid), the pose
      of the rig it is mounted on, and its optional lens models. */
  datatype Camera = Camera(pose: Option<Pose3>, rigPose: Pose3,
                           radtanModel: Option<Cal3DS3>, equidistantModel: Option<Cal3FS2>)

  /** One tag corner: its position in the body frame (or world frame) and the pixel it was seen at. */
  datatype Observation = Observation(point: Point3, pixel: Point2)

  /** The corners of a rigid body seen by one camera, in observation order. */
  datatype CameraView = CameraView(camera: nat, observations: seq<Observation>)

  /** The lens model a factor uses: radtan when present, otherwise equidistant, otherwise none. */
  function SelectModel(cam: Camera): (r: Option<Projection>)
    ensures r.None? <==> cam.radtanModel.None? && cam.equidistantModel.None?
    ensures r.Some? && r.value.Radtan? <==> cam.radtanModel.Some?
    ensures cam.radtanModel.Some? ==> r == Some(Radtan(cam.radtanModel.value))
    ensures cam.radtanModel.None? && cam.equidistantModel.Some? ==> r == Some(Equidistant(cam.equidistantModel.value))
  {
    if cam.radtanModel.Some? then Some(Radtan(cam.radtanModel.value))
    else if cam.equidistantModel.Some? then Some(Equidistant(cam.equidistantModel.value))
    else None
  }

  /** The factor one observation contributes: none when the camera has no lens model. */
  function FactorsOf(chain: Chain, cam: Camera, o: Observation): Graph
  {
    match SelectModel(cam)
    case None => []
    case Some(m) => [Factor(chain, o.point, o.pixel, m)]
  }

  /** The factors of a run of observations, in order. */
  function ObservationFactors(chain: Chain, cam: Camera, obs: seq<Observation>): Graph
  {
    if obs == [] then []
    else ObservationFactors(chain, cam, obs[..|obs| - 1]) + FactorsOf(chain, cam, obs[|obs| - 1])
  }

  /** The pixels of a run of observations, in order. */
  function PixelsOf(obs: seq<Observation>): seq<Point2>
  {
    if obs == [] then [] else PixelsOf(obs[..|obs| - 1]) + [obs[|obs| - 1].pixel]
  }

  /** Every view names a camera of the camera list. */
  predicate ViewsKnown(cams: seq<Camera>, views: seq<CameraView>)
  {
    forall k :: 0 <= k < |views| ==> views[k].camera < |cams|
  }

  /** A view contributes only when its camera's pose estimate is valid. */
  predicate Usable(cams: seq<Camera>, v: CameraView)
    requires v.camera < |cams|
  {
    cams[v.camera].pose.Some?
  }

  /** A view's observations yield factors: its camera has a valid pose and a lens model. */
  predicate YieldsFactors(cams: seq<Camera>, v: CameraView)
    requires v.camera < |cams|
  {
    Usable(cams, v) && SelectModel(cams[v.camera]).Some?
  }

  /** How the body pose reaches the frame of a view's camera. */
  function ChainOf(cams: seq<Camera>, v: CameraView): Chain
    requires v.camera < |cams| && Usable(cams, v)
  {
    ThroughRig(v.camera, cams[v.camera].pose.value, cams[v.camera].rigPose)
  }

  function ViewFactors(cams: seq<Camera>, v: CameraView): Graph
    requires v.camera < |cams|
  {
    if Usable(cams, v) then ObservationFactors(ChainOf(cams, v), cams[v.camera], v.observations) else []
  }

  function ViewPixels(cams: seq<Camera>, v: CameraView): seq<Point2>
    requires v.camera < |cams|
  {
    if Usable(cams, v) then PixelsOf(v.observations) else []
  }

  /** The factor graph of a body pose estimate, view by view. */
  function BodyGraph(cams: seq<Camera>, views: seq<CameraView>): Graph
    requires ViewsKnown(cams, views)
  {
    if views == [] then []
    else BodyGraph(cams, views[..|views| - 1]) + ViewFactors(cams, views[|views| - 1])
  }

  /** The pixel list of a body pose estimate, view by view. */
  function BodyPixels(cams: seq<Camera>, views: seq<CameraView>): seq<Point2>
    requires ViewsKnown(cams, views)
  {
    if views == [] then []
    else BodyPixels(cams, views[..|views| - 1]) + ViewPixels(cams, views[|views| - 1])
  }

  /** The error limit handed to the driver: the relative pixel error times the pixel range. */
  function PixelError(initRelPixErr: real, pixelRange: real): real
  {
    initRelPixErr * pixelRange
  }

  /** The 3D-2D correspondences of a camera pose estimate. */
  function Correspondences(wp: seq<Point3>, ip: seq<Point2>): (r: seq<Observation>)
    requires |wp| <= |ip|
    ensures |r| == |wp|
    ensures forall i :: 0 <= i < |wp| ==> r[i] == Observation(wp[i], ip[i])
  {
    seq(|wp|, i requires 0 <= i < |wp| => Observation(wp[i], ip[i]))
  }

  /** The factor graph of a camera pose estimate: world points seen directly by the camera. */
  function CameraGraph(camera: Camera, wp: seq<Point3>, ip: seq<Point2>): Graph
    requires |wp| <= |ip|
  {
    ObservationFactors(Direct, camera, Correspondences(wp, ip))
  }

  lemma PrefixOfPrefix<T>(s: seq<T>, i: nat)
    requires i < |s|
    ensures s[..i + 1][..i] == s[..i]
    ensures s[..i + 1][i] == s[i]
  {
  }

  /** One more view extends the body graph and pixel list by that view's share. */
  lemma BodyStep(cams: seq<Camera>, views: seq<CameraView>, k: nat)
    requires ViewsKnown(cams, views) && k < |views|
    ensures ViewsKnown(cams, views[..k]) && ViewsKnown(cams, views[..k + 1])
    ensures BodyGraph(cams, views[..k + 1]) == BodyGraph(cams, views[..k]) + ViewFactors(cams, views[k])
    ensures BodyPixels(cams, views[..k + 1]) == BodyPixels(cams, views[..k]) + ViewPixels(cams, views[k])
  {
    PrefixOfPrefix(views, k);
  }

  /** One more observation extends its run's factors and pixels by that observation's share. */
  lemma ObservationStep(chain: Chain, cam: Camera, obs: seq<Observation>, i: nat)
    requires i < |obs|
    ensures ObservationFactors(chain, cam, obs[..i + 1])
            == ObservationFactors(chain, cam, obs[..i]) + FactorsOf(chain, cam, obs[i])
    ensures PixelsOf(obs[..i + 1]) == PixelsOf(obs[..i]) + [obs[i].pixel]
  {
    PrefixOfPrefix(obs, i);
  }

  /** The same step, appended to what earlier views contributed. */
  lemma AppendObservationStep(graph: Graph, allIp: seq<Point2>, chain: Chain, cam: Camera,
                              obs: seq<Observation>, i: nat)
    requires i < |obs|
    ensures graph + ObservationFactors(chain, cam, obs[..i + 1])
            == graph + ObservationFactors(chain, cam, obs[..i]) + FactorsOf(chain, cam, obs[i])
    ensures allIp + PixelsOf(obs[..i + 1]) == allIp + PixelsOf(obs[..i]) + [obs[i].pixel]
  {
    ObservationStep(chain, cam, obs, i);
  }

  /** The inner loop of the body pose estimate: every observation of one camera appends
      its pixel, and its factor when the camera has a lens model. */
  method AddObservations(chain: Chain, cam: Camera, obs: seq<Observation>,
                         graph: Graph, allIp: seq<Point2>)
    returns (graph': Graph, allIp': seq<Point2>)
    ensures graph' == graph + ObservationFactors(chain, cam, obs)
    ensures allIp' == allIp + PixelsOf(obs)
  {
    graph', allIp' := graph, allIp;
    for i := 0 to |obs|
      invariant graph' == graph + ObservationFactors(chain, cam, obs[..i])
      invariant allIp' == allIp + PixelsOf(obs[..i])
    {
      AppendObservationStep(graph, allIp, chain, cam, obs, i);
      allIp' := allIp' + [obs[i].pixel];
      if cam.radtanModel.Some? {
        graph' := graph' + [Factor(chain, obs[i].point, obs[i].pixel, Radtan(cam.radtanModel.value))];
      } else if cam.equidistantModel.Some? {
        graph' := graph' + [Factor(chain, obs[i].point, obs[i].pixel, Equidistant(cam.equidistantModel.value))];
      }
    }
    assert obs[..|obs|] == obs;
  }

  /** Estimate a rigid body's pose from the cameras that observed it. */
  method EstimateBodyPose(env: Externals, cams: seq<Camera>, views: seq<CameraView>,
                          initRelPixErr: real, initialPose: Pose3, randomPoses: seq<Pose3>)
    returns (outcome: Outcome)
    requires ViewsKnown(cams, views)
    requires MAX_NUM_ITER <= |randomPoses|
    ensures outcome == Drive(env, Problem(BodyGraph(cams, views), initialPose,
                                          PixelError(initRelPixErr, env.pixelRange(BodyPixels(cams, views))),
                                          [], randomPoses))
  {
    var graph: Graph := [];
    var allIp: seq<Point2> := [];
    for k := 0 to |views|
      invariant ViewsKnown(cams, views[..k])
      invariant graph == BodyGraph(cams, views[..k])
      invariant allIp == BodyPixels(cams, views[..k])
    {
      BodyStep(cams, views, k);
      var view := views[k];
      var cam := cams[view.camera];
      if cam.pose.None? {
        continue;
      }
      var chain := ThroughRig(view.camera, cam.pose.value, cam.rigPose);
      graph, allIp := AddObservations(chain, cam, view.observations, graph, allIp);
    }
    assert views[..|views|] == views;
    var pixelError := PixelError(initRelPixErr, env.pixelRange(allIp));
    outcome := OptimizeGraph(env, initialPose, graph, pixelError, [], randomPoses);
  }

  /** Estimate a camera's pose from world points and the pixels they were seen at. */
  method EstimateCameraPose(env: Externals, camera: Camera, wp: seq<Point3>, ip: seq<Point2>,
                            initRelPixErr: real, initialPose: Pose3, randomPoses: seq<Pose3>)
    returns (outcome: Outcome)
    requires |wp| <= |ip|
    requires MAX_NUM_ITER <= |randomPoses|
    ensures wp == [] ==> outcome == NoCorrespondences
    ensures wp != [] ==> outcome == Drive(env, Problem(CameraGraph(camera, wp, ip), initialPose,
                                                       PixelError(initRelPixErr, env.pixelRange(ip)),
                                                       wp, randomPoses))
  {
    if wp == [] {
      return NoCorrespondences;
    }
    ghost var obs := Correspondences(wp, ip);
    var graph: Graph := [];
    for i := 0 to |wp|
      invariant graph == ObservationFactors(Direct, camera, obs[..i])
    {
      ObservationStep(Direct, camera, obs, i);
      if camera.radtanModel.Some? {
        graph := graph + [Factor(Direct, wp[i], ip[i], Radtan(camera.radtanModel.value))];
      } else if camera.equidistantModel.Some? {
        graph := graph + [Factor(Direct, wp[i], ip[i], Equidistant(camera.equidistantModel.value))];
      }
    }
    assert obs[..|wp|] == obs;
    var pixelError := PixelError(initRelPixErr, env.pixelRange(ip));
    outcome := OptimizeGraph(env, initialPose, graph, pixelError, wp, randomPoses);
  }

  /** The views whose camera has a valid pose estimate, in order. */
  function UsableViews(cams: seq<Camera>, views: seq<CameraView>): (r: seq<CameraView>)
    requires ViewsKnown(cams, views)
    ensures ViewsKnown(cams, r)
    ensures forall k :: 0 <= k < |r| ==> Usable(cams, r[k])
  {
    if views == [] then []
    else
      var last := views[|views| - 1];
      UsableViews(cams, views[..|views| - 1]) + (if Usable(cams, last) then [last] else [])
  }

  /** The number of observations made by cameras with a valid pose estimate. */
  function Observed(cams: seq<Camera>, views: seq<CameraView>): nat
    requires ViewsKnown(cams, views)
  {
    if views == [] then 0
    else
      var last := views[|views| - 1];
      Observed(cams, views[..|views| - 1]) + (if Usable(cams, last) then |last.observations| else 0)
  }

  /** The number of those observations made by a camera that has no lens model. */
  function Unmodelled(cams: seq<Camera>, views: seq<CameraView>): nat
    requires ViewsKnown(cams, views)
  {
    if views == [] then 0
    else
      var last := views[|views| - 1];
      Unmodelled(cams, views[..|views| - 1])
        + (if Usable(cams, last) && SelectModel(cams[last.camera]).None? then |last.observations| else 0)
  }

  /** A run of observations yields no factor without a lens model, and otherwise exactly
      one factor per observation, in order, carrying its point, its pixel and the model. */
  lemma {:induction false} ObservationFactorsShape(chain: Chain, cam: Camera, obs: seq<Observation>)
    ensures SelectModel(cam).None? ==> ObservationFactors(chain, cam, obs) == []
    ensures SelectModel(cam).Some? ==>
              var r := ObservationFactors(chain, cam, obs);
              && |r| == |obs|
              && forall i :: 0 <= i < |obs| ==>
                   r[i] == Factor(chain, obs[i].point, obs[i].pixel, SelectModel(cam).value)
  {
    if obs != [] {
      ObservationFactorsShape(chain, cam, obs[..|obs| - 1]);
    }
  }

  /** Every observation contributes its pixel, in order. */
  lemma {:induction false} PixelsOfShape(obs: seq<Observation>)
    ensures |PixelsOf(obs)| == |obs|
    ensures forall i :: 0 <= i < |obs| ==> PixelsOf(obs)[i] == obs[i].pixel
  {
    if obs != [] {
      PixelsOfShape(obs[..|obs| - 1]);
    }
  }

  /** The camera pose graph has one factor per correspondence, from world point i to pixel i,
      when the camera has a lens model, and none otherwise. */
  lemma CameraGraphShape(camera: Camera, wp: seq<Point3>, ip: seq<Point2>)
    requires |wp| <= |ip|
    ensures SelectModel(camera).None? ==> CameraGraph(camera, wp, ip) == []
    ensures SelectModel(camera).Some? ==>
              var g := CameraGraph(camera, wp, ip);
              && |g| == |wp|
              && forall i :: 0 <= i < |wp| ==> g[i] == Factor(Direct, wp[i], ip[i], SelectModel(camera).value)
  {
    ObservationFactorsShape(Direct, camera, Correspondences(wp, ip));
  }

  /** A camera with at least one correspondence but no lens model makes the camera pose
      estimate fail before any attempt (without correspondences it returns early instead). */
  lemma CameraWithoutModelIsFatal(env: Externals, camera: Camera, wp: seq<Point3>, ip: seq<Point2>,
                                  limit: real, initialPose: Pose3, randomPoses: seq<Pose3>)
    requires wp != [] && |wp| <= |ip| && MAX_NUM_ITER <= |randomPoses|
    requires camera.radtanModel.None? && camera.equidistantModel.None?
    ensures Drive(env, Problem(CameraGraph(camera, wp, ip), initialPose, limit, wp, randomPoses))
            == BadStartingGuess("bad starting guess for graph error")
  {
    CameraGraphShape(camera, wp, ip);
    var prob := Problem(CameraGraph(camera, wp, ip), initialPose, limit, wp, randomPoses);
    DriveIsSearch(env, prob);
    EmptyGraphIsFatal(env, prob);
  }

  /** Every observation of a camera with a valid pose adds exactly one pixel; every one
      of them adds one factor except those of cameras without a lens model. */
  lemma {:induction false} BodyCounts(cams: seq<Camera>, views: seq<CameraView>)
    requires ViewsKnown(cams, views)
    ensures |BodyPixels(cams, views)| == Observed(cams, views)
    ensures |BodyGraph(cams, views)| + Unmodelled(cams, views) == Observed(cams, views)
  {
    if views != [] {
      var last := views[|views| - 1];
      BodyCounts(cams, views[..|views| - 1]);
      if Usable(cams, last) {
        ObservationFactorsShape(ChainOf(cams, last), cams[last.camera], last.observations);
        PixelsOfShape(last.observations);
      }
    }
  }

  /** Views of cameras without a valid pose estimate contribute neither factors nor pixels. */
  lemma {:induction false} InvalidCamerasIgnored(cams: seq<Camera>, views: seq<CameraView>)
    requires ViewsKnown(cams, views)
    ensures BodyGraph(cams, views) == BodyGraph(cams, UsableViews(cams, views))
    ensures BodyPixels(cams, views) == BodyPixels(cams, UsableViews(cams, views))
  {
    if views != [] {
      var init, last := views[..|views| - 1], views[|views| - 1];
      InvalidCamerasIgnored(cams, init);
      var u := UsableViews(cams, init);
      if Usable(cams, last) {
        assert UsableViews(cams, views) == u + [last];
        assert (u + [last])[..|u|] == u;
      } else {
        assert UsableViews(cams, views) == u;
      }
    }
  }

  /** Every factor of the body graph comes from a camera of the list with a valid pose: it
      goes through that camera's pose and its rig's pose, uses the camera's preferred lens
      model, and its pixel is on the pixel list. */
  lemma {:induction false} BodyFactorsFromValidCameras(cams: seq<Camera>, views: seq<CameraView>)
    requires ViewsKnown(cams, views)
    ensures forall f :: f in BodyGraph(cams, views) ==>
              && f.chain.ThroughRig?
              && f.chain.camera < |cams|
              && cams[f.chain.camera].pose == Some(f.chain.cameraPose)
              && cams[f.chain.camera].rigPose == f.chain.rigPose
              && SelectModel(cams[f.chain.camera]) == Some(f.model)
              && f.pixel in BodyPixels(cams, views)
  {
    if views != [] {
      var init, last := views[..|views| - 1], views[|views| - 1];
      BodyFactorsFromValidCameras(cams, init);
      if Usable(cams, last) {
        var obs := last.observations;
        ObservationFactorsShape(ChainOf(cams, last), cams[last.camera], obs);
        PixelsOfShape(obs);
        forall f | f in ViewFactors(cams, last)
          ensures f.pixel in ViewPixels(cams, last)
        {
          var i :| 0 <= i < |obs| && ViewFactors(cams, last)[i] == f;
          assert PixelsOf(obs)[i] == f.pixel;
        }
      }
    }
  }

  /** The body graph is empty exactly when no camera with a valid pose and a lens model
      observed anything. */
  lemma {:induction false} BodyGraphEmptyIff(cams: seq<Camera>, views: seq<CameraView>)
    requires ViewsKnown(cams, views)
    ensures BodyGraph(cams, views) == []
            <==> forall k :: 0 <= k < |views| && YieldsFactors(cams, views[k]) ==> views[k].observations == []
  {
    if views != [] {
      var init, last := views[..|views| - 1], views[|views| - 1];
      BodyGraphEmptyIff(cams, init);
      assert BodyGraph(cams, views) == BodyGraph(cams, init) + ViewFactors(cams, last);
      assert ViewFactors(cams, last) == [] <==> !YieldsFactors(cams, last) || last.observations == [] by {
        if Usable(cams, last) {
          ObservationFactorsShape(ChainOf(cams, last), cams[last.camera], last.observations);
        }
      }
      assert forall k :: 0 <= k < |init| ==> init[k] == views[k];
    }
  }

  /** A body that no camera with a valid pose and a lens model observed makes the body pose
      estimate fail before any attempt. */
  lemma NoUsableCameraIsFatal(env: Externals, cams: seq<Camera>, views: seq<CameraView>,
                              limit: real, initialPose: Pose3, randomPoses: seq<Pose3>)
    requires ViewsKnown(cams, views) && MAX_NUM_ITER <= |randomPoses|
    requires forall k :: 0 <= k < |views| && YieldsFactors(cams, views[k]) ==> views[k].observations == []
    ensures Drive(env, Problem(BodyGraph(cams, views), initialPose, limit, [], randomPoses))
            == BadStartingGuess("bad starting guess for graph error")
  {
    BodyGraphEmptyIff(cams, views);
    var prob := Problem(BodyGraph(cams, views), initialPose, limit, [], randomPoses);
    DriveIsSearch(env, prob);
    EmptyGraphIsFatal(env, prob);
  }
}
