/** The TPS-A* planner node (mrpt_tps_astar_planner_node.cpp): how it reads its
    parameters, takes its first map, and turns the output of a planning call
    into the published waypoint sequence. The planner, the pose and quaternion
    arithmetic and the map conversions are foreign and given as oracles. */
module PlannerNode {
  import opened Wrappers

  datatype Pose2D = Pose2D(x: real, y: real, phi: real)
  datatype Twist2D = Twist2D(vx: real, vy: real, omega: real)
  datatype Quat = Quat(x: real, y: real, z: real, w: real)

  /** mrpt_msgs::msg::Waypoint: target position and orientation, the distance
      within which it counts as reached, and whether it may be skipped. */
  datatype Waypoint = Waypoint(x: real, y: real, z: real, orientation: Quat,
                               allowedDistance: real, allowSkip: bool)

  /** A received nav_msgs::msg::OccupancyGrid, kept opaque. */
  datatype OccupancyGrid = OccupancyGrid(frameId: string, width: nat, height: nat, cells: seq<int>)

  /** grid_map_: the point cloud of a grid map's occupied cells. */
  datatype PointsMap = PointsFromGrid(grid: OccupancyGrid)

  /** An entry of planner_input_.obstacles. */
  datatype ObstacleSource = StaticPointcloud(points: PointsMap)

  /** costMapParams_: the defaults, or the ones loaded from a YAML file. */
  datatype CostMapParams = DefaultCostMapParams | CostMapParamsFrom(file: string)

  /** An entry of the planner's costEvaluators_. */
  datatype CostEvaluator = CostMapFrom(points: PointsMap, params: CostMapParams, start: Pose2D)

  /** What planner_->plan sees: planner_input_ and the planner's cost evaluators. */
  datatype PlanRequest = PlanRequest(start: Pose2D, startVel: Twist2D, goal: Pose2D,
                                     obstacles: seq<ObstacleSource>, costEvaluators: seq<CostEvaluator>)

  /** What the node uses of mpp::PlannerOutput: the success flag, the best node
      and the path interpolated from the tree (plan_to_trajectory), in the
      start pose's local frame. */
  datatype PlanOutput = PlanOutput(success: bool, bestNodeId: Option<nat>, trajectory: seq<Pose2D>)

  /** The foreign parts. */
  datatype Oracles = Oracles(
    plan: PlanRequest -> PlanOutput,
    compose: (Pose2D, Pose2D) -> Pose2D,   // `startPose + pose`
    yawQuaternion: real -> Quat,           // tf2::Quaternion::setRPY(0, 0, yaw)
    yawOf: Quat -> real)                   // tf2::Matrix3x3::getRPY, the yaw

  /** Allowed distance and skip flag of the interpolated waypoints and of the
      final one. */
  const PathAllowedDistance: real := 1.5
  const GoalAllowedDistance: real := 0.4

  /** The waypoint for one pose of the interpolated path. */
  function PathWaypoint(p: Pose2D): Waypoint
  {
    Waypoint(p.x, p.y, 0.0, Quat(0.0, 0.0, 0.0, 0.0), PathAllowedDistance, true)
  }

  /** The waypoint sequence of a successful plan (lines 619-657): one waypoint
      per interpolated pose, in path order, then the navigation goal. */
  method BuildWaypoints(path: seq<Pose2D>, navGoal: Pose2D, goalOrientation: Quat) returns (wps: seq<Waypoint>)
    ensures |wps| == |path| + 1
    ensures forall k :: 0 <= k < |path| ==>
      wps[k] == Waypoint(path[k].x, path[k].y, 0.0, Quat(0.0, 0.0, 0.0, 0.0), 1.5, true)
    ensures wps[|path|] == Waypoint(navGoal.x, navGoal.y, 0.0, goalOrientation, 0.4, false)
  {
    wps := [];
    for k := 0 to |path|
      invariant |wps| == k
      invariant forall j :: 0 <= j < k ==> wps[j] == PathWaypoint(path[j])
    {
      wps := wps + [PathWaypoint(path[k])];
    }
    wps := wps + [Waypoint(navGoal.x, navGoal.y, 0.0, goalOrientation, GoalAllowedDistance, false)];
  }

  /** The interpolated path, local to the plan's start pose, brought into the
      global frame: each pose is composed with the start pose, in place. */
  method ToGlobalFrame(compose: (Pose2D, Pose2D) -> Pose2D, startPose: Pose2D, path: seq<Pose2D>) returns (global: seq<Pose2D>)
    ensures |global| == |path|
    ensures forall k :: 0 <= k < |path| ==> global[k] == compose(startPose, path[k])
  {
    global := path;
    for k := 0 to |path|
      invariant |global| == |path|
      invariant forall j :: 0 <= j < k ==> global[j] == compose(startPose, path[j])
      invariant forall j :: k <= j < |path| ==> global[j] == path[j]
    {
      global := global[k := compose(startPose, global[k])];
    }
  }

  // ---------------------------------------------------------------------------
  // Parameters

  /** Values set on the parameter server, by type; a name that is not set
      takes the default given to declare_parameter. */
  datatype Overrides = Overrides(reals: map<string, seq<real>>, flags: map<string, bool>, texts: map<string, string>)

  function Reals(p: Overrides, name: string): seq<real>
  {
    if name in p.reals then p.reals[name] else [0.0, 0.0, 0.0]
  }

  function Flag(p: Overrides, name: string, default: bool): bool
  {
    if name in p.flags then p.flags[name] else default
  }

  function Text(p: Overrides, name: string, default: string): string
  {
    if name in p.texts then p.texts[name] else default
  }

  /** The parameters read after the three vectors. */
  datatype Settings = Settings(guiMrpt: bool, topicMapSub: string, topicObstaclesSub: string,
                               topicReplanSub: string, topicWpSeqPub: string, ptgIniFile: string,
                               costmapParamsFile: string, wpParamsFile: string, plannerParamsFile: string)

  /** What read_parameters assigns: each part is None when an earlier vector
      of the wrong length made it return before that part. */
  datatype ParamsRead = ParamsRead(navGoal: Option<Pose2D>, startPose: Option<Pose2D>, startVel: Option<Twist2D>,
                                   settings: Option<Settings>, error: Option<string>)

  function ReadSettings(p: Overrides): Settings
  {
    Settings(Flag(p, "mrpt_gui", false),
             Text(p, "topic_map_sub", "map"), Text(p, "topic_obstacles_sub", "/map_pointcloud"),
             Text(p, "topic_replan_sub", "/replan"), Text(p, "topic_wp_seq_pub", "/waypoints"),
             Text(p, "ptg_ini", ""), Text(p, "global_costmap_parameters", ""),
             Text(p, "prefer_waypoints_parameters", ""), Text(p, "planner_parameters", ""))
  }

  /** read_parameters (lines 272-383) as a function of the parameter server:
      the three vectors are read in order, and the first whose length is not
      three is reported and ends the reading, so nothing after it is read. */
  function ReadParams(p: Overrides): (r: ParamsRead)
    ensures r.settings.Some? ==> r.startVel.Some?
    ensures r.startVel.Some? ==> r.startPose.Some?
    ensures r.startPose.Some? ==> r.navGoal.Some?
    ensures r.error.None? <==> r.settings.Some?
    ensures r.navGoal.Some? <==> |Reals(p, "nav_goal")| == 3
    ensures r.settings.Some? <==>
      |Reals(p, "nav_goal")| == 3 && |Reals(p, "start_pose")| == 3 && |Reals(p, "start_vel")| == 3
    ensures r.settings.Some? ==> r.settings.value == ReadSettings(p)
    ensures r.startPose.Some? <==> |Reals(p, "nav_goal")| == 3 && |Reals(p, "start_pose")| == 3
    ensures r.startVel.Some? <==> r.settings.Some?
    ensures r.error == Some("Invalid nav_goal parameter") <==> |Reals(p, "nav_goal")| != 3
    ensures r.error == Some("Invalid start pose parameter") <==>
      |Reals(p, "nav_goal")| == 3 && |Reals(p, "start_pose")| != 3
    ensures r.error == Some("Invalid start velocity parameter") <==>
      |Reals(p, "nav_goal")| == 3 && |Reals(p, "start_pose")| == 3 && |Reals(p, "start_vel")| != 3
    ensures r.navGoal.Some? ==>
      var g := Reals(p, "nav_goal"); |g| == 3 && r.navGoal.value == Pose2D(g[0], g[1], g[2])
    ensures r.startPose.Some? ==>
      var s := Reals(p, "start_pose"); |s| == 3 && r.startPose.value == Pose2D(s[0], s[1], s[2])
    ensures r.startVel.Some? ==>
      var v := Reals(p, "start_vel"); |v| == 3 && r.startVel.value == Twist2D(v[0], v[1], v[2])
  {
    var g := Reals(p, "nav_goal");
    if |g| != 3 then ParamsRead(None, None, None, None, Some("Invalid nav_goal parameter"))
    else
      var s := Reals(p, "start_pose");
      if |s| != 3 then ParamsRead(Some(Pose2D(g[0], g[1], g[2])), None, None, None, Some("Invalid start pose parameter"))
      else
        var v := Reals(p, "start_vel");
        if |v| != 3 then
          ParamsRead(Some(Pose2D(g[0], g[1], g[2])), Some(Pose2D(s[0], s[1], s[2])), None, None,
                     Some("Invalid start velocity parameter"))
        else
          ParamsRead(Some(Pose2D(g[0], g[1], g[2])), Some(Pose2D(s[0], s[1], s[2])),
                     Some(Twist2D(v[0], v[1], v[2])), Some(ReadSettings(p)), None)
  }

  /** A parameter part replaces the old value only when it was read. */
  function OrElse<T>(o: Option<T>, old_: T): T
  {
    if o.Some? then o.value else old_
  }

  /** The parameter members: nav_goal_, start_pose_, start_vel_ and the rest. */
  datatype ParamState = ParamState(navGoal: Pose2D, startPose: Pose2D, startVel: Twist2D, settings: Settings)

  /** The member initialisers of the parameter members. */
  const InitialParams: ParamState :=
    ParamState(Pose2D(0.0, 0.0, 0.0), Pose2D(0.0, 0.0, 0.0), Twist2D(0.0, 0.0, 0.0),
               Settings(false, "", "", "", "", "", "", "", ""))

  /** The parameter members after read_parameters produced `r`. */
  function Applied(r: ParamsRead, s: ParamState): ParamState
  {
    ParamState(OrElse(r.navGoal, s.navGoal), OrElse(r.startPose, s.startPose),
               OrElse(r.startVel, s.startVel), OrElse(r.settings, s.settings))
  }

  class Node {
    const oracles: Oracles

    // read_parameters
    var navGoal: Pose2D
    var startPose: Pose2D
    var startVel: Twist2D
    /** gui_mrpt_, the four topic names and the four parameter file names. */
    var settings: Settings

    /** map_received_flag_: set once the first map has been taken. */
    var mapReceived: bool
    /** grid_map_, null until a map is received. */
    var gridMap: Option<PointsMap>
    /** planner_ is non-null; it is set by initialize_planner. */
    var plannerReady: bool
    /** planner_->costEvaluators_. */
    var plannerCostEvaluators: seq<CostEvaluator>
    /** costEvaluators_: the planner's evaluators as of the last successful plan. */
    var costEvaluators: seq<CostEvaluator>
    var costMapParams: CostMapParams
    /** planner_input_. */
    var inputStart: Pose2D
    var inputVel: Twist2D
    var inputGoal: Pose2D
    var obstacles: seq<ObstacleSource>
    /** wps_msg_. */
    var wpsMsg: seq<Waypoint>
    /** Every waypoint sequence published on pub_wp_seq_, in order. */
    var published: seq<seq<Waypoint>>
    var pathPlanDone: bool

    function Params(): ParamState
      reads this`navGoal, this`startPose, this`startVel, this`settings
    {
      ParamState(navGoal, startPose, startVel, settings)
    }

    /** The node right after construction: member initialisers, then
        read_parameters. Subscriptions and publishers are not modelled. */
    constructor (oracles: Oracles, p: Overrides)
      ensures this.oracles == oracles
      ensures Params() == Applied(ReadParams(p), InitialParams)
      ensures !mapReceived && gridMap.None? && !plannerReady && !pathPlanDone
      ensures plannerCostEvaluators == [] && costEvaluators == [] && obstacles == []
      ensures wpsMsg == [] && published == []
    {
      this.oracles := oracles;
      navGoal, startPose, startVel := Pose2D(0.0, 0.0, 0.0), Pose2D(0.0, 0.0, 0.0), Twist2D(0.0, 0.0, 0.0);
      settings := InitialParams.settings;
      mapReceived, gridMap, plannerReady := false, None, false;
      plannerCostEvaluators, costEvaluators, costMapParams := [], [], DefaultCostMapParams;
      inputStart, inputVel, inputGoal, obstacles := Pose2D(0.0, 0.0, 0.0), Twist2D(0.0, 0.0, 0.0), Pose2D(0.0, 0.0, 0.0), [];
      wpsMsg, published, pathPlanDone := [], [], false;
      new;
      var error := ReadParameters(p);
    }

    /** read_parameters: each vector must have three elements, and the first
        that does not is reported and ends the reading. */
    method ReadParameters(p: Overrides) returns (error: Option<string>)
      modifies this`navGoal, this`startPose, this`startVel, this`settings
      ensures error == ReadParams(p).error
      ensures Params() == Applied(ReadParams(p), old(Params()))
    {
      var g := Reals(p, "nav_goal");
      if |g| != 3 {
        return Some("Invalid nav_goal parameter");
      }
      navGoal := Pose2D(g[0], g[1], g[2]);
      var s := Reals(p, "start_pose");
      if |s| != 3 {
        return Some("Invalid start pose parameter");
      }
      startPose := Pose2D(s[0], s[1], s[2]);
      var v := Reals(p, "start_vel");
      if |v| != 3 {
        return Some("Invalid start velocity parameter");
      }
      startVel := Twist2D(v[0], v[1], v[2]);
      settings := ReadSettings(p);
      error := None;
    }

    /** initialize_planner (lines 386-407): a fresh planner with no cost
        evaluators, and the cost-map parameters loaded from their file. The
        planner's own parameters and the PTGs are foreign and not modelled. */
    method InitializePlanner()
      modifies this`plannerReady, this`plannerCostEvaluators, this`costMapParams
      ensures plannerReady && plannerCostEvaluators == [] && costMapParams == CostMapParamsFrom(settings.costmapParamsFile)
    {
      plannerReady := true;
      plannerCostEvaluators := [];
      costMapParams := CostMapParamsFrom(settings.costmapParamsFile);
    }

    /** do_path_plan (lines 506-662). Each call adds the map as one more
        obstacle source and one more cost map to the planner, whatever the
        outcome. Without a best node it returns false at once, publishing
        nothing and leaving wps_msg_ alone. Otherwise it publishes exactly one
        waypoint sequence, empty when the plan failed, and returns the plan's
        success flag. The planner and grid_map_ are dereferenced, so both must
        be set. */
    method DoPathPlan(start: Pose2D, goal: Pose2D) returns (ok: bool)
      requires plannerReady && gridMap.Some?
      modifies this`inputStart, this`inputVel, this`inputGoal, this`obstacles,
               this`plannerCostEvaluators, this`costEvaluators, this`wpsMsg, this`published
      ensures inputStart == start && inputVel == startVel && inputGoal == goal
      ensures obstacles == old(obstacles) + [StaticPointcloud(gridMap.value)]
      ensures plannerCostEvaluators == old(plannerCostEvaluators) + [CostMapFrom(gridMap.value, costMapParams, start)]
      ensures var plan := oracles.plan(PlanRequest(start, startVel, goal, obstacles, plannerCostEvaluators));
        ok == (plan.bestNodeId.Some? && plan.success) &&
        costEvaluators == (if ok then plannerCostEvaluators else old(costEvaluators)) &&
        (plan.bestNodeId.None? ==> wpsMsg == old(wpsMsg) && published == old(published)) &&
        (plan.bestNodeId.Some? ==> published == old(published) + [wpsMsg]) &&
        (plan.bestNodeId.Some? && !plan.success ==> wpsMsg == []) &&
        (ok ==> wpsMsg == Waypoints(plan.trajectory, start))
    {
      var points := gridMap.value;
      inputStart := start;
      inputVel := startVel;
      inputGoal := goal;
      obstacles := obstacles + [StaticPointcloud(points)];
      var costmap := CostMapFrom(points, costMapParams, inputStart);
      plannerCostEvaluators := plannerCostEvaluators + [costmap];
      var plan := oracles.plan(PlanRequest(inputStart, inputVel, inputGoal, obstacles, plannerCostEvaluators));
      if plan.bestNodeId.None? {
        return false;
      }
      if plan.success {
        costEvaluators := plannerCostEvaluators;
      }
      var interpPath: seq<Pose2D> := [];
      if plan.success {
        interpPath := ToGlobalFrame(oracles.compose, inputStart, plan.trajectory);
      }
      wpsMsg := [];
      if plan.success {
        wpsMsg := BuildWaypoints(interpPath, navGoal, oracles.yawQuaternion(navGoal.phi));
        WaypointsAre(interpPath, plan.trajectory, start, wpsMsg);
      }
      published := published + [wpsMsg];
      ok := plan.success;
    }

    /** The waypoint sequence a successful plan with local path `trajectory`
        from `start` publishes. */
    ghost function Waypoints(trajectory: seq<Pose2D>, start: Pose2D): (wps: seq<Waypoint>)
      reads this`navGoal
      ensures |wps| == |trajectory| + 1
    {
      seq(|trajectory|, k requires 0 <= k < |trajectory| => PathWaypoint(oracles.compose(start, trajectory[k])))
        + [Waypoint(navGoal.x, navGoal.y, 0.0, oracles.yawQuaternion(navGoal.phi), GoalAllowedDistance, false)]
    }

    lemma WaypointsAre(global: seq<Pose2D>, trajectory: seq<Pose2D>, start: Pose2D, wps: seq<Waypoint>)
      requires |global| == |trajectory| && forall k :: 0 <= k < |trajectory| ==> global[k] == oracles.compose(start, trajectory[k])
      requires |wps| == |global| + 1
      requires forall k :: 0 <= k < |global| ==> wps[k] == PathWaypoint(global[k])
      requires wps[|global|] == Waypoint(navGoal.x, navGoal.y, 0.0, oracles.yawQuaternion(navGoal.phi), GoalAllowedDistance, false)
      ensures wps == Waypoints(trajectory, start)
    {
    }

    /** update_map (lines 492-503): the map's points become grid_map_, then a
        plan is made from the configured start pose to the goal. */
    method UpdateMap(msg: OccupancyGrid)
      requires plannerReady
      modifies this`gridMap, this`pathPlanDone, this`inputStart, this`inputVel, this`inputGoal, this`obstacles,
               this`plannerCostEvaluators, this`costEvaluators, this`wpsMsg, this`published
      ensures gridMap == Some(PointsFromGrid(msg))
      ensures obstacles == old(obstacles) + [StaticPointcloud(PointsFromGrid(msg))]
      ensures inputStart == startPose && inputVel == startVel && inputGoal == navGoal
      ensures plannerCostEvaluators == old(plannerCostEvaluators) + [CostMapFrom(PointsFromGrid(msg), costMapParams, startPose)]
      ensures var plan := oracles.plan(PlanRequest(startPose, startVel, navGoal, obstacles, plannerCostEvaluators));
        pathPlanDone == (plan.bestNodeId.Some? && plan.success) &&
        costEvaluators == (if pathPlanDone then plannerCostEvaluators else old(costEvaluators)) &&
        (plan.bestNodeId.None? ==> wpsMsg == old(wpsMsg) && published == old(published)) &&
        (plan.bestNodeId.Some? ==> published == old(published) + [wpsMsg]) &&
        (plan.bestNodeId.Some? && !plan.success ==> wpsMsg == []) &&
        (pathPlanDone ==> wpsMsg == Waypoints(plan.trajectory, startPose))
    {
      gridMap := Some(PointsFromGrid(msg));
      pathPlanDone := DoPathPlan(startPose, navGoal);
    }

    /** callback_map (lines 410-416): only the first map is taken. */
    method CallbackMap(msg: OccupancyGrid)
      requires !mapReceived ==> plannerReady
      modifies this`mapReceived, this`gridMap, this`pathPlanDone, this`inputStart, this`inputVel, this`inputGoal,
               this`obstacles, this`plannerCostEvaluators, this`costEvaluators, this`wpsMsg, this`published
      ensures mapReceived
      ensures old(mapReceived) ==> unchanged(this)
      ensures !old(mapReceived) ==> gridMap == Some(PointsFromGrid(msg))
      ensures !old(mapReceived) ==> obstacles == old(obstacles) + [StaticPointcloud(PointsFromGrid(msg))]
      ensures !old(mapReceived) ==> inputStart == startPose && inputVel == startVel && inputGoal == navGoal
      ensures !old(mapReceived) ==>
        plannerCostEvaluators == old(plannerCostEvaluators) + [CostMapFrom(PointsFromGrid(msg), costMapParams, startPose)]
      ensures !old(mapReceived) ==>
        var plan := oracles.plan(PlanRequest(startPose, startVel, navGoal, obstacles, plannerCostEvaluators));
        pathPlanDone == (plan.bestNodeId.Some? && plan.success) &&
        costEvaluators == (if pathPlanDone then plannerCostEvaluators else old(costEvaluators)) &&
        (plan.bestNodeId.None? ==> wpsMsg == old(wpsMsg) && published == old(published)) &&
        (plan.bestNodeId.Some? ==> published == old(published) + [wpsMsg]) &&
        (plan.bestNodeId.Some? && !plan.success ==> wpsMsg == []) &&
        (pathPlanDone ==> wpsMsg == Waypoints(plan.trajectory, startPose))
    {
      if !mapReceived {
        mapReceived := true;
        UpdateMap(msg);
      }
    }

    /** callback_replan (lines 420-436): plan again from the reported pose
        (position and yaw of its orientation) to the configured goal. */
    method CallbackReplan(position: Pose2D, orientation: Quat)
      requires plannerReady && gridMap.Some?
      modifies this`pathPlanDone, this`inputStart, this`inputVel, this`inputGoal, this`obstacles,
               this`plannerCostEvaluators, this`costEvaluators, this`wpsMsg, this`published
      ensures inputStart == Pose2D(position.x, position.y, oracles.yawOf(orientation))
      ensures inputVel == startVel && inputGoal == navGoal
      ensures obstacles == old(obstacles) + [StaticPointcloud(gridMap.value)]
      ensures plannerCostEvaluators == old(plannerCostEvaluators) + [CostMapFrom(gridMap.value, costMapParams, inputStart)]
      ensures var plan := oracles.plan(PlanRequest(inputStart, startVel, navGoal, obstacles, plannerCostEvaluators));
        pathPlanDone == (plan.bestNodeId.Some? && plan.success) &&
        costEvaluators == (if pathPlanDone then plannerCostEvaluators else old(costEvaluators)) &&
        (plan.bestNodeId.None? ==> wpsMsg == old(wpsMsg) && published == old(published)) &&
        (plan.bestNodeId.Some? ==> published == old(published) + [wpsMsg]) &&
        (plan.bestNodeId.Some? && !plan.success ==> wpsMsg == []) &&
        (pathPlanDone ==> wpsMsg == Waypoints(plan.trajectory, inputStart))
    {
      var currentPose := Pose2D(position.x, position.y, oracles.yawOf(orientation));
      pathPlanDone := DoPathPlan(currentPose, navGoal);
    }
  }
}
