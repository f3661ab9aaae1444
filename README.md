# rosbag2rawlog and the TPS-A* planner node, in Dafny

This project models two parts of mrpt_navigation and proves properties of the model.

**rosbag2rawlog** transcribes a ROS 2 bag into an MRPT rawlog. The model covers these parts:

- `Transcriber` maps each topic to an ordered list of handlers. It warns once about each topic it has no handler for.
- `toTf` feeds every transform of a `/tf` or `/tf_static` message to a shared tf2 buffer.
- `RosSynchronizer<Args...>` is an N-ary rendezvous. It waits for one message per slot and for the transform of the first one, then fuses them.
- The per-modality converters: point cloud, 2D scan, rotating scan, IMU, odometry, range image and image.
- The read/write loop of `main`, with its message counter and progress counter.

The synchronizer, the converters and the per-sensor branches of the constructor sit inside `#if 0` in the source. They are not compiled into the tool, and they are modelled as written:

- `Transcribers.Transcriber.WithSensors` is the constructor with those branches compiled in.
- `Transcribers.Transcriber.constructor` is the constructor as compiled. It registers only `/tf` and `/tf_static`.

**The planner node** (`mrpt_tps_astar_planner_node.cpp`) has these modelled parts:

- `read_parameters` reads its parameters with early returns.
- `callback_map` takes only the first map.
- `callback_replan` plans again from a reported pose.
- `do_path_plan` accumulates obstacle sources and cost maps, exits early without a best node, and assembles the published waypoint sequence.

Foreign code is given as oracles. This covers tf2's `BufferCore` (whether an insertion is kept, and what a lookup answers), message decoding, pose arithmetic, the mpp planner, trajectory interpolation and quaternion conversion.

Parts that change state in place are classes whose methods are proved against functions:

- `TfBuffers.TfBuffer`;
- `Synchronizers.Synchronizer`, which follows `Rendezvous`;
- `Transcribers.Transcriber`, which follows `DispatchTable`;
- the loop of `main` (`Driver.TranscribeAll`), which follows `Driver.Transcribe`;
- `PlannerNode.Node`.

The converters are functions, as the source's gating is a function of the message.

Where the documented behaviour and the code differ, the model follows the code:

- `bind<i>` drops a message for a slot that is already full; it does not overwrite it (rosbag2rawlog.cpp:188-197).
- `toPointCloud2` always takes the cloud from the XYZ conversion. The XYZI conversion's result is overwritten whether it succeeded or not (rosbag2rawlog.cpp:232-258).
- A message that does not deserialize, or a conversion that throws, is not skipped. The exception leaves `toMrpt`, is caught in `main`, and the tool exits with status 1 (rosbag2rawlog.cpp:696-701).

Other things the model makes visible about the code:

- Nothing in the planner node calls `initialize_planner`. `planner_` therefore stays null, and `do_path_plan` dereferences it. The model states this as `PlannerNode.Node.DoPathPlan`'s requirement that the planner and the grid map are set; `PlannerNode.Node.InitializePlanner` is the operation that would set the planner.
- Every call of `do_path_plan` appends one obstacle source to `planner_input_.obstacles` and one cost map to `planner_->costEvaluators_`. Neither list is cleared, so each replan plans against every map and cost map added so far.
- The interpolated waypoints carry the all-zero quaternion (0, 0, 0, 0) as their orientation.

## Model

| member | source | states |
|---|---|---|
| TfBuffers.Insert | mrpt_rawlog/src/rosbag2rawlog.cpp:433 | one setTransform either keeps the transform, appended with its authority and static flag, or leaves the buffer as it was; it changes the buffer exactly when the buffer accepts |
| TfBuffers.TfBuffer.SetTransform | mrpt_rawlog/src/rosbag2rawlog.cpp:433 | reports whether the buffer accepted the transform, and the buffer's new contents are `Insert` of the old ones |
| TfConversion.InsertAll | mrpt_rawlog/src/rosbag2rawlog.cpp:429-440 | attempting the transforms in order keeps the earlier observations as a prefix and adds at most one entry per transform |
| TfConversion.Rejected | mrpt_rawlog/src/rosbag2rawlog.cpp:435-438 | the transforms whose insertion failed come from the message, and with the inserted ones they account for every transform |
| TfConversion.InsertAllAppend | mrpt_rawlog/src/rosbag2rawlog.cpp:429-440 | attempting `a` and then `b` gives the same buffer as attempting `a + b` |
| TfConversion.FailureDoesNotStopLater | mrpt_rawlog/src/rosbag2rawlog.cpp:431-438 | a transform the buffer rejects does not stop the later ones; the result is as if it had not been in the message |
| TfConversion.NoRejectionInsertsAll | mrpt_rawlog/src/rosbag2rawlog.cpp:429-440 | when nothing is rejected, every transform is added in message order with authority "bagfile" and the handler's static flag |
| TfConversion.ToTf | mrpt_rawlog/src/rosbag2rawlog.cpp:416-441 | toTf returns no observation; it attempts every transform in order, logging each rejected one; a body that is not a TFMessage throws and leaves the buffer alone |
| Converters.ToPointCloud2 | mrpt_rawlog/src/rosbag2rawlog.cpp:217-261 | no x/y/z field gives an empty result; otherwise exactly one XYZ point-cloud observation, or a throw when the XYZ conversion fails; the warning flag is raised only by a failed XYZI attempt |
| Converters.ToLidar2D | mrpt_rawlog/src/rosbag2rawlog.cpp:263-277 | a laser scan gives exactly one 2D range scan with the sensor's name and the stamp; any other body throws |
| Converters.ToRotatingScan | mrpt_rawlog/src/rosbag2rawlog.cpp:279-307 | empty unless x, y, z and ring are all fields; then one rotating scan, or a throw when the conversion fails |
| Converters.ToImu | mrpt_rawlog/src/rosbag2rawlog.cpp:309-322 | an IMU message gives exactly one IMU observation; any other body throws |
| Converters.ToOdometry | mrpt_rawlog/src/rosbag2rawlog.cpp:324-343 | one odometry observation with the planar pose and velocities copied and `hasVelocities` always true |
| Converters.ToRangeImage | mrpt_rawlog/src/rosbag2rawlog.cpp:345-397 | an image cv_bridge does not accept throws (a pair of the wrong types cannot arrive, as the synchronizer's `bind` rejects it); otherwise only a 32FC1 image gives a range image, whose size, calibration, rotation, 1e-3 range units and depth flag come from the inputs; any other encoding gives nothing |
| Converters.RangeImageFusion | mrpt_rawlog/src/rosbag2rawlog.cpp:473-476 | the callback of the depth synchronizer applies toRangeImage to slot 0 (the image) and slot 1 (the camera info) |
| Converters.ToImage | mrpt_rawlog/src/rosbag2rawlog.cpp:399-413 | an image cv_bridge accepts gives exactly one image observation; an image it rejects, or any other body, throws |
| Converters.StoredCloudIgnoresIntensityAttempt | mrpt_rawlog/src/rosbag2rawlog.cpp:232-258 | the stored cloud does not depend on whether the XYZI conversion succeeded |
| Converters.RotatingScanNeedsMoreThanPointCloud | mrpt_rawlog/src/rosbag2rawlog.cpp:226-230 | a message the rotating-scan converter turns into a record also passes the point-cloud field check |
| Converters.CloudWarningAtMostOnce | mrpt_rawlog/src/rosbag2rawlog.cpp:240-245 | the thread-local warn-once flag prints the intensity warning at most once over any sequence of clouds |
| Converters.OdometryExample | mrpt_rawlog/src/rosbag2rawlog.cpp:324-343 | a concrete odometry message gives exactly the expected observation |
| Rendezvous.CheckAndSignal | mrpt_rawlog/src/rosbag2rawlog.cpp:175-182 | without every slot filled nothing happens and nothing is output |
| Rendezvous.Bind | mrpt_rawlog/src/rosbag2rawlog.cpp:184-198 | a message for a full slot is dropped with empty output and no state change, without being deserialized; a message for an empty slot whose body is not of the slot's type throws before anything is stored, leaving the state unchanged |
| Rendezvous.SignalOutcomes | mrpt_rawlog/src/rosbag2rawlog.cpp:129-167 | an unresolved transform changes nothing; a resolved one updates the pose and its validity, and a successful fusion empties the cache and puts a motion action (zero on the first success, else current minus last pose) before the callback's output |
| Rendezvous.OutputNeedsAllSlots | mrpt_rawlog/src/rosbag2rawlog.cpp:169-182 | checkAndSignal outputs something only when all K slots are filled |
| Rendezvous.BindNeverOverwrites | mrpt_rawlog/src/rosbag2rawlog.cpp:188-197 | a bind keeps every filled slot's message, unless a fusion fired and emptied the cache |
| Rendezvous.BindStoresIntoEmptySlot | mrpt_rawlog/src/rosbag2rawlog.cpp:188-194 | a bind into an empty slot of a message of the slot's type stores it, or completes the cache and fires |
| Rendezvous.TfSyncNeverFills | mrpt_rawlog/src/rosbag2rawlog.cpp:200-206 | the /tf retry handler never fills a slot |
| Rendezvous.FiresOncePerFill | mrpt_rawlog/src/rosbag2rawlog.cpp:153-166 | after a fusion fired the cache is empty, so a /tf retry yields nothing until all slots are filled again |
| Rendezvous.WrongTypeFailsAtBind | mrpt_rawlog/src/rosbag2rawlog.cpp:189-193 | a message of the wrong type for an empty slot throws in `instantiate<T>` at once, with nothing stored and no state change |
| Rendezvous.PartialFillIsSilent | mrpt_rawlog/src/rosbag2rawlog.cpp:184-198 | filling fewer than K slots of an empty cache with messages of the slot types outputs nothing, leaves the pose alone and holds exactly those messages |
| Rendezvous.FullFillFiresOnce | mrpt_rawlog/src/rosbag2rawlog.cpp:129-198 | filling all K slots in order with messages of the slot types, with the transform resolving, outputs exactly one motion action and the fused observations |
| Rendezvous.ImageThenCameraInfo | mrpt_rawlog/src/rosbag2rawlog.cpp:468-485 | for a two-slot pair whose messages have the slot types, the first message outputs nothing and the second outputs a zero motion action and the fusion result |
| Synchronizers.Synchronizer.constructor | mrpt_rawlog/src/rosbag2rawlog.cpp:112-119 | a new synchronizer has one empty slot per message type of Args..., no valid pose, and the given root frame, buffer and callback |
| Synchronizers.Synchronizer.Signal | mrpt_rawlog/src/rosbag2rawlog.cpp:121-167 | the object's new state and output are those of `Rendezvous.Signal` |
| Synchronizers.Synchronizer.CheckAndSignal | mrpt_rawlog/src/rosbag2rawlog.cpp:175-182 | new state and output are those of `Rendezvous.CheckAndSignal` |
| Synchronizers.Synchronizer.Bind | mrpt_rawlog/src/rosbag2rawlog.cpp:184-198 | new state and output are those of `Rendezvous.Bind` |
| Synchronizers.Synchronizer.BindTfSync | mrpt_rawlog/src/rosbag2rawlog.cpp:200-206 | new state and output are those of `Rendezvous.BindTfSync` |
| DispatchTable.ApplyConverter | mrpt_rawlog/src/rosbag2rawlog.cpp:486-543 | only the point-cloud converter can change the warning flag |
| DispatchTable.RunHandlersAppend | mrpt_rawlog/src/rosbag2rawlog.cpp:556-560 | running handlers `a + b` is running `a`, then `b` on the resulting state, with outputs concatenated in that order; after a throw in `a`, `b` does not run |
| DispatchTable.TfHandlersOutputNothing | mrpt_rawlog/src/rosbag2rawlog.cpp:452-459 | transform handlers never output an observation and touch neither synchronizers nor the warning flag |
| DispatchTable.Dispatch | mrpt_rawlog/src/rosbag2rawlog.cpp:549-572 | a registered topic runs its handlers in order; an unregistered one outputs nothing, changes no handler state, is added to the unhandled set, and is warned about exactly when it was not in the set; the set only grows |
| SensorConfig.SensorType | mrpt_rawlog/src/rosbag2rawlog.cpp:465 | an entry's type is read exactly when it has a string `type` key |
| SensorConfig.FirstUntypedSensor | mrpt_rawlog/src/rosbag2rawlog.cpp:461-466 | names the first entry without a type, where the live constructor throws; None exactly when every entry has one |
| SensorConfig.TextKey | mrpt_rawlog/src/rosbag2rawlog.cpp:481-484 | `sensor.at(key).as<std::string>()` succeeds exactly for a present string key |
| SensorConfig.RangeIsDepth | mrpt_rawlog/src/rosbag2rawlog.cpp:470-472 | `rangeIsDepth` defaults to true when absent and must be a flag when present |
| SensorConfig.SingleTopicKind | mrpt_rawlog/src/rosbag2rawlog.cpp:486-543 | the image type reads `image_topic`; the other single-topic types read `topic` |
| SensorConfig.Classify | mrpt_rawlog/src/rosbag2rawlog.cpp:461-545 | which branch an entry takes, and that it throws exactly when its type or a key its branch reads is missing or of the wrong kind; an unknown type registers nothing |
| SensorConfig.FirstUnregistrable | mrpt_rawlog/src/rosbag2rawlog.cpp:461-545 | names the first entry for which the disabled branches throw; None exactly when all are accepted |
| SensorConfig.RegistrableIsTyped | mrpt_rawlog/src/rosbag2rawlog.cpp:465 | configurations the disabled branches accept are accepted by the live code too |
| Transcribers.LiveLookup | mrpt_rawlog/src/rosbag2rawlog.cpp:452-459 | the compiled constructor registers exactly `/tf` and `/tf_static`, with one transform handler each |
| Transcribers.AddHandler | mrpt_rawlog/src/rosbag2rawlog.cpp:452-459 | `m_lookup[topic].emplace_back(h)` appends `h` to the topic's vector, starting from an empty one, and leaves other topics alone |
| Transcribers.RegisterSensors | mrpt_rawlog/src/rosbag2rawlog.cpp:461-546 | the disabled sensor loop builds `SensorLookup` of the entries; each 3D range scan gets a fresh two-slot synchronizer on the shared buffer, in its initial state |
| Transcribers.RegisterOne | mrpt_rawlog/src/rosbag2rawlog.cpp:468-543 | one entry registers what `Register` says, creating a synchronizer exactly for a 3D range scan |
| Transcribers.TransformHandlersComeFirst | mrpt_rawlog/src/rosbag2rawlog.cpp:452-485 | with the sensor branches compiled in, `/tf` and `/tf_static` still start with the transform handlers, so a synchronizer's retry sees the transform already inserted |
| Transcribers.DepthPairGivesRangeImage | mrpt_rawlog/src/rosbag2rawlog.cpp:468-485 | a range-scan sensor's synchronizer, given a 32FC1 depth image and then its camera info with the transform resolved, outputs nothing and then a zero motion action followed by exactly one range image built from the pair |
| Transcribers.DepthTopicRejectsOtherBodies | mrpt_rawlog/src/rosbag2rawlog.cpp:189-193 | a depth-topic message that is not an Image throws in the range sensor's `bind<0>`, with the slot left empty |
| Transcribers.Transcriber.constructor | mrpt_rawlog/src/rosbag2rawlog.cpp:446-547 | the compiled constructor leaves a lookup of exactly `/tf` and `/tf_static`, an empty buffer, no synchronizers and no unhandled topic |
| Transcribers.Transcriber.WithSensors | mrpt_rawlog/src/rosbag2rawlog.cpp:446-547 | the constructor with the `#if 0` branches registers every entry in order and creates one synchronizer per 3D range scan |
| Transcribers.Transcriber.RunHandler | mrpt_rawlog/src/rosbag2rawlog.cpp:558 | one callback changes the buffer, synchronizers and flag as `DispatchTable.Step` says |
| Transcribers.Transcriber.RunTf | mrpt_rawlog/src/rosbag2rawlog.cpp:452-459 | the transform callback follows `Step` on the shared buffer |
| Transcribers.Transcriber.RunSlot | mrpt_rawlog/src/rosbag2rawlog.cpp:184-198 | a slot callback changes only its own synchronizer, as `Step` says |
| Transcribers.Transcriber.RunTfSync | mrpt_rawlog/src/rosbag2rawlog.cpp:200-206 | a retry callback changes only its own synchronizer, as `Step` says |
| Transcribers.Transcriber.RunConverter | mrpt_rawlog/src/rosbag2rawlog.cpp:486-543 | a converter callback changes only the warning flag, as `Step` says |
| Transcribers.Transcriber.RunAll | mrpt_rawlog/src/rosbag2rawlog.cpp:556-560 | the loop over a topic's callbacks follows `RunHandlers`: in order, outputs concatenated, stopping at a throw |
| Transcribers.Transcriber.ToMrpt | mrpt_rawlog/src/rosbag2rawlog.cpp:549-572 | the object's new state, result and warning are those of `Dispatch`; the lookup is not changed |
| Driver.Rosbag2Rawlog | mrpt_rawlog/src/rosbag2rawlog.cpp:629-701 | exit 1 with nothing written when the output exists without `-w`, cannot be opened, or a sensor has no type; otherwise the outcome of `Transcribe`, exit 1 exactly when a handler threw; the compiled tool writes no record and warns about each unhandled topic once, never about `/tf` or `/tf_static` |
| Driver.TranscribeAll | mrpt_rawlog/src/rosbag2rawlog.cpp:644-687 | the read loop's archive, warnings and counters are those of `Transcribe` over the messages |
| Driver.Turn | mrpt_rawlog/src/rosbag2rawlog.cpp:667-686 | one turn advances the trace by what toMrpt did with the message |
| Driver.Write | mrpt_rawlog/src/rosbag2rawlog.cpp:668-671 | the records are appended to the archive in the order returned |
| Driver.Tick | mrpt_rawlog/src/rosbag2rawlog.cpp:673-686 | curEntry goes up by one and the progress counter stays curEntry mod 101, with a mark printed at every 101st message |
| Driver.FailureIsFinal | mrpt_rawlog/src/rosbag2rawlog.cpp:696-701 | once a handler has thrown, later messages change nothing |
| Driver.TranscribeAppend | mrpt_rawlog/src/rosbag2rawlog.cpp:647-687 | reading `a` and then `b` is reading `a + b` |
| Driver.TranscribeGrows | mrpt_rawlog/src/rosbag2rawlog.cpp:647-687 | the archive, the warnings and the unhandled set only grow; curEntry ends equal to the number of messages read unless a handler threw |
| Driver.TranscribeWarnsOnce | mrpt_rawlog/src/rosbag2rawlog.cpp:562-571 | warnings stay distinct, are exactly the unhandled topics, and never name a registered topic |
| Driver.UnregisteredTopicsWarned | mrpt_rawlog/src/rosbag2rawlog.cpp:562-571 | every unregistered topic that was read has been warned about |
| Driver.LiveBuildWritesNothing | mrpt_rawlog/src/rosbag2rawlog.cpp:446-572 | in the compiled build no record is written, the synchronizer and flag state never change, and a run fails only on a `/tf` or `/tf_static` message that is not a TFMessage |
| Driver.MarksAreEvery101st | mrpt_rawlog/src/rosbag2rawlog.cpp:675-686 | progress is printed at messages 101, 202, ..., and nowhere else |
| PlannerNode.BuildWaypoints | mrpt_tps_astar_planner/src/mrpt_tps_astar_planner_node.cpp:619-657 | one waypoint per interpolated pose, in path order, at z 0 with the all-zero orientation, distance 1.5 and skip allowed, then the navigation goal's x/y at z 0 with its yaw's quaternion, distance 0.4 and no skip |
| PlannerNode.ToGlobalFrame | mrpt_tps_astar_planner/src/mrpt_tps_astar_planner_node.cpp:614-616 | every interpolated pose is composed with the plan's start pose, in place and in order |
| PlannerNode.ReadParams | mrpt_tps_astar_planner/src/mrpt_tps_astar_planner_node.cpp:272-383 | the three vectors are read in order; each one read is exactly the three values set; the first whose length is not 3 is reported with its own message and nothing after it is read; with all three valid, every later parameter is read with its default |
| PlannerNode.Node.constructor | mrpt_tps_astar_planner/src/mrpt_tps_astar_planner_node.cpp:235-270 | the member initialisers (zero poses, no map, no planner, nothing published), then read_parameters' assignments |
| PlannerNode.Node.ReadParameters | mrpt_tps_astar_planner/src/mrpt_tps_astar_planner_node.cpp:272-383 | the error reported and the members assigned are those of `ReadParams`; members after an early return keep their values |
| PlannerNode.Node.InitializePlanner | mrpt_tps_astar_planner/src/mrpt_tps_astar_planner_node.cpp:386-407 | a fresh planner without cost evaluators, and the cost-map parameters of the configured file |
| PlannerNode.Node.DoPathPlan | mrpt_tps_astar_planner/src/mrpt_tps_astar_planner_node.cpp:506-662 | each call appends one obstacle source and one cost map; without a best node it returns false and publishes nothing; otherwise it publishes exactly one sequence (empty when the plan failed, else `Waypoints`) and returns the plan's success |
| PlannerNode.Node.Waypoints | mrpt_tps_astar_planner/src/mrpt_tps_astar_planner_node.cpp:602-657 | a successful plan's published sequence has one waypoint per interpolated pose plus the goal |
| PlannerNode.Node.UpdateMap | mrpt_tps_astar_planner/src/mrpt_tps_astar_planner_node.cpp:492-503 | the map's points become grid_map_ and do_path_plan runs from the configured start to the goal: one more obstacle source and cost map, and what is published, wps_msg_ and costEvaluators_ follow the plan's outcome as in do_path_plan |
| PlannerNode.Node.CallbackMap | mrpt_tps_astar_planner/src/mrpt_tps_astar_planner_node.cpp:410-416 | only the first map is taken; for it, the same outcome as update_map (obstacles, cost maps, published sequence, wps_msg_, path_plan_done_); later maps change nothing |
| PlannerNode.Node.CallbackReplan | mrpt_tps_astar_planner/src/mrpt_tps_astar_planner_node.cpp:420-436 | do_path_plan from the reported position and yaw to the configured goal: one more obstacle source and cost map, the published sequence and wps_msg_ as the plan's outcome says, and path_plan_done_ its result |

## Left out

- Reading the bag (rosbag2 `SequentialReader`), the gzip rawlog stream and its serialization, TCLAP parsing and YAML loading are I/O. The messages are an input sequence, the sensor configuration is a sequence of entries in YAML map order, and the archive is an output sequence.
- tf2 `BufferCore` is a foreign library. It is an oracle that decides whether an insertion is kept and what a lookup answers.
- Message decoding, `cv_bridge` and the `ros2bridge` conversions are foreign. A body of the wrong message type stands for a failed deserialization; conversion outcomes, including whether cv_bridge accepts an image's encoding, are flags of the message.
- Floating-point geometry is left out: pose composition and subtraction, quaternion/RPY conversion, range quantization and its `uint16_t` cast, the planner's bounding-box margins and ±π limits. Poses are opaque values, and the arithmetic is an oracle.
- The copy of the camera's D and K arrays into fixed-size buffers in `toRangeImage` is not modelled; only the fact that they are copied is.
- The mpp planner (`plan`, `backtrack_path`, `plan_to_trajectory`, cost-map construction, visualization) is an oracle that returns a success flag, an optional best node and the interpolated local path.
- ROS node plumbing is left out: subscriptions, publishers, spinning, the `obstacles_cs_` mutex, the GUI window, `callback_obstacles` (empty) and logging. A published waypoint sequence is appended to `published`.
- `std::call_once` is a one-shot boolean. Exceptions thrown inside `update_map` are not modelled.
- The `fileExists` asserts on the planner's parameter files are left out. They are no-ops in release builds; in debug builds they would abort on a missing file.
- Parameter values of the wrong type, which make `declare_parameter` throw, are left out. Each parameter is either unset (and gets its default) or set with the right type.
- The second `#if 0` block of `main` (a debugging deserialization of `/tf`), the bag's topic listing, and the message count printed in the progress line are output only.
- A missing `sensors` map, or a sensor node that is not a map, is not modelled. Both throw in the constructor.
- The thread-local `warn1st` flag of `toPointCloud2` is kept in the transcriber, which is equivalent for the single thread the tool runs.
- PlannerNode.Node.DoPathPlan: requires the planner and the grid map to be set. The source dereferences a null planner_ or grid_map_ there, so the model does not describe that case.
- PlannerNode.Node.CallbackReplan: requires the planner and a grid map, for the same null dereferences; in particular a replan that arrives before any map is not described.
- PlannerNode.Node.UpdateMap: requires the planner to be set, as it calls do_path_plan, which dereferences planner_.
- PlannerNode.Node.CallbackMap: requires the planner to be set for the first map, which goes through update_map to do_path_plan.
