/** The per-modality converters of rosbag2rawlog.cpp. All of them sit inside
    `#if 0` in the source (lines 217-413) and are not compiled into the tool;
    they are modelled as written. Each maps one decoded message to the
    observations it yields; a body of the wrong message type stands for a
    deserialization that throws. */
module Converters {
  import opened Wrappers
  import opened BagMessages
  import opened Observations

  /** The fields every point-cloud converter needs. */
  predicate HasXYZ(fields: set<string>)
  {
    "x" in fields && "y" in fields && "z" in fields
  }

  /** toPointCloud2. `warned` is the thread-local `warn1st` flag and the second
      component of the result is its new value: a warning is printed exactly when
      it goes from false to true. The XYZI conversion is attempted when there is
      an intensity field, but the XYZ conversion always runs afterwards and
      replaces the stored cloud; its failure throws. */
  function ToPointCloud2(name: string, msg: BagMessage, warned: bool): (r: (Result<seq<Observation>>, bool))
    ensures !msg.body.PointCloud2? ==> r.0.Failure? && r.1 == warned
    ensures msg.body.PointCloud2? && !HasXYZ(msg.body.fields) ==> r == (Success([]), warned)
    ensures msg.body.PointCloud2? && HasXYZ(msg.body.fields) ==>
      (r.0.Success? <==> msg.body.toXYZOk) &&
      (r.0.Success? ==> r.0.value == [PointCloudObs(name, msg.header.stamp, SimplePointsXYZ)])
    ensures r.1 <==> warned || (msg.body.PointCloud2? && HasXYZ(msg.body.fields) &&
                               "intensity" in msg.body.fields && !msg.body.toXYZIOk)
  {
    match msg.body
    case PointCloud2(fields, toXYZIOk, toXYZOk, _) =>
      if !HasXYZ(fields) then (Success([]), warned)
      else
        var warned' := if "intensity" in fields && !toXYZIOk then true else warned;
        if !toXYZOk then (Failure("Could not convert pointcloud from ROS to CSimplePointsMap"), warned')
        else (Success([PointCloudObs(name, msg.header.stamp, SimplePointsXYZ)]), warned')
    case _ => (Failure("cannot deserialize a PointCloud2"), warned)
  }

  /** toLidar2D: a laser scan always yields one 2D range scan. */
  function ToLidar2D(name: string, msg: BagMessage): (r: Result<seq<Observation>>)
    ensures r.Success? <==> msg.body.LaserScan?
    ensures r.Success? ==> r.value == [RangeScan2DObs(name, msg.header.stamp)]
  {
    if msg.body.LaserScan? then Success([RangeScan2DObs(name, msg.header.stamp)])
    else Failure("cannot deserialize a LaserScan")
  }

  /** toRotatingScan: like the point-cloud converter it needs x, y and z, and in
      addition a `ring` field; a failed conversion throws. */
  function ToRotatingScan(name: string, msg: BagMessage): (r: Result<seq<Observation>>)
    ensures !msg.body.PointCloud2? ==> r.Failure?
    ensures msg.body.PointCloud2? && !(HasXYZ(msg.body.fields) && "ring" in msg.body.fields) ==> r == Success([])
    ensures msg.body.PointCloud2? && HasXYZ(msg.body.fields) && "ring" in msg.body.fields ==>
      (r.Success? <==> msg.body.toRotatingScanOk) &&
      (r.Success? ==> r.value == [RotatingScanObs(name, msg.header.stamp)])
  {
    match msg.body
    case PointCloud2(fields, _, _, toRotatingScanOk) =>
      if !HasXYZ(fields) || "ring" !in fields then Success([])
      else if !toRotatingScanOk then Failure("Could not convert pointcloud from ROS to CObservationRotatingScan")
      else Success([RotatingScanObs(name, msg.header.stamp)])
    case _ => Failure("cannot deserialize a PointCloud2")
  }

  /** toIMU: an IMU message always yields one IMU observation. */
  function ToImu(name: string, msg: BagMessage): (r: Result<seq<Observation>>)
    ensures r.Success? <==> msg.body.Imu?
    ensures r.Success? ==> r.value == [ImuObs(name, msg.header.stamp)]
  {
    if msg.body.Imu? then Success([ImuObs(name, msg.header.stamp)])
    else Failure("cannot deserialize an Imu")
  }

  /** toOdometry: the planar pose and the body-frame velocities are copied, and
      `hasVelocities` is set whatever the message holds. */
  function ToOdometry(name: string, msg: BagMessage): (r: Result<seq<Observation>>)
    ensures r.Success? <==> msg.body.Odometry?
    ensures r.Success? ==> |r.value| == 1 && r.value[0].OdometryObs? && r.value[0].hasVelocities
    ensures r.Success? ==>
      var o := r.value[0];
      o.sensorLabel == name && o.stamp == msg.header.stamp &&
      o.x == msg.body.pose.x && o.y == msg.body.pose.y && o.yaw == msg.body.pose.yaw &&
      o.vx == msg.body.linearX && o.vy == msg.body.linearY && o.omega == msg.body.angularZ
  {
    match msg.body
    case Odometry(pose, linearX, linearY, angularZ) =>
      Success([OdometryObs(name, msg.header.stamp, pose.x, pose.y, pose.yaw, true, linearX, linearY, angularZ)])
    case _ => Failure("cannot deserialize an Odometry")
  }

  /** The rotation toRangeImage gives the sensor, from a camera looking along Z
      (ROS) to one looking along X (MRPT): CQuaternion{0.5, 0.5, -0.5, 0.5}. */
  const CameraToMrptRotation: Quaternion := Quaternion(0.5, 0.5, -0.5, 0.5)

  /** The only encoding toRangeImage converts. */
  const RangeEncoding: string := "32FC1"

  /** toRangeImage: cv_bridge must accept the image, or the call throws; then
      only a 32FC1 image yields a range image; its size is the image's, its
      calibration is copied from the camera info, ranges are in units of 1e-3. */
  function ToRangeImage(name: string, image: BagMessage, info: BagMessage, rangeIsDepth: bool): (r: Result<seq<Observation>>)
    ensures r.Success? <==> image.body.Image? && info.body.CameraInfo? && image.body.cvOk
    ensures r.Success? ==> (r.value != [] <==> image.body.encoding == RangeEncoding)
    ensures r.Success? && r.value != [] ==>
      |r.value| == 1 && r.value[0].RangeImageObs? &&
      var o := r.value[0];
      o.sensorLabel == name && o.stamp == image.header.stamp &&
      o.rows == image.body.rows && o.cols == image.body.cols &&
      o.dist == info.body.d && o.intrinsics == info.body.k &&
      o.sensorRotation == CameraToMrptRotation && o.rangeUnits == 0.001 &&
      o.hasRangeImage && o.rangeIsDepth == rangeIsDepth
  {
    match (image.body, info.body)
    case (Image(encoding, rows, cols, cvOk), CameraInfo(d, k)) =>
      if !cvOk then Failure("cv_bridge cannot convert the image")
      else if encoding == RangeEncoding then
        Success([RangeImageObs(name, image.header.stamp, CameraToMrptRotation, rows, cols, d, k, 0.001, true, rangeIsDepth)])
      else Success([])
    case _ => Failure("cannot deserialize an Image and a CameraInfo")
  }

  /** The fusion callback the range-image sensor gives its synchronizer: slot 0
      holds the depth image and slot 1 the camera info. */
  function RangeImageFusion(name: string, rangeIsDepth: bool, slots: seq<BagMessage>): (r: Result<seq<Observation>>)
    ensures |slots| == 2 ==> r == ToRangeImage(name, slots[0], slots[1], rangeIsDepth)
  {
    if |slots| == 2 then ToRangeImage(name, slots[0], slots[1], rangeIsDepth)
    else Failure("a range image needs two messages")
  }

  /** toImage: an image cv_bridge accepts yields one image observation; any
      other throws, whether in deserialization or in cv_bridge. */
  function ToImage(name: string, msg: BagMessage): (r: Result<seq<Observation>>)
    ensures r.Success? <==> msg.body.Image? && msg.body.cvOk
    ensures r.Success? ==> r.value == [ImageObs(name, msg.header.stamp)]
  {
    if !msg.body.Image? then Failure("cannot deserialize an Image")
    else if !msg.body.cvOk then Failure("cv_bridge cannot convert the image")
    else Success([ImageObs(name, msg.header.stamp)])
  }

  // ---------------------------------------------------------------------------
  // Properties relating the converters

  /** The XYZI attempt never decides what is stored: the result is the same
      whether or not the intensity conversion succeeds. */
  lemma StoredCloudIgnoresIntensityAttempt(name: string, msg: BagMessage, warned: bool, xyziOk: bool)
    requires msg.body.PointCloud2?
    ensures ToPointCloud2(name, msg.(body := msg.body.(toXYZIOk := xyziOk)), warned).0
         == ToPointCloud2(name, msg, warned).0
  {
  }

  /** Whatever the rotating-scan converter accepts, the point-cloud converter's
      field check accepts too: the rotating scan needs strictly more fields. */
  lemma RotatingScanNeedsMoreThanPointCloud(name: string, msg: BagMessage, warned: bool)
    requires ToRotatingScan(name, msg).Success? && ToRotatingScan(name, msg).value != []
    ensures msg.body.PointCloud2? && msg.body.toXYZOk ==> ToPointCloud2(name, msg, warned).0.value != []
  {
  }

  /** The number of "Could not convert pointcloud" warnings printed while the
      point-cloud converter handles `msgs` in order, starting from flag `warned`. */
  function CloudWarnings(name: string, msgs: seq<BagMessage>, warned: bool): nat
    decreases |msgs|
  {
    if msgs == [] then 0
    else
      var w' := ToPointCloud2(name, msgs[0], warned).1;
      (if w' && !warned then 1 else 0) + CloudWarnings(name, msgs[1..], w')
  }

  /** The warning about the intensity conversion is printed at most once per
      run, however many clouds fail it. */
  lemma {:induction false} CloudWarningAtMostOnce(name: string, msgs: seq<BagMessage>, warned: bool)
    ensures CloudWarnings(name, msgs, warned) <= (if warned then 0 else 1)
    decreases |msgs|
  {
    if msgs != [] {
      var w' := ToPointCloud2(name, msgs[0], warned).1;
      CloudWarningAtMostOnce(name, msgs[1..], w');
    }
  }

  /** The odometry example: pose (1, 2, 0.5) and velocities (0.1, 0, 0.05) give
      exactly one odometry observation holding those six values and velocities. */
  lemma OdometryExample(name: string, h: Header, z: real, pitch: real, roll: real)
    ensures ToOdometry(name, BagMessage("/odom", h, Odometry(Pose3D(1.0, 2.0, z, 0.5, pitch, roll), 0.1, 0.0, 0.05)))
         == Success([OdometryObs(name, h.stamp, 1.0, 2.0, 0.5, true, 0.1, 0.0, 0.05)])
  {
  }
}
