/** The messages read from a rosbag2 file. A serialized message is modelled by
    what it decodes to: its topic name, its header and a tagged body, one variant
    per message type the transcriber knows. Deserialization itself is foreign code. */
module BagMessages {

  /** A builtin_interfaces/Time stamp, copied unchanged into every observation. */
  datatype Time = Time(sec: int, nanosec: nat)

  /** std_msgs/Header: the frame the data is expressed in and its capture time. */
  datatype Header = Header(frameId: string, stamp: Time)

  /** A quaternion with its components in the order (w, x, y, z). */
  datatype Quaternion = Quaternion(w: real, x: real, y: real, z: real)

  /** A rigid pose as CPose3D holds it. Its composition and subtraction are
      floating-point code of a foreign library and are never computed here. */
  datatype Pose3D = Pose3D(x: real, y: real, z: real, yaw: real, pitch: real, roll: real)

  /** The pose CPose3D(0, 0, 0, 0, 0, 0), also what a default-constructed CPose3D holds. */
  const ZeroPose: Pose3D := Pose3D(0.0, 0.0, 0.0, 0.0, 0.0, 0.0)

  /** geometry_msgs/TransformStamped: parent frame and stamp in the header, the
      child frame, and the transform (already converted to a pose). */
  datatype TransformStamped = TransformStamped(header: Header, childFrameId: string, transform: Pose3D)

  /** The decoded content of a message.
      For sensor_msgs/PointCloud2 the body holds the names of its fields and, as
      oracle booleans, whether the foreign conversions into CPointsMapXYZI,
      CSimplePointsMap and CObservationRotatingScan succeed. For
      sensor_msgs/Image, `cvOk` says whether cv_bridge::toCvShare recognises its
      encoding; when it does not, that call throws. */
  datatype Body =
    | TfMessage(transforms: seq<TransformStamped>)
    | PointCloud2(fields: set<string>, toXYZIOk: bool, toXYZOk: bool, toRotatingScanOk: bool)
    | LaserScan
    | Imu
    | Odometry(pose: Pose3D, linearX: real, linearY: real, angularZ: real)
    | Image(encoding: string, rows: nat, cols: nat, cvOk: bool)
    | CameraInfo(d: seq<real>, k: seq<real>)
    | OtherMessage

  /** A message type T of `rosmsg.instantiate<T>()`. */
  datatype MessageType = TfMessageType | PointCloud2Type | LaserScanType | ImuType
                       | OdometryType | ImageType | CameraInfoType

  /** Deserializing the body as a T succeeds exactly when it is one; otherwise
      `instantiate<T>` throws. */
  predicate Decodes(b: Body, t: MessageType)
  {
    match t
    case TfMessageType => b.TfMessage?
    case PointCloud2Type => b.PointCloud2?
    case LaserScanType => b.LaserScan?
    case ImuType => b.Imu?
    case OdometryType => b.Odometry?
    case ImageType => b.Image?
    case CameraInfoType => b.CameraInfo?
  }

  /** rosbag2_storage::SerializedBagMessage, decoded. */
  datatype BagMessage = BagMessage(topic: string, header: Header, body: Body)
}
