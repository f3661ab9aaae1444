/** The records written to the rawlog archive (MRPT observations and actions). */
module Observations {
  import opened BagMessages

  /** Which points-map class a CObservationPointCloud ends up holding. */
  datatype CloudFormat = SimplePointsXYZ | PointsXYZI

  /** One serializable record. Geometric payloads that the foreign conversions
      fill in (ranges, points, IMU data, pixels) are not represented.
      MotionAction is a CActionCollection holding one CActionRobotMovement3D
      computed from the given odometry increment. */
  datatype Observation =
    | MotionAction(increment: Pose3D)
    | PointCloudObs(sensorLabel: string, stamp: Time, cloud: CloudFormat)
    | RangeScan2DObs(sensorLabel: string, stamp: Time)
    | RotatingScanObs(sensorLabel: string, stamp: Time)
    | ImuObs(sensorLabel: string, stamp: Time)
    | OdometryObs(sensorLabel: string, stamp: Time, x: real, y: real, yaw: real,
                  hasVelocities: bool, vx: real, vy: real, omega: real)
    | RangeImageObs(sensorLabel: string, stamp: Time, sensorRotation: Quaternion,
                    rows: nat, cols: nat, dist: seq<real>, intrinsics: seq<real>,
                    rangeUnits: real, hasRangeImage: bool, rangeIsDepth: bool)
    | ImageObs(sensorLabel: string, stamp: Time)
}
