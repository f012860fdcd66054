/**
 * The message records that reach the eagleye debug node and the one it
 * publishes. Each record keeps only the fields the node reads or writes; the
 * node never computes with a field, so a double is held as its IEEE 754
 * binary64 bit pattern and copied as it is.
 *
 * Every message type comes with its default value: the value a freshly
 * constructed ROS message holds (all numbers zero, all strings empty).
 */
module Messages {

  newtype int8 = x: int | -0x80 <= x < 0x80
  newtype uint8 = x: int | 0 <= x < 0x100
  newtype uint16 = x: int | 0 <= x < 0x1_0000
  newtype uint32 = x: int | 0 <= x < 0x1_0000_0000

  /** A float64 field, as its bit pattern; the pattern 0 is +0.0. */
  type F64 = bv64

  /** A float64[9] covariance matrix, row-major. */
  type Covariance = s: seq<F64> | |s| == 9 witness [0, 0, 0, 0, 0, 0, 0, 0, 0]

  datatype Time = Time(sec: uint32, nsec: uint32)

  datatype Header = Header(sequence: uint32, stamp: Time, frameId: string)

  datatype Point = Point(x: F64, y: F64, z: F64)

  datatype Vector3 = Vector3(x: F64, y: F64, z: F64)

  datatype Quaternion = Quaternion(x: F64, y: F64, z: F64, w: F64)

  datatype Twist = Twist(linear: Vector3, angular: Vector3)

  /** sensor_msgs/NavSatStatus. */
  datatype NavSatStatus = NavSatStatus(status: int8, service: uint16)

  /** sensor_msgs/NavSatFix. */
  datatype NavSatFix = NavSatFix(
    header: Header,
    status: NavSatStatus,
    latitude: F64,
    longitude: F64,
    altitude: F64,
    positionCovariance: Covariance,
    positionCovarianceType: uint8)

  /** rtklib_msgs/RtklibNav: its `status` is a whole NavSatFix. */
  datatype RtklibNav = RtklibNav(
    header: Header,
    tow: uint32,
    ecefPos: Point,
    ecefVel: Vector3,
    status: NavSatFix)

  /** geometry_msgs/TwistStamped. */
  datatype TwistStamped = TwistStamped(header: Header, twist: Twist)

  /** geometry_msgs/Vector3Stamped. */
  datatype Vector3Stamped = Vector3Stamped(header: Header, vector: Vector3)

  /** eagleye_msgs/Status: whether an estimator is enabled and has an estimate. */
  datatype Status = Status(enabledStatus: bool, estimateStatus: bool)

  /** eagleye_msgs/VelocityScaleFactor. */
  datatype VelocityScaleFactor = VelocityScaleFactor(
    header: Header,
    scaleFactor: F64,
    correctionVelocity: Twist,
    status: Status)

  /** eagleye_msgs/Distance. */
  datatype Distance = Distance(header: Header, distance: F64, status: Status)

  /** eagleye_msgs/Heading. */
  datatype Heading = Heading(header: Header, headingAngle: F64, status: Status)

  /** eagleye_msgs/YawrateOffset. */
  datatype YawrateOffset = YawrateOffset(header: Header, yawrateOffset: F64, status: Status)

  /** eagleye_msgs/Position. */
  datatype Position = Position(header: Header, enuPos: Point, ecefBasePos: Point, status: Status)

  /** sensor_msgs/Imu: the pulse stream's payload. */
  datatype Imu = Imu(
    header: Header,
    orientation: Quaternion,
    orientationCovariance: Covariance,
    angularVelocity: Vector3,
    angularVelocityCovariance: Covariance,
    linearAcceleration: Vector3,
    linearAccelerationCovariance: Covariance)

  /** eagleye_msgs/Debug: the published snapshot, one field per input stream. */
  datatype Debug = Debug(
    header: Header,
    imu: Imu,
    rtklibNav: RtklibNav,
    fix: NavSatFix,
    velocity: TwistStamped,
    velocityScaleFactor: VelocityScaleFactor,
    distance: Distance,
    heading1st: Heading,
    headingInterpolate1st: Heading,
    heading2nd: Heading,
    headingInterpolate2nd: Heading,
    heading3rd: Heading,
    headingInterpolate3rd: Heading,
    yawrateOffsetStop: YawrateOffset,
    yawrateOffset1st: YawrateOffset,
    yawrateOffset2nd: YawrateOffset,
    enuRelativePos: Position,
    enuVel: Vector3Stamped,
    enuAbsolutePos: Position,
    enuAbsolutePosInterpolate: Position,
    eagleyeFix: NavSatFix,
    eagleyeTwist: TwistStamped)

  // Default values of a freshly constructed message.

  const ZeroCovariance: Covariance := [0, 0, 0, 0, 0, 0, 0, 0, 0]
  const ZeroTime := Time(0, 0)
  const EmptyHeader := Header(0, ZeroTime, "")
  const ZeroPoint := Point(0, 0, 0)
  const ZeroVector := Vector3(0, 0, 0)
  const ZeroTwist := Twist(ZeroVector, ZeroVector)
  const ClearedStatus := Status(false, false)
  const EmptyNavSatFix := NavSatFix(EmptyHeader, NavSatStatus(0, 0), 0, 0, 0, ZeroCovariance, 0)
  const EmptyRtklibNav := RtklibNav(EmptyHeader, 0, ZeroPoint, ZeroVector, EmptyNavSatFix)
  const EmptyTwistStamped := TwistStamped(EmptyHeader, ZeroTwist)
  const EmptyVector3Stamped := Vector3Stamped(EmptyHeader, ZeroVector)
  const EmptyVelocityScaleFactor := VelocityScaleFactor(EmptyHeader, 0, ZeroTwist, ClearedStatus)
  const EmptyDistance := Distance(EmptyHeader, 0, ClearedStatus)
  const EmptyHeading := Heading(EmptyHeader, 0, ClearedStatus)
  const EmptyYawrateOffset := YawrateOffset(EmptyHeader, 0, ClearedStatus)
  const EmptyPosition := Position(EmptyHeader, ZeroPoint, ZeroPoint, ClearedStatus)
  const EmptyImu := Imu(EmptyHeader, Quaternion(0, 0, 0, 0), ZeroCovariance,
                        ZeroVector, ZeroCovariance, ZeroVector, ZeroCovariance)
  const EmptyDebug := Debug(
    EmptyHeader, EmptyImu, EmptyRtklibNav, EmptyNavSatFix, EmptyTwistStamped,
    EmptyVelocityScaleFactor, EmptyDistance,
    EmptyHeading, EmptyHeading, EmptyHeading, EmptyHeading, EmptyHeading, EmptyHeading,
    EmptyYawrateOffset, EmptyYawrateOffset, EmptyYawrateOffset,
    EmptyPosition, EmptyVector3Stamped, EmptyPosition, EmptyPosition,
    EmptyNavSatFix, EmptyTwistStamped)
}
