/**
 * Runs of the debug node from start-up, as the single-threaded dispatcher
 * would deliver them, with what each run publishes and prints. Each proof
 * uses only the contracts of the node's callbacks.
 */
module Scenarios {
  import opened Messages
  import opened Aggregation
  import opened Node

  /**
   * A velocity message and a raw navigation message, then a pulse: the
   * published record carries both as delivered, and the report shows the
   * pulse's axes, the forward speed and the navigation values.
   */
  method VelocityAndNavThenPulse(vel: TwistStamped, nav: RtklibNav, imu: Imu, now: Time)
    returns (out: Debug, report: seq<Reading>)
    ensures out.velocity == vel && out.rtklibNav == nav && out.imu == imu
    ensures out.header.stamp == now && out.header.frameId == ""
    ensures report == [ Float(imu.linearAcceleration.x), Float(imu.linearAcceleration.y),
                        Float(imu.linearAcceleration.z), Float(imu.angularVelocity.x),
                        Float(imu.angularVelocity.y), Float(imu.angularVelocity.z),
                        Float(vel.twist.linear.x), Count(nav.tow),
                        Float(nav.status.longitude), Float(nav.status.latitude),
                        Float(nav.status.altitude) ]
  {
    var node := new DebugNode();
    node.VelocityCallback(vel);
    node.RtklibNavCallback(nav);
    node.ImuCallback(imu, now);
    out, report := node.published[0], node.reports[0];
  }

  /**
   * A pulse before any other message: the record holds the default message
   * in every slot field, and the report shows zero for the five slot values.
   */
  method PulseBeforeAnyUpdate(imu: Imu, now: Time) returns (out: Debug, report: seq<Reading>)
    ensures SlotsOf(out) == InitialSlots && out.imu == imu
    ensures out.header == Header(0, now, "")
    ensures |report| == 11
    ensures report[6..] == [Float(0), Count(0), Float(0), Float(0), Float(0)]
  {
    var node := new DebugNode();
    node.ImuCallback(imu, now);
    out, report := node.published[0], node.reports[0];
    SilentStreamsReportZero(EmptyDebug, imu, now);
  }

  /**
   * The same heading message on heading_1st and on heading_interpolate_1st:
   * the second slot takes the whole message, the first only its header.
   */
  method Heading1stAsymmetry(h: Heading, imu: Imu, now: Time) returns (out: Debug)
    ensures out.headingInterpolate1st == h
    ensures out.heading1st == Heading(h.header, 0, Status(false, false))
  {
    var node := new DebugNode();
    node.Heading1stCallback(h);
    assert node.heading1st == Heading(h.header, 0, Status(false, false));
    node.HeadingInterpolate1stCallback(h);
    assert node.headingInterpolate1st == h;
    node.ImuCallback(imu, now);
    out := node.published[0];
  }

  /**
   * Two pulses with a velocity message between them: two records are
   * published, each stamped with its own clock reading; the first keeps the
   * slot values of its own time and only the second shows the new velocity.
   */
  method TwoPulses(vel: TwistStamped, imu1: Imu, t1: Time, imu2: Imu, t2: Time)
    returns (first: Debug, second: Debug, count: nat)
    ensures count == 2
    ensures first.header.stamp == t1 && second.header.stamp == t2
    ensures first.imu == imu1 && second.imu == imu2
    ensures first.velocity == EmptyTwistStamped && second.velocity == vel
  {
    var node := new DebugNode();
    node.ImuCallback(imu1, t1);
    node.VelocityCallback(vel);
    node.ImuCallback(imu2, t2);
    count := |node.published|;
    first, second := node.published[0], node.published[1];
  }
}
