/**
 * The debug node of eagleye: twenty slots that each keep the last message of
 * one input stream, the `debug` record, and what the node has published and
 * printed so far. Each callback overwrites its own slot field by field; the
 * IMU callback stamps and fills the `debug` record, prints its report and
 * publishes it.
 */
module Node {
  import opened Messages
  import opened Aggregation

  class DebugNode {
    // The slots, one per passive input stream.
    var rtklibNav: RtklibNav
    var fix: NavSatFix
    var velocity: TwistStamped
    var velocityScaleFactor: VelocityScaleFactor
    var distance: Distance
    var heading1st: Heading
    var headingInterpolate1st: Heading
    var heading2nd: Heading
    var headingInterpolate2nd: Heading
    var heading3rd: Heading
    var headingInterpolate3rd: Heading
    var yawrateOffsetStop: YawrateOffset
    var yawrateOffset1st: YawrateOffset
    var yawrateOffset2nd: YawrateOffset
    var enuRelativePos: Position
    var enuVel: Vector3Stamped
    var enuAbsolutePos: Position
    var enuAbsolutePosInterpolate: Position
    var eagleyeFix: NavSatFix
    var eagleyeTwist: TwistStamped

    /** The record the IMU callback fills in place and publishes. */
    var debug: Debug
    /** Every record handed to the publisher, oldest first. */
    var published: seq<Debug>
    /** Every console report printed, oldest first. */
    var reports: seq<seq<Reading>>

    /** The twenty slots as one value. */
    ghost function SlotState(): Slots
      reads this`rtklibNav, this`fix, this`velocity, this`velocityScaleFactor, this`distance
      reads this`heading1st, this`headingInterpolate1st, this`heading2nd
      reads this`headingInterpolate2nd, this`heading3rd, this`headingInterpolate3rd
      reads this`yawrateOffsetStop, this`yawrateOffset1st, this`yawrateOffset2nd
      reads this`enuRelativePos, this`enuVel, this`enuAbsolutePos
      reads this`enuAbsolutePosInterpolate, this`eagleyeFix, this`eagleyeTwist
    {
      Slots(
        rtklibNav, fix, velocity, velocityScaleFactor, distance,
        heading1st, headingInterpolate1st, heading2nd, headingInterpolate2nd,
        heading3rd, headingInterpolate3rd,
        yawrateOffsetStop, yawrateOffset1st, yawrateOffset2nd,
        enuRelativePos, enuVel, enuAbsolutePos, enuAbsolutePosInterpolate,
        eagleyeFix, eagleyeTwist)
    }

    /**
     * One report was printed for each published record, from that record;
     * and the `debug` record is left as it was last published.
     */
    ghost predicate Valid()
      reads this`debug, this`published, this`reports
    {
      && ReportsMatch(published, reports)
      && (published != [] ==> debug == published[|published| - 1])
    }

    /** Start-up: every slot and the `debug` record hold default messages. */
    constructor ()
      ensures Valid()
      ensures SlotState() == InitialSlots
      ensures debug == EmptyDebug
      ensures published == [] && reports == []
    {
      rtklibNav := EmptyRtklibNav;
      fix := EmptyNavSatFix;
      velocity := EmptyTwistStamped;
      velocityScaleFactor := EmptyVelocityScaleFactor;
      distance := EmptyDistance;
      heading1st := EmptyHeading;
      headingInterpolate1st := EmptyHeading;
      heading2nd := EmptyHeading;
      headingInterpolate2nd := EmptyHeading;
      heading3rd := EmptyHeading;
      headingInterpolate3rd := EmptyHeading;
      yawrateOffsetStop := EmptyYawrateOffset;
      yawrateOffset1st := EmptyYawrateOffset;
      yawrateOffset2nd := EmptyYawrateOffset;
      enuRelativePos := EmptyPosition;
      enuVel := EmptyVector3Stamped;
      enuAbsolutePos := EmptyPosition;
      enuAbsolutePosInterpolate := EmptyPosition;
      eagleyeFix := EmptyNavSatFix;
      eagleyeTwist := EmptyTwistStamped;
      debug := EmptyDebug;
      published := [];
      reports := [];
    }

    // Each slot callback may modify its own slot field and nothing else, so
    // the other slots, `debug`, `published` and `reports` keep their values.

    method RtklibNavCallback(msg: RtklibNav)
      modifies this`rtklibNav
      ensures SlotState() == Apply(old(SlotState()), OnRtklibNav(msg))
    {
      rtklibNav := rtklibNav.(header := msg.header);
      rtklibNav := rtklibNav.(tow := msg.tow);
      rtklibNav := rtklibNav.(ecefPos := msg.ecefPos);
      rtklibNav := rtklibNav.(ecefVel := msg.ecefVel);
      rtklibNav := rtklibNav.(status := msg.status);
    }

    method FixCallback(msg: NavSatFix)
      modifies this`fix
      ensures SlotState() == Apply(old(SlotState()), OnFix(msg))
    {
      fix := fix.(header := msg.header);
      fix := fix.(status := msg.status);
      fix := fix.(latitude := msg.latitude);
      fix := fix.(longitude := msg.longitude);
      fix := fix.(altitude := msg.altitude);
      fix := fix.(positionCovariance := msg.positionCovariance);
      fix := fix.(positionCovarianceType := msg.positionCovarianceType);
    }

    method VelocityCallback(msg: TwistStamped)
      modifies this`velocity
      ensures SlotState() == Apply(old(SlotState()), OnVelocity(msg))
    {
      velocity := velocity.(header := msg.header);
      velocity := velocity.(twist := msg.twist);
    }

    method VelocityScaleFactorCallback(msg: VelocityScaleFactor)
      modifies this`velocityScaleFactor
      ensures SlotState() == Apply(old(SlotState()), OnVelocityScaleFactor(msg))
    {
      velocityScaleFactor := velocityScaleFactor.(header := msg.header);
      velocityScaleFactor := velocityScaleFactor.(scaleFactor := msg.scaleFactor);
      velocityScaleFactor := velocityScaleFactor.(correctionVelocity := msg.correctionVelocity);
      velocityScaleFactor := velocityScaleFactor.(status := msg.status);
    }

    method DistanceCallback(msg: Distance)
      modifies this`distance
      ensures SlotState() == Apply(old(SlotState()), OnDistance(msg))
    {
      distance := distance.(header := msg.header);
      distance := distance.(distance := msg.distance);
      distance := distance.(status := msg.status);
    }

    /** Copies the header only: the slot's heading angle and status stay as they were. */
    method Heading1stCallback(msg: Heading)
      modifies this`heading1st
      ensures SlotState() == Apply(old(SlotState()), OnHeading1st(msg))
      ensures heading1st.headingAngle == old(heading1st.headingAngle)
      ensures heading1st.status == old(heading1st.status)
    {
      heading1st := heading1st.(header := msg.header);
    }

    method HeadingInterpolate1stCallback(msg: Heading)
      modifies this`headingInterpolate1st
      ensures SlotState() == Apply(old(SlotState()), OnHeadingInterpolate1st(msg))
    {
      headingInterpolate1st := headingInterpolate1st.(header := msg.header);
      headingInterpolate1st := headingInterpolate1st.(headingAngle := msg.headingAngle);
      headingInterpolate1st := headingInterpolate1st.(status := msg.status);
    }

    method Heading2ndCallback(msg: Heading)
      modifies this`heading2nd
      ensures SlotState() == Apply(old(SlotState()), OnHeading2nd(msg))
    {
      heading2nd := heading2nd.(header := msg.header);
      heading2nd := heading2nd.(headingAngle := msg.headingAngle);
      heading2nd := heading2nd.(status := msg.status);
    }

    method HeadingInterpolate2ndCallback(msg: Heading)
      modifies this`headingInterpolate2nd
      ensures SlotState() == Apply(old(SlotState()), OnHeadingInterpolate2nd(msg))
    {
      headingInterpolate2nd := headingInterpolate2nd.(header := msg.header);
      headingInterpolate2nd := headingInterpolate2nd.(headingAngle := msg.headingAngle);
      headingInterpolate2nd := headingInterpolate2nd.(status := msg.status);
    }

    method Heading3rdCallback(msg: Heading)
      modifies this`heading3rd
      ensures SlotState() == Apply(old(SlotState()), OnHeading3rd(msg))
    {
      heading3rd := heading3rd.(header := msg.header);
      heading3rd := heading3rd.(headingAngle := msg.headingAngle);
      heading3rd := heading3rd.(status := msg.status);
    }

    method HeadingInterpolate3rdCallback(msg: Heading)
      modifies this`headingInterpolate3rd
      ensures SlotState() == Apply(old(SlotState()), OnHeadingInterpolate3rd(msg))
    {
      headingInterpolate3rd := headingInterpolate3rd.(header := msg.header);
      headingInterpolate3rd := headingInterpolate3rd.(headingAngle := msg.headingAngle);
      headingInterpolate3rd := headingInterpolate3rd.(status := msg.status);
    }

    method YawrateOffsetStopCallback(msg: YawrateOffset)
      modifies this`yawrateOffsetStop
      ensures SlotState() == Apply(old(SlotState()), OnYawrateOffsetStop(msg))
    {
      yawrateOffsetStop := yawrateOffsetStop.(header := msg.header);
      yawrateOffsetStop := yawrateOffsetStop.(yawrateOffset := msg.yawrateOffset);
      yawrateOffsetStop := yawrateOffsetStop.(status := msg.status);
    }

    method YawrateOffset1stCallback(msg: YawrateOffset)
      modifies this`yawrateOffset1st
      ensures SlotState() == Apply(old(SlotState()), OnYawrateOffset1st(msg))
    {
      yawrateOffset1st := yawrateOffset1st.(header := msg.header);
      yawrateOffset1st := yawrateOffset1st.(yawrateOffset := msg.yawrateOffset);
      yawrateOffset1st := yawrateOffset1st.(status := msg.status);
    }

    method YawrateOffset2ndCallback(msg: YawrateOffset)
      modifies this`yawrateOffset2nd
      ensures SlotState() == Apply(old(SlotState()), OnYawrateOffset2nd(msg))
    {
      yawrateOffset2nd := yawrateOffset2nd.(header := msg.header);
      yawrateOffset2nd := yawrateOffset2nd.(yawrateOffset := msg.yawrateOffset);
      yawrateOffset2nd := yawrateOffset2nd.(status := msg.status);
    }

    method EnuRelativePosCallback(msg: Position)
      modifies this`enuRelativePos
      ensures SlotState() == Apply(old(SlotState()), OnEnuRelativePos(msg))
    {
      enuRelativePos := enuRelativePos.(header := msg.header);
      enuRelativePos := enuRelativePos.(enuPos := msg.enuPos);
      enuRelativePos := enuRelativePos.(ecefBasePos := msg.ecefBasePos);
      enuRelativePos := enuRelativePos.(status := msg.status);
    }

    method EnuVelCallback(msg: Vector3Stamped)
      modifies this`enuVel
      ensures SlotState() == Apply(old(SlotState()), OnEnuVel(msg))
    {
      enuVel := enuVel.(header := msg.header);
      enuVel := enuVel.(vector := msg.vector);
    }

    method EnuAbsolutePosCallback(msg: Position)
      modifies this`enuAbsolutePos
      ensures SlotState() == Apply(old(SlotState()), OnEnuAbsolutePos(msg))
    {
      enuAbsolutePos := enuAbsolutePos.(header := msg.header);
      enuAbsolutePos := enuAbsolutePos.(enuPos := msg.enuPos);
      enuAbsolutePos := enuAbsolutePos.(ecefBasePos := msg.ecefBasePos);
      enuAbsolutePos := enuAbsolutePos.(status := msg.status);
    }

    method EnuAbsolutePosInterpolateCallback(msg: Position)
      modifies this`enuAbsolutePosInterpolate
      ensures SlotState() == Apply(old(SlotState()), OnEnuAbsolutePosInterpolate(msg))
    {
      enuAbsolutePosInterpolate := enuAbsolutePosInterpolate.(header := msg.header);
      enuAbsolutePosInterpolate := enuAbsolutePosInterpolate.(enuPos := msg.enuPos);
      enuAbsolutePosInterpolate := enuAbsolutePosInterpolate.(ecefBasePos := msg.ecefBasePos);
      enuAbsolutePosInterpolate := enuAbsolutePosInterpolate.(status := msg.status);
    }

    method EagleyeFixCallback(msg: NavSatFix)
      modifies this`eagleyeFix
      ensures SlotState() == Apply(old(SlotState()), OnEagleyeFix(msg))
    {
      eagleyeFix := eagleyeFix.(header := msg.header);
      eagleyeFix := eagleyeFix.(status := msg.status);
      eagleyeFix := eagleyeFix.(latitude := msg.latitude);
      eagleyeFix := eagleyeFix.(longitude := msg.longitude);
      eagleyeFix := eagleyeFix.(altitude := msg.altitude);
      eagleyeFix := eagleyeFix.(positionCovariance := msg.positionCovariance);
      eagleyeFix := eagleyeFix.(positionCovarianceType := msg.positionCovarianceType);
    }

    method EagleyeTwistCallback(msg: TwistStamped)
      modifies this`eagleyeTwist
      ensures SlotState() == Apply(old(SlotState()), OnEagleyeTwist(msg))
    {
      eagleyeTwist := eagleyeTwist.(header := msg.header);
      eagleyeTwist := eagleyeTwist.(twist := msg.twist);
    }

    /**
     * The pulse: `now` is the clock reading taken on entry. The `debug` record
     * becomes the snapshot of the slots as they are, one report is printed
     * from it, and it is published once. No slot changes.
     */
    method ImuCallback(msg: Imu, now: Time)
      requires Valid()
      modifies this`debug, this`published, this`reports
      ensures Valid()
      ensures debug == Assemble(old(debug), SlotState(), msg, now)
      ensures published == old(published) + [debug]
      ensures reports == old(reports) + [Report(debug)]
    {
      StampDebug(now);
      CopyImu(msg);
      CopySlots();
      PrintAndPublish();
    }

    /** The first step of the pulse: capture time and an empty frame id. */
    method StampDebug(now: Time)
      modifies this`debug
      ensures debug == old(debug).(header := Header(old(debug).header.sequence, now, ""))
    {
      debug := debug.(header := debug.header.(stamp := now));
      debug := debug.(header := debug.header.(frameId := ""));
    }

    /** The second step of the pulse: the IMU message, field by field. */
    method CopyImu(msg: Imu)
      modifies this`debug
      ensures debug == old(debug).(imu := msg)
    {
      debug := debug.(imu := debug.imu.(header := msg.header));
      debug := debug.(imu := debug.imu.(orientation := msg.orientation));
      debug := debug.(imu := debug.imu.(orientationCovariance := msg.orientationCovariance));
      debug := debug.(imu := debug.imu.(angularVelocity := msg.angularVelocity));
      debug := debug.(imu := debug.imu.(angularVelocityCovariance := msg.angularVelocityCovariance));
      debug := debug.(imu := debug.imu.(linearAcceleration := msg.linearAcceleration));
      debug := debug.(imu := debug.imu.(linearAccelerationCovariance := msg.linearAccelerationCovariance));
    }

    /** The last step of the pulse: print the report of `debug`, then publish it. */
    method PrintAndPublish()
      requires ReportsMatch(published, reports)
      modifies this`published, this`reports
      ensures Valid()
      ensures published == old(published) + [debug]
      ensures reports == old(reports) + [Report(debug)]
    {
      PublishKeepsReportsMatched(published, reports, debug);
      reports := reports + [Report(debug)];
      published := published + [debug];
    }

    /** The third step of the pulse: every slot, as it is. */
    method CopySlots()
      modifies this`debug
      ensures debug == WithSlots(old(debug), SlotState())
    {
      debug := debug.(rtklibNav := rtklibNav);
      debug := debug.(fix := fix);
      debug := debug.(velocity := velocity);
      debug := debug.(velocityScaleFactor := velocityScaleFactor);
      debug := debug.(distance := distance);
      debug := debug.(heading1st := heading1st);
      debug := debug.(headingInterpolate1st := headingInterpolate1st);
      debug := debug.(heading2nd := heading2nd);
      debug := debug.(headingInterpolate2nd := headingInterpolate2nd);
      debug := debug.(heading3rd := heading3rd);
      debug := debug.(headingInterpolate3rd := headingInterpolate3rd);
      debug := debug.(yawrateOffsetStop := yawrateOffsetStop);
      debug := debug.(yawrateOffset1st := yawrateOffset1st);
      debug := debug.(yawrateOffset2nd := yawrateOffset2nd);
      debug := debug.(enuRelativePos := enuRelativePos);
      debug := debug.(enuVel := enuVel);
      debug := debug.(enuAbsolutePos := enuAbsolutePos);
      debug := debug.(enuAbsolutePosInterpolate := enuAbsolutePosInterpolate);
      debug := debug.(eagleyeFix := eagleyeFix);
      debug := debug.(eagleyeTwist := eagleyeTwist);
    }
  }
}
