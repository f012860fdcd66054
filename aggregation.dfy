/**
 * The value-level specification of the debug node: the twenty slots as one
 * record, the effect of one slot update on it, the snapshot assembled on an
 * IMU pulse, and the console report printed with it.
 */
module Aggregation {
  import opened Messages

  /** The last value kept for each of the twenty input streams. */
  datatype Slots = Slots(
    rtklibNav: RtklibNav,
    fix: NavSatFix,
    velocity: TwistStamped,
    velocityScaleFactor: VelocityScaleFactor,
    distance: Distance,
    heading1st: Heading,
    headingInterpolate1st: Heading,
    heading2nd: Heading,
    headingInterpolate2nd: Heading,
    heading3rd: Heading,
    headingInterpolate3rd: Heading,
    yawrateOffsetStop: YawrateOffset,
    yawrateOffset1st: YawrateOffset,
    yawrateOffset2nd: YawrateOffset,
    enuRelativePos: Position,
    enuVel: Vector3Stamped,
    enuAbsolutePos: Position,
    enuAbsolutePosInterpolate: Position,
    eagleyeFix: NavSatFix,
    eagleyeTwist: TwistStamped)

  /** The slots before any stream has delivered a message. */
  const InitialSlots := Slots(
    EmptyRtklibNav, EmptyNavSatFix, EmptyTwistStamped, EmptyVelocityScaleFactor, EmptyDistance,
    EmptyHeading, EmptyHeading, EmptyHeading, EmptyHeading, EmptyHeading, EmptyHeading,
    EmptyYawrateOffset, EmptyYawrateOffset, EmptyYawrateOffset,
    EmptyPosition, EmptyVector3Stamped, EmptyPosition, EmptyPosition,
    EmptyNavSatFix, EmptyTwistStamped)

  /** The twenty passive input streams, one per slot. */
  datatype Stream =
    | RtklibNavStream | FixStream | VelocityStream | VelocityScaleFactorStream | DistanceStream
    | Heading1stStream | HeadingInterpolate1stStream | Heading2ndStream
    | HeadingInterpolate2ndStream | Heading3rdStream | HeadingInterpolate3rdStream
    | YawrateOffsetStopStream | YawrateOffset1stStream | YawrateOffset2ndStream
    | EnuRelativePosStream | EnuVelStream | EnuAbsolutePosStream
    | EnuAbsolutePosInterpolateStream | EagleyeFixStream | EagleyeTwistStream

  /** One message arriving on a passive stream. */
  datatype Update =
    | OnRtklibNav(rtklibNavMsg: RtklibNav)
    | OnFix(fixMsg: NavSatFix)
    | OnVelocity(velocityMsg: TwistStamped)
    | OnVelocityScaleFactor(scaleFactorMsg: VelocityScaleFactor)
    | OnDistance(distanceMsg: Distance)
    | OnHeading1st(heading1stMsg: Heading)
    | OnHeadingInterpolate1st(headingInterpolate1stMsg: Heading)
    | OnHeading2nd(heading2ndMsg: Heading)
    | OnHeadingInterpolate2nd(headingInterpolate2ndMsg: Heading)
    | OnHeading3rd(heading3rdMsg: Heading)
    | OnHeadingInterpolate3rd(headingInterpolate3rdMsg: Heading)
    | OnYawrateOffsetStop(yawrateOffsetStopMsg: YawrateOffset)
    | OnYawrateOffset1st(yawrateOffset1stMsg: YawrateOffset)
    | OnYawrateOffset2nd(yawrateOffset2ndMsg: YawrateOffset)
    | OnEnuRelativePos(enuRelativePosMsg: Position)
    | OnEnuVel(enuVelMsg: Vector3Stamped)
    | OnEnuAbsolutePos(enuAbsolutePosMsg: Position)
    | OnEnuAbsolutePosInterpolate(enuAbsolutePosInterpolateMsg: Position)
    | OnEagleyeFix(eagleyeFixMsg: NavSatFix)
    | OnEagleyeTwist(eagleyeTwistMsg: TwistStamped)

  /** The content of one slot, whatever its message type. */
  datatype SlotValue =
    | NavValue(nav: RtklibNav)
    | FixValue(navSatFix: NavSatFix)
    | TwistValue(twistStamped: TwistStamped)
    | ScaleFactorValue(scaleFactor: VelocityScaleFactor)
    | DistanceValue(travelled: Distance)
    | HeadingValue(heading: Heading)
    | YawrateOffsetValue(offset: YawrateOffset)
    | PositionValue(position: Position)
    | VectorValue(vector: Vector3Stamped)

  function StreamOf(u: Update): Stream
  {
    match u
    case OnRtklibNav(_) => RtklibNavStream
    case OnFix(_) => FixStream
    case OnVelocity(_) => VelocityStream
    case OnVelocityScaleFactor(_) => VelocityScaleFactorStream
    case OnDistance(_) => DistanceStream
    case OnHeading1st(_) => Heading1stStream
    case OnHeadingInterpolate1st(_) => HeadingInterpolate1stStream
    case OnHeading2nd(_) => Heading2ndStream
    case OnHeadingInterpolate2nd(_) => HeadingInterpolate2ndStream
    case OnHeading3rd(_) => Heading3rdStream
    case OnHeadingInterpolate3rd(_) => HeadingInterpolate3rdStream
    case OnYawrateOffsetStop(_) => YawrateOffsetStopStream
    case OnYawrateOffset1st(_) => YawrateOffset1stStream
    case OnYawrateOffset2nd(_) => YawrateOffset2ndStream
    case OnEnuRelativePos(_) => EnuRelativePosStream
    case OnEnuVel(_) => EnuVelStream
    case OnEnuAbsolutePos(_) => EnuAbsolutePosStream
    case OnEnuAbsolutePosInterpolate(_) => EnuAbsolutePosInterpolateStream
    case OnEagleyeFix(_) => EagleyeFixStream
    case OnEagleyeTwist(_) => EagleyeTwistStream
  }

  /** The slot that stream `k` feeds. */
  function Get(s: Slots, k: Stream): SlotValue
  {
    match k
    case RtklibNavStream => NavValue(s.rtklibNav)
    case FixStream => FixValue(s.fix)
    case VelocityStream => TwistValue(s.velocity)
    case VelocityScaleFactorStream => ScaleFactorValue(s.velocityScaleFactor)
    case DistanceStream => DistanceValue(s.distance)
    case Heading1stStream => HeadingValue(s.heading1st)
    case HeadingInterpolate1stStream => HeadingValue(s.headingInterpolate1st)
    case Heading2ndStream => HeadingValue(s.heading2nd)
    case HeadingInterpolate2ndStream => HeadingValue(s.headingInterpolate2nd)
    case Heading3rdStream => HeadingValue(s.heading3rd)
    case HeadingInterpolate3rdStream => HeadingValue(s.headingInterpolate3rd)
    case YawrateOffsetStopStream => YawrateOffsetValue(s.yawrateOffsetStop)
    case YawrateOffset1stStream => YawrateOffsetValue(s.yawrateOffset1st)
    case YawrateOffset2ndStream => YawrateOffsetValue(s.yawrateOffset2nd)
    case EnuRelativePosStream => PositionValue(s.enuRelativePos)
    case EnuVelStream => VectorValue(s.enuVel)
    case EnuAbsolutePosStream => PositionValue(s.enuAbsolutePos)
    case EnuAbsolutePosInterpolateStream => PositionValue(s.enuAbsolutePosInterpolate)
    case EagleyeFixStream => FixValue(s.eagleyeFix)
    case EagleyeTwistStream => TwistValue(s.eagleyeTwist)
  }

  /** The message an update carries, as a slot value. */
  function Payload(u: Update): SlotValue
  {
    match u
    case OnRtklibNav(m) => NavValue(m)
    case OnFix(m) => FixValue(m)
    case OnVelocity(m) => TwistValue(m)
    case OnVelocityScaleFactor(m) => ScaleFactorValue(m)
    case OnDistance(m) => DistanceValue(m)
    case OnHeading1st(m) => HeadingValue(m)
    case OnHeadingInterpolate1st(m) => HeadingValue(m)
    case OnHeading2nd(m) => HeadingValue(m)
    case OnHeadingInterpolate2nd(m) => HeadingValue(m)
    case OnHeading3rd(m) => HeadingValue(m)
    case OnHeadingInterpolate3rd(m) => HeadingValue(m)
    case OnYawrateOffsetStop(m) => YawrateOffsetValue(m)
    case OnYawrateOffset1st(m) => YawrateOffsetValue(m)
    case OnYawrateOffset2nd(m) => YawrateOffsetValue(m)
    case OnEnuRelativePos(m) => PositionValue(m)
    case OnEnuVel(m) => VectorValue(m)
    case OnEnuAbsolutePos(m) => PositionValue(m)
    case OnEnuAbsolutePosInterpolate(m) => PositionValue(m)
    case OnEagleyeFix(m) => FixValue(m)
    case OnEagleyeTwist(m) => TwistValue(m)
  }

  /**
   * The copy rule of one stream, stated on its own slot: every stream copies
   * all the fields its message type has here, except heading_1st, which copies
   * the header alone and leaves the slot's heading angle and status as they were.
   */
  function Write(v: SlotValue, u: Update): SlotValue
  {
    if u.OnHeading1st? && v.HeadingValue? then
      HeadingValue(v.heading.(header := u.heading1stMsg.header))
    else
      Payload(u)
  }

  /**
   * The effect of one slot callback on the twenty slots: the update's own slot
   * takes the copy rule's value and every other slot is left as it was.
   */
  function Apply(s: Slots, u: Update): Slots
  {
    Slots(
      if u.OnRtklibNav? then u.rtklibNavMsg else s.rtklibNav,
      if u.OnFix? then u.fixMsg else s.fix,
      if u.OnVelocity? then u.velocityMsg else s.velocity,
      if u.OnVelocityScaleFactor? then u.scaleFactorMsg else s.velocityScaleFactor,
      if u.OnDistance? then u.distanceMsg else s.distance,
      if u.OnHeading1st? then s.heading1st.(header := u.heading1stMsg.header) else s.heading1st,
      if u.OnHeadingInterpolate1st? then u.headingInterpolate1stMsg else s.headingInterpolate1st,
      if u.OnHeading2nd? then u.heading2ndMsg else s.heading2nd,
      if u.OnHeadingInterpolate2nd? then u.headingInterpolate2ndMsg else s.headingInterpolate2nd,
      if u.OnHeading3rd? then u.heading3rdMsg else s.heading3rd,
      if u.OnHeadingInterpolate3rd? then u.headingInterpolate3rdMsg else s.headingInterpolate3rd,
      if u.OnYawrateOffsetStop? then u.yawrateOffsetStopMsg else s.yawrateOffsetStop,
      if u.OnYawrateOffset1st? then u.yawrateOffset1stMsg else s.yawrateOffset1st,
      if u.OnYawrateOffset2nd? then u.yawrateOffset2ndMsg else s.yawrateOffset2nd,
      if u.OnEnuRelativePos? then u.enuRelativePosMsg else s.enuRelativePos,
      if u.OnEnuVel? then u.enuVelMsg else s.enuVel,
      if u.OnEnuAbsolutePos? then u.enuAbsolutePosMsg else s.enuAbsolutePos,
      if u.OnEnuAbsolutePosInterpolate? then u.enuAbsolutePosInterpolateMsg else s.enuAbsolutePosInterpolate,
      if u.OnEagleyeFix? then u.eagleyeFixMsg else s.eagleyeFix,
      if u.OnEagleyeTwist? then u.eagleyeTwistMsg else s.eagleyeTwist)
  }

  /** The slots after the updates `us` are delivered in order. */
  function ApplyAll(s: Slots, us: seq<Update>): Slots
    decreases |us|
  {
    if us == [] then s else ApplyAll(Apply(s, us[0]), us[1..])
  }

  /** The updates of `us` that arrive on stream `k`, in order. */
  function Filter(us: seq<Update>, k: Stream): (r: seq<Update>)
    ensures forall u :: u in r ==> StreamOf(u) == k
  {
    if us == [] then []
    else (if StreamOf(us[0]) == k then [us[0]] else []) + Filter(us[1..], k)
  }

  /** One slot after its own copy rule is applied for each of `us` in order. */
  function WriteAll(v: SlotValue, us: seq<Update>): SlotValue
    decreases |us|
  {
    if us == [] then v else WriteAll(Write(v, us[0]), us[1..])
  }

  // ----- Properties of the slot callbacks -----

  /**
   * A slot callback touches its own slot only, and leaves there what the
   * stream's copy rule makes of the slot's previous value.
   */
  lemma ApplyTouchesOnlyItsSlot(s: Slots, u: Update, k: Stream)
    ensures Get(Apply(s, u), k) == if k == StreamOf(u) then Write(Get(s, k), u) else Get(s, k)
  {
  }

  /**
   * heading_1st copies only the header; its five heading siblings copy the
   * header, the heading angle and the status.
   */
  lemma HeadingCopyRules(s: Slots, m: Heading)
    ensures Apply(s, OnHeading1st(m)).heading1st
         == Heading(m.header, s.heading1st.headingAngle, s.heading1st.status)
    ensures Apply(s, OnHeadingInterpolate1st(m)).headingInterpolate1st == m
    ensures Apply(s, OnHeading2nd(m)).heading2nd == m
    ensures Apply(s, OnHeadingInterpolate2nd(m)).headingInterpolate2nd == m
    ensures Apply(s, OnHeading3rd(m)).heading3rd == m
    ensures Apply(s, OnHeadingInterpolate3rd(m)).headingInterpolate3rd == m
  {
  }

  /** A second update on the same stream overrides the first; in particular a
      callback given the same message twice leaves the state of one call. */
  lemma LastUpdateOnStreamWins(s: Slots, u: Update, v: Update)
    requires StreamOf(u) == StreamOf(v)
    ensures Apply(Apply(s, u), v) == Apply(s, v)
    ensures Apply(Apply(s, v), v) == Apply(s, v)
  {
  }

  /** Updates on different streams commute: no callback reads another slot. */
  lemma UpdatesOnDifferentStreamsCommute(s: Slots, u: Update, v: Update)
    requires StreamOf(u) != StreamOf(v)
    ensures Apply(Apply(s, u), v) == Apply(Apply(s, v), u)
  {
  }

  /**
   * Slots are independent: after any sequence of updates, the slot of stream
   * `k` is what its own copy rule makes of the updates on `k` alone.
   */
  lemma {:induction false} SlotSeesOnlyItsOwnStream(s: Slots, us: seq<Update>, k: Stream)
    ensures Get(ApplyAll(s, us), k) == WriteAll(Get(s, k), Filter(us, k))
    decreases |us|
  {
    if us != [] {
      var s' := Apply(s, us[0]);
      SlotSeesOnlyItsOwnStream(s', us[1..], k);
      ApplyTouchesOnlyItsSlot(s, us[0], k);
      if StreamOf(us[0]) == k {
        assert Filter(us, k) == [us[0]] + Filter(us[1..], k);
        assert Filter(us, k)[1..] == Filter(us[1..], k);
      } else {
        assert Filter(us, k) == Filter(us[1..], k);
      }
    }
  }

  /** On a stream that copies its whole message, a run of writes leaves the last message. */
  lemma {:induction false} WholeCopyKeepsLast(v: SlotValue, us: seq<Update>, k: Stream)
    requires k != Heading1stStream
    requires forall u :: u in us ==> StreamOf(u) == k
    ensures WriteAll(v, us) == if us == [] then v else Payload(us[|us| - 1])
    decreases |us|
  {
    if us != [] {
      assert us[0] in us;
      assert forall u :: u in us[1..] ==> u in us;
      WholeCopyKeepsLast(Write(v, us[0]), us[1..], k);
    }
  }

  /**
   * Last write wins: for every stream other than heading_1st, the slot holds
   * the message of the last update on that stream, or its earlier value if
   * none arrived.
   */
  lemma LastWriteWins(s: Slots, us: seq<Update>, k: Stream)
    requires k != Heading1stStream
    ensures var f := Filter(us, k);
            Get(ApplyAll(s, us), k) == if f == [] then Get(s, k) else Payload(f[|f| - 1])
  {
    SlotSeesOnlyItsOwnStream(s, us, k);
    WholeCopyKeepsLast(Get(s, k), Filter(us, k), k);
  }

  /** On the heading_1st stream, a run of writes replaces the header alone, by the last one. */
  lemma {:induction false} Heading1stWritesHeaderOnly(h: Heading, us: seq<Update>)
    requires forall u :: u in us ==> u.OnHeading1st?
    ensures WriteAll(HeadingValue(h), us)
         == HeadingValue(if us == [] then h else h.(header := us[|us| - 1].heading1stMsg.header))
    decreases |us|
  {
    if us != [] {
      assert us[0] in us;
      assert forall u :: u in us[1..] ==> u in us;
      Heading1stWritesHeaderOnly(h.(header := us[0].heading1stMsg.header), us[1..]);
    }
  }

  /**
   * The heading_1st slot never takes a heading angle or a status from its
   * stream: those keep their earlier value through any sequence of updates,
   * and only its header follows the last heading_1st message.
   */
  lemma Heading1stKeepsAngleAndStatus(s: Slots, us: seq<Update>)
    ensures var h := ApplyAll(s, us).heading1st;
            h.headingAngle == s.heading1st.headingAngle && h.status == s.heading1st.status
    ensures var f := Filter(us, Heading1stStream);
            if f == [] then ApplyAll(s, us).heading1st.header == s.heading1st.header
            else f[|f| - 1].OnHeading1st?
                 && ApplyAll(s, us).heading1st.header == f[|f| - 1].heading1stMsg.header
  {
    var f := Filter(us, Heading1stStream);
    SlotSeesOnlyItsOwnStream(s, us, Heading1stStream);
    forall u | u in f ensures u.OnHeading1st? {
      assert StreamOf(u) == Heading1stStream;
    }
    Heading1stWritesHeaderOnly(s.heading1st, f);
  }

  // ----- The pulse: snapshot and report -----

  /** The slots a published record carries. */
  function SlotsOf(d: Debug): Slots
  {
    Slots(d.rtklibNav, d.fix, d.velocity, d.velocityScaleFactor, d.distance,
          d.heading1st, d.headingInterpolate1st, d.heading2nd, d.headingInterpolate2nd,
          d.heading3rd, d.headingInterpolate3rd,
          d.yawrateOffsetStop, d.yawrateOffset1st, d.yawrateOffset2nd,
          d.enuRelativePos, d.enuVel, d.enuAbsolutePos, d.enuAbsolutePosInterpolate,
          d.eagleyeFix, d.eagleyeTwist)
  }

  /** A record whose twenty slot fields are replaced by the slots `s`. */
  function WithSlots(d: Debug, s: Slots): (r: Debug)
    ensures SlotsOf(r) == s
    ensures r.header == d.header && r.imu == d.imu
  {
    d.(rtklibNav := s.rtklibNav, fix := s.fix, velocity := s.velocity,
       velocityScaleFactor := s.velocityScaleFactor, distance := s.distance,
       heading1st := s.heading1st, headingInterpolate1st := s.headingInterpolate1st,
       heading2nd := s.heading2nd, headingInterpolate2nd := s.headingInterpolate2nd,
       heading3rd := s.heading3rd, headingInterpolate3rd := s.headingInterpolate3rd,
       yawrateOffsetStop := s.yawrateOffsetStop, yawrateOffset1st := s.yawrateOffset1st,
       yawrateOffset2nd := s.yawrateOffset2nd, enuRelativePos := s.enuRelativePos,
       enuVel := s.enuVel, enuAbsolutePos := s.enuAbsolutePos,
       enuAbsolutePosInterpolate := s.enuAbsolutePosInterpolate,
       eagleyeFix := s.eagleyeFix, eagleyeTwist := s.eagleyeTwist)
  }

  /**
   * The record the IMU callback builds over the previous one: the capture
   * time is the clock reading `now`, the frame id is cleared, the IMU message
   * is the pulse payload and the twenty slot fields are the slots. Only the
   * header's sequence number survives from the previous record.
   */
  function Assemble(prev: Debug, s: Slots, msg: Imu, now: Time): (d: Debug)
    ensures SlotsOf(d) == s
    ensures d.imu == msg
    ensures d.header.stamp == now && d.header.frameId == ""
    ensures d.header.sequence == prev.header.sequence
  {
    WithSlots(prev.(header := Header(prev.header.sequence, now, "")).(imu := msg), s)
  }

  /** A stale record leaves no trace in the next snapshot beyond its sequence number. */
  lemma SnapshotIgnoresStaleRecord(p: Debug, q: Debug, s: Slots, msg: Imu, now: Time)
    requires p.header.sequence == q.header.sequence
    ensures Assemble(p, s, msg, now) == Assemble(q, s, msg, now)
  {
  }

  /** One reported value: a float64 field, or the unsigned time of week. */
  datatype Reading = Float(bits: F64) | Count(count: uint32)

  /** The eleven values of the console report, in the order they are printed. */
  function Report(d: Debug): (r: seq<Reading>)
    ensures |r| == 11
  {
    [ Float(d.imu.linearAcceleration.x), Float(d.imu.linearAcceleration.y),
      Float(d.imu.linearAcceleration.z),
      Float(d.imu.angularVelocity.x), Float(d.imu.angularVelocity.y),
      Float(d.imu.angularVelocity.z),
      Float(d.velocity.twist.linear.x),
      Count(d.rtklibNav.tow),
      Float(d.rtklibNav.status.longitude), Float(d.rtklibNav.status.latitude),
      Float(d.rtklibNav.status.altitude) ]
  }

  /** Each published record has beside it the report printed from it. */
  predicate ReportsMatch(published: seq<Debug>, reports: seq<seq<Reading>>)
  {
    |reports| == |published|
    && forall i :: 0 <= i < |published| ==> reports[i] == Report(published[i])
  }

  /** Publishing a record together with its report keeps the pairing. */
  lemma PublishKeepsReportsMatched(published: seq<Debug>, reports: seq<seq<Reading>>, d: Debug)
    requires ReportsMatch(published, reports)
    ensures ReportsMatch(published + [d], reports + [Report(d)])
  {
  }

  /**
   * The report printed for a snapshot shows the pulse's acceleration and
   * angular velocity, then the velocity slot's forward speed and the raw
   * navigation slot's time of week, longitude, latitude and altitude.
   */
  lemma ReportOfSnapshot(prev: Debug, s: Slots, msg: Imu, now: Time)
    ensures var r := Report(Assemble(prev, s, msg, now));
            r[..6] == [ Float(msg.linearAcceleration.x), Float(msg.linearAcceleration.y),
                        Float(msg.linearAcceleration.z), Float(msg.angularVelocity.x),
                        Float(msg.angularVelocity.y), Float(msg.angularVelocity.z) ]
            && r[6..] == [ Float(s.velocity.twist.linear.x), Count(s.rtklibNav.tow),
                           Float(s.rtklibNav.status.longitude),
                           Float(s.rtklibNav.status.latitude),
                           Float(s.rtklibNav.status.altitude) ]
  {
  }

  /**
   * What a pulse publishes after any sequence of updates from start-up: each
   * slot field other than heading_1st holds the last message on its stream,
   * or the default message if that stream has been silent.
   */
  lemma SnapshotAfterUpdates(prev: Debug, us: seq<Update>, msg: Imu, now: Time, k: Stream)
    requires k != Heading1stStream
    ensures var f := Filter(us, k);
            Get(SlotsOf(Assemble(prev, ApplyAll(InitialSlots, us), msg, now)), k)
              == if f == [] then Get(InitialSlots, k) else Payload(f[|f| - 1])
  {
    LastWriteWins(InitialSlots, us, k);
  }

  /** A pulse before any other update reports zero for all five slot values. */
  lemma SilentStreamsReportZero(prev: Debug, msg: Imu, now: Time)
    ensures Report(Assemble(prev, InitialSlots, msg, now))[6..]
         == [Float(0), Count(0), Float(0), Float(0), Float(0)]
  {
  }
}
