# eagleye debug node: a verified model

The eagleye debug node caches the last message from each of twenty input
streams. Each stream has a slot: raw RTKLIB navigation, GNSS fix, vehicle
velocity, velocity scale factor, distance, three heading estimates and their
three interpolated counterparts, three yaw-rate offsets, three ENU positions,
ENU velocity, and eagleye's own fix and twist.

Every IMU message is a pulse. On a pulse the node does four things:

- stamps its `debug` record with the current time and clears its frame id;
- copies in the IMU message and every slot as it stands;
- prints an eleven-value status report;
- publishes the record.

The model has four modules:

- `Messages` (messages.dfy): the message records. Each keeps only the fields
  the node reads or writes, and each has its default value (all zeros, empty
  strings).
- `Aggregation` (aggregation.dfy): the behaviour on values.
  - `Slots` holds the twenty slots.
  - `Apply` is one callback's effect and `ApplyAll` a run of callbacks.
  - `Assemble` builds the snapshot and `Report` gives the printed values.
  - The lemmas state what the node promises.
- `Node` (node.dfy): the node itself as the class `DebugNode`.
  - It has one field per slot, the `debug` record, the published records and
    the printed reports.
  - Each callback is a method that may modify only its own slot field. The
    method updates that field one source field at a time, as the C++ does, and
    is proved equal to `Apply`.
  - `ImuCallback` is proved to publish `Assemble` of the slots it saw.
- `Scenarios` (scenarios.dfy): runs of a fresh node. They cover a pulse after
  updates, a pulse before any update, the heading_1st asymmetry, and two
  pulses with an update between them. They are proved from the class contracts
  alone.

Three behaviours of the source are reproduced as written:

- heading_1st copies only the header. Its slot's heading angle and status
  therefore keep their default values forever.
- The IMU callback never writes `debug.header.seq`. The model keeps the
  previous record's sequence number.
- Slots that never received a message are published with their default
  values.

## Model

| member | source | states |
|---|---|---|
| Node.DebugNode.constructor | eagleye_core/src/debug.cpp:22-44 | at start-up every slot and the `debug` record hold the default message; nothing has been published or printed |
| Node.DebugNode.RtklibNavCallback | eagleye_core/src/debug.cpp:46-53 | only the rtklib_nav slot may change; it becomes the message (header, tow, ecef_pos, ecef_vel, status) |
| Node.DebugNode.FixCallback | eagleye_core/src/debug.cpp:55-64 | only the fix slot may change; it becomes the message's seven fields |
| Node.DebugNode.VelocityCallback | eagleye_core/src/debug.cpp:66-70 | only the velocity slot may change; it becomes the message's header and twist |
| Node.DebugNode.VelocityScaleFactorCallback | eagleye_core/src/debug.cpp:72-78 | only the velocity_scale_factor slot may change; it takes the message's header, scale_factor, correction_velocity and status |
| Node.DebugNode.DistanceCallback | eagleye_core/src/debug.cpp:80-85 | only the distance slot may change; it takes the message's header, distance and status |
| Node.DebugNode.Heading1stCallback | eagleye_core/src/debug.cpp:87-90 | only the heading_1st slot may change, and only its header: its heading angle and status stay as they were |
| Node.DebugNode.HeadingInterpolate1stCallback | eagleye_core/src/debug.cpp:92-97 | only the heading_interpolate_1st slot may change; it takes the header, heading_angle and status |
| Node.DebugNode.Heading2ndCallback | eagleye_core/src/debug.cpp:99-104 | only the heading_2nd slot may change; it takes the header, heading_angle and status |
| Node.DebugNode.HeadingInterpolate2ndCallback | eagleye_core/src/debug.cpp:106-111 | only the heading_interpolate_2nd slot may change; it takes the header, heading_angle and status |
| Node.DebugNode.Heading3rdCallback | eagleye_core/src/debug.cpp:113-118 | only the heading_3rd slot may change; it takes the header, heading_angle and status |
| Node.DebugNode.HeadingInterpolate3rdCallback | eagleye_core/src/debug.cpp:120-125 | only the heading_interpolate_3rd slot may change; it takes the header, heading_angle and status |
| Node.DebugNode.YawrateOffsetStopCallback | eagleye_core/src/debug.cpp:127-132 | only the yawrate_offset_stop slot may change; it takes the header, yawrate_offset and status |
| Node.DebugNode.YawrateOffset1stCallback | eagleye_core/src/debug.cpp:134-139 | only the yawrate_offset_1st slot may change; it takes the header, yawrate_offset and status |
| Node.DebugNode.YawrateOffset2ndCallback | eagleye_core/src/debug.cpp:141-146 | only the yawrate_offset_2nd slot may change; it takes the header, yawrate_offset and status |
| Node.DebugNode.EnuRelativePosCallback | eagleye_core/src/debug.cpp:148-154 | only the enu_relative_pos slot may change; it takes the header, enu_pos, ecef_base_pos and status |
| Node.DebugNode.EnuVelCallback | eagleye_core/src/debug.cpp:156-160 | only the enu_vel slot may change; it takes the header and vector |
| Node.DebugNode.EnuAbsolutePosCallback | eagleye_core/src/debug.cpp:162-168 | only the enu_absolute_pos slot may change; it takes the header, enu_pos, ecef_base_pos and status |
| Node.DebugNode.EnuAbsolutePosInterpolateCallback | eagleye_core/src/debug.cpp:170-176 | only the enu_absolute_pos_interpolate slot may change; it takes the header, enu_pos, ecef_base_pos and status |
| Node.DebugNode.EagleyeFixCallback | eagleye_core/src/debug.cpp:178-187 | only the eagleye_fix slot may change; it becomes the message's seven fields |
| Node.DebugNode.EagleyeTwistCallback | eagleye_core/src/debug.cpp:189-193 | only the eagleye_twist slot may change; it becomes the message's header and twist |
| Node.DebugNode.ImuCallback | eagleye_core/src/debug.cpp:195-244 | no slot changes; `debug` becomes the snapshot of the slots at call time with the IMU message and the clock reading; exactly one report of it is printed and it is published exactly once; every published record stays paired with its report and the last one equals `debug` |
| Node.DebugNode.StampDebug | eagleye_core/src/debug.cpp:197-198 | the header's stamp becomes the clock reading and its frame id the empty string; its sequence number and all else are kept |
| Node.DebugNode.CopyImu | eagleye_core/src/debug.cpp:199-205 | `debug.imu` becomes the IMU message (header, orientation, angular velocity, linear acceleration and their three covariances); all else is kept |
| Node.DebugNode.CopySlots | eagleye_core/src/debug.cpp:206-225 | each of the twenty slot fields of `debug` becomes the current value of its slot; header and IMU are kept |
| Node.DebugNode.PrintAndPublish | eagleye_core/src/debug.cpp:227-243 | one report, made from `debug`, is printed; then `debug` is appended once to what was published |
| Aggregation.Write | eagleye_core/src/debug.cpp:46-193 | the copy rule of one slot: heading_1st takes only the message's header (debug.cpp:87-90), every other stream the whole message; no contract, its body is the definition, and `HeadingCopyRules` and `WholeCopyKeepsLast` state its consequences |
| Aggregation.Apply | eagleye_core/src/debug.cpp:46-193 | the effect of any one of the twenty slot callbacks on the slots: the slot of the update's stream takes the message (heading_1st only its header) and every other slot keeps its value; no contract, its body is the definition that every callback's `ensures` refers to, and `ApplyTouchesOnlyItsSlot` states what it means |
| Aggregation.ApplyTouchesOnlyItsSlot | eagleye_core/src/debug.cpp:46-193 | a callback changes its own slot, by that stream's copy rule, and no other slot |
| Aggregation.HeadingCopyRules | eagleye_core/src/debug.cpp:87-125 | heading_1st keeps the slot's heading angle and status and takes only the header; the five other heading streams take the whole message |
| Aggregation.LastUpdateOnStreamWins | eagleye_core/src/debug.cpp:46-193 | two updates on one stream leave what the second alone leaves; a callback repeated with the same message is idempotent |
| Aggregation.UpdatesOnDifferentStreamsCommute | eagleye_core/src/debug.cpp:46-193 | callbacks of different streams commute, since none reads another slot |
| Aggregation.SlotSeesOnlyItsOwnStream | eagleye_core/src/debug.cpp:22-41 | after any run of updates, a slot depends only on its own earlier value and the updates of its own stream |
| Aggregation.WholeCopyKeepsLast | eagleye_core/src/debug.cpp:46-193 | on a stream that copies its whole message, a run of updates leaves the last message |
| Aggregation.LastWriteWins | eagleye_core/src/debug.cpp:46-193 | every slot except heading_1st holds the last message of its stream, or its earlier value when none arrived |
| Aggregation.Heading1stWritesHeaderOnly | eagleye_core/src/debug.cpp:87-90 | a run of heading_1st updates replaces the slot's header by the last message's header and nothing else |
| Aggregation.Heading1stKeepsAngleAndStatus | eagleye_core/src/debug.cpp:87-90 | through any run of updates the heading_1st slot keeps its heading angle and status; its header is that of the last heading_1st message, if any |
| Aggregation.WithSlots | eagleye_core/src/debug.cpp:206-225 | the twenty slot fields of the record become the given slots; its header and IMU message are kept |
| Aggregation.Assemble | eagleye_core/src/debug.cpp:197-225 | the snapshot carries exactly the given slots and IMU message, the clock reading as stamp and an empty frame id, and the previous record's sequence number |
| Aggregation.SnapshotIgnoresStaleRecord | eagleye_core/src/debug.cpp:197-225 | nothing of the previous record but its header sequence number reaches the next snapshot |
| Aggregation.Report | eagleye_core/src/debug.cpp:229-241 | the report has exactly eleven values |
| Aggregation.ReportOfSnapshot | eagleye_core/src/debug.cpp:229-241 | the report of a snapshot is, in order, the pulse's linear acceleration x, y, z and angular velocity x, y, z, then the velocity slot's twist.linear.x and the rtklib_nav slot's tow, status.longitude, status.latitude and status.altitude |
| Aggregation.PublishKeepsReportsMatched | eagleye_core/src/debug.cpp:227-243 | printing a record's report and publishing the record keeps every published record paired with its own report |
| Aggregation.SnapshotAfterUpdates | eagleye_core/src/debug.cpp:206-224 | after any run of updates from start-up, each published slot field other than heading_1st is the last message of its stream, or the default message if the stream was silent |
| Aggregation.SilentStreamsReportZero | eagleye_core/src/debug.cpp:236-241 | a pulse before any update reports zero velocity, time of week, longitude, latitude and altitude |
| Scenarios.VelocityAndNavThenPulse | eagleye_core/src/debug.cpp:195-244 | a velocity message, a raw navigation message, then a pulse: the record carries both, and the report shows the pulse's six axes, the forward speed and the navigation values |
| Scenarios.PulseBeforeAnyUpdate | eagleye_core/src/debug.cpp:22-44 | a pulse before any update publishes default slots and the IMU message, stamped with the clock, and reports zeros for the five slot values |
| Scenarios.Heading1stAsymmetry | eagleye_core/src/debug.cpp:87-97 | the same heading message sent to heading_1st and to heading_interpolate_1st is published whole in the second and header-only in the first |
| Scenarios.TwoPulses | eagleye_core/src/debug.cpp:195-244 | two pulses publish two records, each with its own clock reading and IMU message; an update between them shows only in the second |

## Left out

- `main` (debug.cpp:246-278) is not part of this model. It covers node start-up, topic names, subscriptions with queue depth 1000, advertising the output topic and the spin loop.
- The clock is not modelled. `ros::Time::now()` becomes the `now` parameter of `ImuCallback`. Whether stamps increase across pulses therefore depends on the clock; the model only proves that each record carries its own reading.
- Console text is not modelled. The report is the sequence of its eleven values, without labels, units or number formatting.
- Delivery by the transport is not modelled. Publishing appends the record to `published`, and the transport's own handling of the message (serialisation, any header rewriting, delivery failures) is left out.
- Fields the node never names are not modelled. Each message type carries only the fields the code copies, so fields a callback skips show up only for heading_1st. The inner layouts of eagleye_msgs/Status, sensor_msgs/NavSatStatus, Point, Vector3 and Quaternion are assumed (two flags; status and service; three or four doubles), because their definitions are not part of this model.
- Floating point is not modelled. A double is held as its 64-bit pattern and only copied; no arithmetic is done on it.
- Concurrency and queueing are not modelled. The dispatcher is single-threaded, and the model treats each callback as one atomic step.
