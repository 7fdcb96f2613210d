# Geometric flight controller skeleton, modelled in Dafny

This project models the early version of `UavGeometryControl`, the SE(3) geometric
flight controller of the mmuav multirotor stack. The file it models does not yet
contain the control law. It holds the following parts, and each is modelled here:

- the **hat operator**, which turns a vector (x, y, z) into the skew-symmetric 3x3
  matrix of its cross product and writes it into a matrix passed by reference;
- the **reference store**, the setpoint fields that the constructor initialises and the
  subscriber callbacks overwrite: desired position, velocity, acceleration, heading,
  and the hat matrices of the desired angular velocity and acceleration;
- the **start latch** `start_flag_`, which the first IMU sample sets;
- the **fixed-rate gate** of the control loop. A round does work only when at least
  `1.0 / controller_rate_` seconds have passed since the last round that did work.
  The first round is timed from the clock reading taken just before the loop starts
  (line 87).

Modules:

- `Geometry` (`geometry.dfy`): vectors, matrices, the cross product, and `Hat` with
  its algebraic properties.
- `ReferenceStore` (`reference_store.dfy`): the controller's fields as a value
  (`Store`), one `Message` per subscriber callback, and `Apply`/`ApplyAll`, with
  lemmas about any sequence of callbacks.
- `RateGate` (`rate_gate.dfy`): the gate test `Due`, one pass of the loop `Step`, a
  run over a sequence of clock readings `Run`, and the spacing lemmas.
- `GeometryControl` (`uav_geometry_control.dfy`): the class `UavGeometryControl`.
  Its fields are updated in place. `omega_d_` and `alpha_d_` are 3x3 arrays that
  `HatOperator` writes. Every callback is proved against `ReferenceStore.Apply`, and
  the control loop is proved against `RateGate.Run`.

The clock is a parameter. Each pass through the loop reads the clock once for the
elapsed-time test (`Poll.now`). A round that is due reads the clock a second time for
the new `t_old_` (`Poll.stamp`), as the source does at lines 96 and 104.

The heading callback stores the vector as received and does not normalise it
(`HeadingKeptUnnormalised`). The desired angular velocity and acceleration are stored
as hat matrices, not as vectors.

## Model

| member | source | states |
|---|---|---|
| Geometry.Hat | mmuav_control/src/UavGeometryControl.cpp:180-190 | the result is skew-symmetric with a zero diagonal; entries (2,1), (0,2), (1,0) give back x, y, z; multiplying it by any w gives (x,y,z) x w, so it maps (x,y,z) itself to zero |
| Geometry.SkewIsHat | mmuav_control/src/UavGeometryControl.cpp:183-189 | every skew-symmetric matrix is the hat of the vector read from its entries (2,1), (0,2), (1,0), so the hat map is onto the skew matrices and those entries invert it |
| Geometry.HatInjective | mmuav_control/src/UavGeometryControl.cpp:184-189 | two vectors with the same hat matrix are equal |
| ReferenceStore.Apply | mmuav_control/src/UavGeometryControl.cpp:109-152 | each callback writes exactly its own slot: the message's (x,y,z) for the position, velocity, acceleration and heading setpoints (no normalisation), the hat matrix for the two rate setpoints, true for the start latch; every other slot, the gains, the rate and the sleep duration are unchanged |
| ReferenceStore.ApplyAll | mmuav_control/src/UavGeometryControl.cpp:93 | the callbacks delivered in order: the final message's slot holds what that message wrote, and a slot that no message writes keeps its content |
| ReferenceStore.ApplyAllLastPerSlot | mmuav_control/src/UavGeometryControl.cpp:109-152 | after callbacks delivered in order, each slot holds what the last message written to it left there |
| ReferenceStore.LatchIffImu | mmuav_control/src/UavGeometryControl.cpp:152 | after any sequence of callbacks the latch is set if and only if it was set before or an IMU sample was among them; nothing resets it |
| ReferenceStore.ConfigurationFixed | mmuav_control/src/UavGeometryControl.cpp:109-152 | no sequence of callbacks changes the gains, the controller rate or the sleep duration |
| ReferenceStore.LastWriteWins | mmuav_control/src/UavGeometryControl.cpp:109-145 | a second message to the same slot overwrites the first, whatever it held |
| ReferenceStore.DistinctSlotsCommute | mmuav_control/src/UavGeometryControl.cpp:109-152 | callbacks for different slots give the same store in either order |
| ReferenceStore.HeadingKeptUnnormalised | mmuav_control/src/UavGeometryControl.cpp:130-135 | every heading vector is stored exactly as received, so its length is kept (no normalisation) |
| RateGate.Due | mmuav_control/src/UavGeometryControl.cpp:100-101 | at a positive rate a round is due iff elapsed time times rate is at least 1; at rate 0 never; at a negative rate iff elapsed time times rate is at most 1, so always for non-negative elapsed time |
| RateGate.Step | mmuav_control/src/UavGeometryControl.cpp:96-104 | one pass does work iff the round is `Due`; a working pass sets the last-round time to its second clock reading, any other pass leaves it unchanged |
| RateGate.Run | mmuav_control/src/UavGeometryControl.cpp:90-106 | the number of rounds that do work is at most the number of passes; with no such round the last-round time is unchanged, and otherwise it is the second clock reading of one of the passes |
| RateGate.StepSpacedByPeriod | mmuav_control/src/UavGeometryControl.cpp:96-104 | one pass at a positive rate that does work moves the last-round time forward by at least one period, provided the pass's second clock reading is not earlier than its first |
| RateGate.RoundsSpacedByPeriod | mmuav_control/src/UavGeometryControl.cpp:90-106 | at a positive rate, n rounds that do work move the last-round time forward by at least n periods, so work happens at most once per period, provided each pass's second clock reading is not earlier than its first |
| RateGate.NothingDueAtRateZero | mmuav_control/src/UavGeometryControl.cpp:100-101 | at rate 0 no round ever does work and the last-round time never moves |
| GeometryControl.SetZero | mmuav_control/src/UavGeometryControl.cpp:183 | every entry of the matrix is 0 afterwards (Eigen's `setZero`, also used at lines 23-24) |
| GeometryControl.UavGeometryControl.constructor | mmuav_control/src/UavGeometryControl.cpp:12-32 | position, velocity and acceleration setpoints are zero; both rate matrices are zero; the heading is (1,0,0); all four gains are 1; the latch is clear; the sleep duration is 0.5; the rate is the argument; together, the state is `Initial(rate)` |
| GeometryControl.UavGeometryControl.HatOperator | mmuav_control/src/UavGeometryControl.cpp:180-190 | afterwards the output matrix holds the hat of (x,y,z), whatever it held before |
| GeometryControl.UavGeometryControl.XdCallback | mmuav_control/src/UavGeometryControl.cpp:109-114 | the new state is `Apply` of the old one: only the desired position changes, to the message |
| GeometryControl.UavGeometryControl.VdCallback | mmuav_control/src/UavGeometryControl.cpp:116-121 | only the desired velocity changes, to the message |
| GeometryControl.UavGeometryControl.AdCallback | mmuav_control/src/UavGeometryControl.cpp:123-128 | only the desired acceleration changes, to the message |
| GeometryControl.UavGeometryControl.B1dCallback | mmuav_control/src/UavGeometryControl.cpp:130-135 | only the heading changes, to the message exactly (not normalised) |
| GeometryControl.UavGeometryControl.OmegadCallback | mmuav_control/src/UavGeometryControl.cpp:137-140 | only the desired angular-velocity matrix changes, to the hat of the message |
| GeometryControl.UavGeometryControl.AlphadCallback | mmuav_control/src/UavGeometryControl.cpp:142-145 | only the desired angular-acceleration matrix changes, to the hat of the message |
| GeometryControl.UavGeometryControl.ImuCallback | mmuav_control/src/UavGeometryControl.cpp:147-152 | the latch is set afterwards and nothing else changes |
| GeometryControl.UavGeometryControl.Tick | mmuav_control/src/UavGeometryControl.cpp:95-104 | the pass does work iff `Due` holds of the elapsed time; it then sets the last-round time to the second clock reading, and otherwise leaves it unchanged |
| GeometryControl.UavGeometryControl.ControlLoop | mmuav_control/src/UavGeometryControl.cpp:87-106 | the last-round time starts at the given clock reading; after the passes it and the number of working rounds are those of `RateGate.Run` |
| GeometryControl.LatchAfterConstruction | mmuav_control/src/UavGeometryControl.cpp:12-32 | from the state the constructor leaves, the latch is set after any sequence of callbacks iff an IMU sample was among them (line 152), and the gains are still 1, the rate the argument and the sleep duration 0.5 |

## Left out

- ROS plumbing is not modelled: the subscriptions (lines 35-54), `ros::spinOnce`,
  `ros::ok`, `ros::Time::now`, `ROS_INFO` and `main`'s node and parameter setup
  (lines 206-221). Clock readings are parameters, and `ControlLoop` ends when its
  readings run out, standing in for `ros::ok()` turning false.
- The two startup waits in `run` (lines 67-85) are not modelled. They only poll the
  external clock and the latch, and `sleep_duration_` is used only there.
  `ControlLoop` starts where they end, at line 87.
- Callbacks that `ros::spinOnce` runs between passes of the loop are separate methods.
  The pure model covers their arbitrary interleavings (`ApplyAll`).
- `quaternion2euler` (lines 192-204) and the Euler-rate conversion in `imu_cb`
  (lines 154-177) are single-precision trigonometry with no exact specification.
  `ImuCallback` models only the latch, and the IMU message carries no payload.
- The destructor (lines 57-60) is empty.
- All arithmetic is exact real arithmetic, not IEEE double. The hat entries are exact
  in floating point too, since they are copies and negations. The cross-product
  identity in `Geometry.Hat` holds only up to rounding in floating point. NaN and
  infinite inputs are not modelled.
- `RateGate.Due` at rate 0 models the floating-point value of `1.0 / 0`, which is
  +infinity, so no round is ever due. The header that declares the type of
  `controller_rate_` is not part of this model. It is taken to be an `int`, like the
  constructor's argument.
- `RateGate.StepSpacedByPeriod` and `RateGate.RoundsSpacedByPeriod` assume that each
  pass's second clock reading is not earlier than its first. A clock that jumps back
  between the two readings, as a reset simulated clock can, is not covered: a round
  can then leave the last-round time earlier than where the pass started.
- `t_old_` is not initialised by the constructor; the model makes no claim about its
  value before `ControlLoop` sets it.
- The control law, rotor allocation, centre-of-mass adaptation, desired-rate
  estimation and mode state machine are not in the modelled source file. There is
  nothing here to model them against.
