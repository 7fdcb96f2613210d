/** The controller's setpoint store as a value: what the subscriber callbacks
    write, and what any sequence of incoming messages leaves behind. */
module ReferenceStore {
  import opened Geometry

  /** Everything the constructor initialises and the callbacks write. */
  datatype Store = Store(
    xD: Vec3,            // desired position
    vD: Vec3,            // desired velocity
    aD: Vec3,            // desired acceleration
    b1D: Vec3,           // desired heading, stored as received
    omegaD: Mat3,        // hat matrix of the desired angular velocity
    alphaD: Mat3,        // hat matrix of the desired angular acceleration
    kX: real, kV: real, kR: real, kOmega: real,
    controllerRate: int,
    sleepDuration: real,
    startFlag: bool)     // set by the first IMU sample

  /** One message delivered to a subscriber callback. The IMU sample's
      orientation and rates only feed the Euler conversion, which is not part
      of this model, so an IMU message carries no payload here. */
  datatype Message =
    | XDesired(v: Vec3)
    | VDesired(v: Vec3)
    | ADesired(v: Vec3)
    | B1Desired(v: Vec3)
    | OmegaDesired(v: Vec3)
    | AlphaDesired(v: Vec3)
    | Imu

  /** The field of the store that each kind of message writes. */
  datatype Slot = PositionSlot | VelocitySlot | AccelerationSlot | HeadingSlot
                | AngularVelocitySlot | AngularAccelerationSlot | StartSlot

  /** The content of one slot. */
  datatype Content = VecContent(vec: Vec3) | MatContent(mat: Mat3) | FlagContent(flag: bool)

  function SlotOf(m: Message): Slot
  {
    match m
    case XDesired(_) => PositionSlot
    case VDesired(_) => VelocitySlot
    case ADesired(_) => AccelerationSlot
    case B1Desired(_) => HeadingSlot
    case OmegaDesired(_) => AngularVelocitySlot
    case AlphaDesired(_) => AngularAccelerationSlot
    case Imu => StartSlot
  }

  function Read(s: Store, slot: Slot): Content
  {
    match slot
    case PositionSlot => VecContent(s.xD)
    case VelocitySlot => VecContent(s.vD)
    case AccelerationSlot => VecContent(s.aD)
    case HeadingSlot => VecContent(s.b1D)
    case AngularVelocitySlot => MatContent(s.omegaD)
    case AngularAccelerationSlot => MatContent(s.alphaD)
    case StartSlot => FlagContent(s.startFlag)
  }

  /** True when the store's gains, rate and sleep duration agree. */
  predicate SameConfiguration(s: Store, t: Store)
  {
    s.kX == t.kX && s.kV == t.kV && s.kR == t.kR && s.kOmega == t.kOmega &&
    s.controllerRate == t.controllerRate && s.sleepDuration == t.sleepDuration
  }

  /** What message m leaves in its own slot. */
  function Written(m: Message): Content
  {
    match m
    case OmegaDesired(v) => MatContent(Hat(v))
    case AlphaDesired(v) => MatContent(Hat(v))
    case Imu => FlagContent(true)
    case _ => VecContent(m.v)
  }

  /** The slots that some message of msgs writes. */
  function SlotsOf(msgs: seq<Message>): set<Slot>
  {
    set i | 0 <= i < |msgs| :: SlotOf(msgs[i])
  }

  /** The store the constructor leaves: zero setpoints, heading (1, 0, 0),
      unit gains, sleep duration 0.5, latch clear. */
  function Initial(rate: int): Store
  {
    Store(Zero, Zero, Zero, Vec3(1.0, 0.0, 0.0), ZeroMatrix, ZeroMatrix,
          1.0, 1.0, 1.0, 1.0, rate, 0.5, false)
  }

  /** The callback for message m. The three vector setpoints and the heading
      are copied component by component, with no normalisation; the two rate
      setpoints are stored as hat matrices; an IMU sample sets the start latch. */
  function Apply(s: Store, m: Message): (r: Store)
    ensures Read(r, SlotOf(m)) == Written(m)
    ensures forall slot :: slot != SlotOf(m) ==> Read(r, slot) == Read(s, slot)
    ensures SameConfiguration(r, s)
  {
    match m
    case XDesired(v) => s.(xD := Vec3(v.x, v.y, v.z))
    case VDesired(v) => s.(vD := Vec3(v.x, v.y, v.z))
    case ADesired(v) => s.(aD := Vec3(v.x, v.y, v.z))
    case B1Desired(v) => s.(b1D := Vec3(v.x, v.y, v.z))
    case OmegaDesired(v) => s.(omegaD := Hat(v))
    case AlphaDesired(v) => s.(alphaD := Hat(v))
    case Imu => if !s.startFlag then s.(startFlag := true) else s
  }

  /** The store after the messages are delivered in order. The last message
      decides the content of its slot, and a slot no message writes keeps its
      content. */
  function ApplyAll(s: Store, msgs: seq<Message>): (r: Store)
    ensures msgs != [] ==> Read(r, SlotOf(msgs[|msgs| - 1])) == Written(msgs[|msgs| - 1])
    ensures forall slot :: slot !in SlotsOf(msgs) ==> Read(r, slot) == Read(s, slot)
    decreases |msgs|
  {
    if msgs == [] then s
    else
      assert forall slot :: slot !in SlotsOf(msgs) ==> slot != SlotOf(msgs[0]) && slot !in SlotsOf(msgs[1..]) by {
        forall slot | slot !in SlotsOf(msgs)
          ensures slot != SlotOf(msgs[0]) && slot !in SlotsOf(msgs[1..])
        {
          assert SlotOf(msgs[0]) in SlotsOf(msgs);
          forall i | 0 <= i < |msgs[1..]| ensures SlotOf(msgs[1..][i]) != slot {
            assert msgs[1..][i] == msgs[i + 1];
          }
        }
      }
      ApplyAll(Apply(s, msgs[0]), msgs[1..])
  }

  /** Each slot written by some message holds what the last message written
      to it left there, however many messages for other slots follow. */
  lemma {:induction false} ApplyAllLastPerSlot(s: Store, msgs: seq<Message>, i: nat)
    requires i < |msgs|
    requires forall j | i < j < |msgs| :: SlotOf(msgs[j]) != SlotOf(msgs[i])
    ensures Read(ApplyAll(s, msgs), SlotOf(msgs[i])) == Written(msgs[i])
    decreases |msgs|
  {
    if i == 0 {
      var s' := Apply(s, msgs[0]);
      assert SlotOf(msgs[0]) !in SlotsOf(msgs[1..]) by {
        forall j | 0 <= j < |msgs[1..]| ensures SlotOf(msgs[1..][j]) != SlotOf(msgs[0]) {
          assert msgs[1..][j] == msgs[j + 1];
        }
      }
      assert Read(ApplyAll(s', msgs[1..]), SlotOf(msgs[0])) == Read(s', SlotOf(msgs[0]));
    } else {
      forall j | i - 1 < j < |msgs[1..]|
        ensures SlotOf(msgs[1..][j]) != SlotOf(msgs[1..][i - 1])
      {
        assert msgs[1..][j] == msgs[j + 1];
      }
      ApplyAllLastPerSlot(Apply(s, msgs[0]), msgs[1..], i - 1);
    }
  }

  /** The start latch: after any sequence of messages it is set exactly when
      it was set before or an IMU sample was among them. Nothing resets it. */
  lemma {:induction false} LatchIffImu(s: Store, msgs: seq<Message>)
    ensures ApplyAll(s, msgs).startFlag <==> s.startFlag || Imu in msgs
    decreases |msgs|
  {
    if msgs != [] {
      var s' := Apply(s, msgs[0]);
      assert Read(s', StartSlot) == FlagContent(s'.startFlag);
      assert s'.startFlag == (s.startFlag || msgs[0] == Imu);
      LatchIffImu(s', msgs[1..]);
      assert msgs == [msgs[0]] + msgs[1..];
    }
  }

  /** No message changes the gains, the rate or the sleep duration. */
  lemma {:induction false} ConfigurationFixed(s: Store, msgs: seq<Message>)
    ensures SameConfiguration(ApplyAll(s, msgs), s)
    decreases |msgs|
  {
    if msgs != [] {
      ConfigurationFixed(Apply(s, msgs[0]), msgs[1..]);
    }
  }

  /** Last value wins: a second message for the same slot overwrites the first. */
  lemma LastWriteWins(s: Store, a: Message, b: Message)
    requires SlotOf(a) == SlotOf(b)
    ensures Apply(Apply(s, a), b) == Apply(s, b)
  {
  }

  /** Messages for different slots may be delivered in either order. */
  lemma DistinctSlotsCommute(s: Store, a: Message, b: Message)
    requires SlotOf(a) != SlotOf(b)
    ensures Apply(Apply(s, a), b) == Apply(Apply(s, b), a)
  {
  }

  /** The heading callback stores every vector exactly as received: it does
      not normalise, so the stored heading keeps the message's length. */
  lemma HeadingKeptUnnormalised(s: Store, v: Vec3)
    ensures Apply(s, B1Desired(v)).b1D == v
    ensures Dot(Apply(s, B1Desired(v)).b1D, Apply(s, B1Desired(v)).b1D) == Dot(v, v)
  {
  }
}
