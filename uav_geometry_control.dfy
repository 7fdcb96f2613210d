/** The geometric controller object: its setpoint fields, the callbacks that
    overwrite them, the start latch and the rate gate of its control loop. */
module GeometryControl {
  import opened Geometry
  import opened ReferenceStore
  import opened RateGate

  /** The contents of a 3x3 array as a matrix value. */
  function Entries(m: array2<real>): Mat3
    reads m
    requires m.Length0 == 3 && m.Length1 == 3
  {
    Mat3(Vec3(m[0, 0], m[0, 1], m[0, 2]),
         Vec3(m[1, 0], m[1, 1], m[1, 2]),
         Vec3(m[2, 0], m[2, 1], m[2, 2]))
  }

  /** Eigen's setZero: every entry becomes 0. */
  method SetZero(m: array2<real>)
    modifies m
    ensures forall i, j | 0 <= i < m.Length0 && 0 <= j < m.Length1 :: m[i, j] == 0.0
  {
    forall i, j | 0 <= i < m.Length0 && 0 <= j < m.Length1 {
      m[i, j] := 0.0;
    }
  }

  class UavGeometryControl {
    var controllerRate: int
    var sleepDuration: real
    var startFlag: bool

    var xD: Vec3
    var vD: Vec3
    var aD: Vec3
    var b1D: Vec3
    var omegaD: array2<real>
    var alphaD: array2<real>

    var kX: real
    var kV: real
    var kR: real
    var kOmega: real

    /** Clock reading at the last round of the control loop that did work. */
    var tOld: real

    /** The two rate setpoints are separate 3x3 matrices. */
    ghost predicate Valid()
      reads this
    {
      omegaD.Length0 == 3 && omegaD.Length1 == 3 &&
      alphaD.Length0 == 3 && alphaD.Length1 == 3 &&
      omegaD != alphaD
    }

    /** The object's setpoints, gains, rate and latch as a value. */
    function State(): Store
      reads this, omegaD, alphaD
      requires Valid()
    {
      Store(xD, vD, aD, b1D, Entries(omegaD), Entries(alphaD),
            kX, kV, kR, kOmega, controllerRate, sleepDuration, startFlag)
    }

    /** Zero setpoints, heading (1, 0, 0), unit gains, latch clear. */
    constructor (rate: int)
      ensures Valid() && fresh(omegaD) && fresh(alphaD)
      ensures controllerRate == rate && sleepDuration == 0.5 && !startFlag
      ensures xD == Zero && vD == Zero && aD == Zero
      ensures Entries(omegaD) == ZeroMatrix && Entries(alphaD) == ZeroMatrix
      ensures b1D == Vec3(1.0, 0.0, 0.0)
      ensures kX == 1.0 && kV == 1.0 && kR == 1.0 && kOmega == 1.0
      ensures State() == Initial(rate)
    {
      controllerRate := rate;
      sleepDuration := 0.5;
      startFlag := false;

      xD := Zero;
      vD := Zero;
      aD := Zero;
      omegaD := new real[3, 3];
      alphaD := new real[3, 3];
      b1D := Zero;

      kX := 1.0;
      kV := 1.0;
      kR := 1.0;
      kOmega := 1.0;
      new;
      SetZero(omegaD);
      SetZero(alphaD);
      b1D := b1D.(x := 1.0);   // initial heading (1, 0, 0)
    }

    /** Writes the hat matrix of (x, y, z) into hatMatrix, whatever it held. */
    static method HatOperator(x: real, y: real, z: real, hatMatrix: array2<real>)
      requires hatMatrix.Length0 == 3 && hatMatrix.Length1 == 3
      modifies hatMatrix
      ensures Entries(hatMatrix) == Hat(Vec3(x, y, z))
    {
      SetZero(hatMatrix);
      assert hatMatrix[0, 0] == 0.0 && hatMatrix[1, 1] == 0.0 && hatMatrix[2, 2] == 0.0;
      hatMatrix[0, 1] := -z;
      hatMatrix[0, 2] := y;
      hatMatrix[1, 0] := z;
      hatMatrix[1, 2] := -x;
      hatMatrix[2, 0] := -y;
      hatMatrix[2, 1] := x;
      assert Entries(hatMatrix) == Mat3(Vec3(0.0, -z, y), Vec3(z, 0.0, -x), Vec3(-y, x, 0.0));
    }

    method XdCallback(msg: Vec3)
      requires Valid()
      modifies this`xD
      ensures Valid()
      ensures State() == Apply(old(State()), XDesired(msg))
    {
      xD := Vec3(msg.x, msg.y, msg.z);
    }

    method VdCallback(msg: Vec3)
      requires Valid()
      modifies this`vD
      ensures Valid()
      ensures State() == Apply(old(State()), VDesired(msg))
    {
      vD := Vec3(msg.x, msg.y, msg.z);
    }

    method AdCallback(msg: Vec3)
      requires Valid()
      modifies this`aD
      ensures Valid()
      ensures State() == Apply(old(State()), ADesired(msg))
    {
      aD := Vec3(msg.x, msg.y, msg.z);
    }

    /** Stores the heading as received, without normalising it. */
    method B1dCallback(msg: Vec3)
      requires Valid()
      modifies this`b1D
      ensures Valid()
      ensures b1D == msg
      ensures State() == Apply(old(State()), B1Desired(msg))
    {
      b1D := Vec3(msg.x, msg.y, msg.z);
    }

    method OmegadCallback(msg: Vec3)
      requires Valid()
      modifies omegaD
      ensures Valid()
      ensures State() == Apply(old(State()), OmegaDesired(msg))
    {
      HatOperator(msg.x, msg.y, msg.z, omegaD);
    }

    method AlphadCallback(msg: Vec3)
      requires Valid()
      modifies alphaD
      ensures Valid()
      ensures State() == Apply(old(State()), AlphaDesired(msg))
    {
      HatOperator(msg.x, msg.y, msg.z, alphaD);
    }

    /** The start latch of the IMU callback; the Euler conversion that follows
        it is not part of this model. */
    method ImuCallback()
      requires Valid()
      modifies this`startFlag
      ensures Valid()
      ensures startFlag
      ensures State() == Apply(old(State()), Imu)
    {
      if !startFlag {
        startFlag := true;
      }
    }

    /** One pass through the control loop: the clock reads `now`; a round
        that is due re-reads the clock as `stamp` into tOld. */
    method Tick(now: real, stamp: real) returns (worked: bool)
      modifies this`tOld
      ensures worked == Due(now - old(tOld), controllerRate)
      ensures tOld == if worked then stamp else old(tOld)
      ensures Outcome(tOld, if worked then 1 else 0)
              == Step(old(tOld), Poll(now, stamp), controllerRate)
    {
      var dt := now - tOld;
      // 1.0 / 0 is +infinity in floating point: dt is always below it.
      if controllerRate == 0 || dt < 1.0 / (controllerRate as real) {
        return false;
      }
      tOld := stamp;
      worked := true;
    }

    /** The control loop from the moment the latch is seen set: tOld starts
        at `start`, then one pass per poll, for as long as polls last.
        Returns the number of rounds that passed the gate. */
    method ControlLoop(start: real, polls: seq<Poll>) returns (rounds: nat)
      modifies this`tOld
      ensures Outcome(tOld, rounds) == Run(start, polls, controllerRate)
    {
      tOld := start;
      rounds := 0;
      var i := 0;
      while i < |polls|
        invariant 0 <= i <= |polls|
        invariant var rest := Run(tOld, polls[i..], controllerRate);
                  rest.tOld == Run(start, polls, controllerRate).tOld &&
                  rounds + rest.rounds == Run(start, polls, controllerRate).rounds
      {
        assert polls[i..][1..] == polls[i + 1..];
        var worked := Tick(polls[i].now, polls[i].stamp);
        if worked {
          rounds := rounds + 1;
        }
        i := i + 1;
      }
    }
  }

  /** From the store the constructor leaves, the latch is set after a
      sequence of callbacks exactly when an IMU sample was among them, and the
      gains, rate and sleep duration are still the constructor's. */
  lemma {:induction false} LatchAfterConstruction(rate: int, msgs: seq<Message>)
    ensures ApplyAll(Initial(rate), msgs).startFlag <==> Imu in msgs
    ensures var s := ApplyAll(Initial(rate), msgs);
            s.kX == 1.0 && s.kV == 1.0 && s.kR == 1.0 && s.kOmega == 1.0 &&
            s.controllerRate == rate && s.sleepDuration == 0.5
  {
    LatchIffImu(Initial(rate), msgs);
    ConfigurationFixed(Initial(rate), msgs);
  }
}
