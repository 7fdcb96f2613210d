/** The fixed-rate gate of the control loop: a round does work only when at
    least one period 1 / rate has passed since the last round that did. */
module RateGate {

  /** The gate's test. A round is skipped while `dt < 1.0 / rate`. The rate is
      an integer; in floating point 1.0 / 0 is +infinity, which no finite
      elapsed time reaches, so at rate 0 no round is ever due. */
  function Due(dt: real, rate: int): (due: bool)
    ensures rate > 0 ==> (due <==> dt * (rate as real) >= 1.0)
    ensures rate == 0 ==> !due
    ensures rate < 0 ==> (due <==> dt * (rate as real) <= 1.0)
    ensures rate < 0 && dt >= 0.0 ==> due
  {
    if rate == 0 then false
    else
      var period := 1.0 / (rate as real);
      assert rate > 0 ==> (dt >= period <==> dt * (rate as real) >= 1.0) by {
        if rate > 0 {
          assert period * (rate as real) == 1.0;
          if dt >= period {
            assert dt * (rate as real) >= period * (rate as real);
          } else {
            assert dt * (rate as real) < period * (rate as real);
          }
        }
      }
      assert rate < 0 ==> (dt >= period <==> dt * (rate as real) <= 1.0) by {
        if rate < 0 {
          assert period * (rate as real) == 1.0;
          if dt >= period {
            assert dt * (rate as real) <= period * (rate as real);
          } else {
            assert dt * (rate as real) > period * (rate as real);
          }
        }
      }
      !(dt < period)
  }

  /** One pass through the loop: the clock is read at `now`; if the round is
      due, the last-round time is re-read from the clock as `stamp`. */
  datatype Poll = Poll(now: real, stamp: real)

  /** The last-round time and the number of rounds that did work. */
  datatype Outcome = Outcome(tOld: real, rounds: nat)

  /** One pass: it does work exactly when the round is due, and only a pass
      that does work moves the last-round time, to its second clock reading. */
  function Step(tOld: real, p: Poll, rate: int): (r: Outcome)
    ensures r.rounds <= 1
    ensures r.rounds == 1 <==> Due(p.now - tOld, rate)
    ensures r.tOld == if r.rounds == 1 then p.stamp else tOld
  {
    if Due(p.now - tOld, rate) then Outcome(p.stamp, 1) else Outcome(tOld, 0)
  }

  /** The gate over a sequence of passes through the loop. */
  function Run(tOld: real, polls: seq<Poll>, rate: int): (r: Outcome)
    ensures r.rounds <= |polls|
    ensures r.rounds == 0 ==> r.tOld == tOld
    ensures r.rounds > 0 ==> exists i | 0 <= i < |polls| :: r.tOld == polls[i].stamp
    decreases |polls|
  {
    if polls == [] then Outcome(tOld, 0)
    else
      var first := Step(tOld, polls[0], rate);
      var rest := Run(first.tOld, polls[1..], rate);
      assert rest.rounds > 0 ==> exists i | 0 <= i < |polls| :: rest.tOld == polls[i].stamp by {
        if rest.rounds > 0 {
          var j :| 0 <= j < |polls[1..]| && rest.tOld == polls[1..][j].stamp;
          assert polls[1..][j] == polls[j + 1];
        }
      }
      Outcome(rest.tOld, first.rounds + rest.rounds)
  }

  /** A clock whose second reading in a pass is never earlier than the first. */
  ghost predicate StampsNotEarlier(polls: seq<Poll>)
  {
    forall i | 0 <= i < |polls| :: polls[i].now <= polls[i].stamp
  }

  /** From t0 to t1 there is room for n periods of 1 / rate. */
  ghost predicate SpansPeriods(t0: real, t1: real, rate: int, n: nat)
  {
    (t1 - t0) * (rate as real) >= n as real
  }

  /** At a positive rate, n rounds that do work span at least n periods:
      (last-round time - start) * rate >= n. */
  lemma {:induction false} RoundsSpacedByPeriod(tOld: real, polls: seq<Poll>, rate: int)
    requires rate > 0
    requires StampsNotEarlier(polls)
    ensures var r := Run(tOld, polls, rate); SpansPeriods(tOld, r.tOld, rate, r.rounds)
    decreases |polls|
  {
    if polls != [] {
      var first := Step(tOld, polls[0], rate);
      assert StampsNotEarlier(polls[1..]) by {
        forall i | 0 <= i < |polls[1..]| ensures polls[1..][i].now <= polls[1..][i].stamp {
          assert polls[1..][i] == polls[i + 1];
        }
      }
      var rest := Run(first.tOld, polls[1..], rate);
      assert Run(tOld, polls, rate) == Outcome(rest.tOld, first.rounds + rest.rounds);
      RoundsSpacedByPeriod(first.tOld, polls[1..], rate);
      StepSpacedByPeriod(tOld, polls[0], rate);
      SpacingsAdd(tOld, first.tOld, rest.tOld, rate, first.rounds, rest.rounds);
    }
  }

  /** A single round that does work moves the last-round time by at least a period. */
  lemma StepSpacedByPeriod(tOld: real, p: Poll, rate: int)
    requires rate > 0 && p.now <= p.stamp
    ensures var r := Step(tOld, p, rate); SpansPeriods(tOld, r.tOld, rate, r.rounds)
  {
    if Due(p.now - tOld, rate) {
      ScaleMonotone(p.now - tOld, p.stamp - tOld, rate as real);
    }
  }

  /** Scaling by a non-negative factor keeps the order. */
  lemma ScaleMonotone(a: real, b: real, k: real)
    requires a <= b && k >= 0.0
    ensures a * k <= b * k
  {
  }

  /** Spacings of consecutive stretches add up. */
  lemma SpacingsAdd(t0: real, t1: real, t2: real, rate: int, n1: nat, n2: nat)
    requires SpansPeriods(t0, t1, rate, n1) && SpansPeriods(t1, t2, rate, n2)
    ensures SpansPeriods(t0, t2, rate, n1 + n2)
  {
    var k := rate as real;
    assert (t2 - t0) * k == (t2 - t1) * k + (t1 - t0) * k;
  }

  /** At rate 0 no round ever does work and the last-round time never moves. */
  lemma {:induction false} NothingDueAtRateZero(tOld: real, polls: seq<Poll>)
    ensures Run(tOld, polls, 0) == Outcome(tOld, 0)
    decreases |polls|
  {
    if polls != [] {
      NothingDueAtRateZero(tOld, polls[1..]);
    }
  }
}
