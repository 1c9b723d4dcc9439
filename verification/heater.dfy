/** Time-proportioning of the heater: one pass of the heating loop turns the
    averaged PID output into an on-time and an off-time within one period. */
module Heater {

  /** What one pass does: the value it leaves in the `heating` entry, how long
      the heater relay is held on, and how long the pass then waits with the
      relay off. The relay is off when the pass ends. */
  datatype Cycle = Cycle(heating: bool, onTime: real, offTime: real)

  /** One pass of the heating loop for the state read at its start. */
  function HeatingCycle(awake: bool, heating: bool, avgpid: real, boundary: real): (c: Cycle)
    requires boundary > 0.0
    ensures !awake ==> c == Cycle(heating, 0.0, 1.0)
    ensures awake && avgpid > 0.0 ==>
      c.heating && c.onTime == avgpid / boundary && c.onTime + c.offTime == 1.0
    ensures awake && avgpid <= 0.0 ==>
      !c.heating && c.onTime == 0.0 && c.offTime == -avgpid / boundary
  {
    if awake then
      if 0.0 < avgpid then
        Cycle(true, avgpid / boundary, 1.0 - avgpid / boundary)
      else
        Cycle(false, 0.0, -avgpid / boundary)
    else
      Cycle(heating, 0.0, 1.0)
  }

  /** Both waits of a pass are accepted by `sleep`, which rejects a negative
      duration. */
  predicate Feasible(c: Cycle)
  {
    c.onTime >= 0.0 && c.offTime >= 0.0
  }

  /** With the averaged output inside the controller's limits, both waits are
      non-negative, the heater is on for at most the whole period, and the
      pass never lasts longer than one period. */
  lemma DutyWithinPeriod(awake: bool, heating: bool, avgpid: real, boundary: real)
    requires boundary > 0.0 && -boundary <= avgpid <= boundary
    ensures var c := HeatingCycle(awake, heating, avgpid, boundary);
      Feasible(c) && c.onTime <= 1.0 && c.onTime + c.offTime <= 1.0
  {
    var c := HeatingCycle(awake, heating, avgpid, boundary);
    if awake && avgpid > 0.0 {
      assert avgpid / boundary <= 1.0 by { DivAtMostOne(avgpid, boundary); }
    } else if awake {
      assert -avgpid / boundary <= 1.0 by { DivAtMostOne(-avgpid, boundary); }
    }
  }

  lemma DivAtMostOne(x: real, b: real)
    requires b > 0.0 && x <= b
    ensures x / b <= 1.0
  {
  }

  /** While awake, a pass can run to its end exactly when the averaged output
      does not exceed the boundary; above it the second wait is negative. */
  lemma FeasibleIffWithinBoundary(heating: bool, avgpid: real, boundary: real)
    requires boundary > 0.0
    ensures Feasible(HeatingCycle(true, heating, avgpid, boundary)) <==> avgpid <= boundary
  {
    if avgpid > 0.0 {
      var q := avgpid / boundary;
      assert q * boundary == avgpid;
      assert q <= 1.0 <==> q * boundary <= boundary;
    }
  }

  /** The three reference points of time-proportioning: full output heats for
      the whole period, zero output does not heat and does not wait, and the
      most negative output keeps the heater off for the whole period. */
  lemma DutyEndpoints(heating: bool, boundary: real)
    requires boundary > 0.0
    ensures HeatingCycle(true, heating, boundary, boundary) == Cycle(true, 1.0, 0.0)
    ensures HeatingCycle(true, heating, 0.0, boundary) == Cycle(false, 0.0, 0.0)
    ensures HeatingCycle(true, heating, -boundary, boundary) == Cycle(false, 0.0, 1.0)
  {
    assert boundary / boundary == 1.0;
  }

  /** More output never means less heating time. */
  lemma OnTimeMonotone(heating: bool, p: real, q: real, boundary: real)
    requires boundary > 0.0 && p <= q
    ensures HeatingCycle(true, heating, p, boundary).onTime <= HeatingCycle(true, heating, q, boundary).onTime
  {
  }

  /** The loop leaves `heating` alone while the machine is asleep: a stale
      `true` survives any number of asleep passes. */
  lemma AsleepKeepsHeatingFlag(heating: bool, avgpid: real, boundary: real)
    requires boundary > 0.0
    ensures HeatingCycle(false, heating, avgpid, boundary).heating == heating
  {
  }
}
