/** The PID loop: per sample it records the reading and its fault flag, tests
    for sensor failure, chooses the gains, follows the set temperature, runs
    the controller and publishes the averages. */
module Pid {
  import opened Common
  import opened History
  import opened Shared

  /** The controller library: given the gains, the setpoint and the measured
      input, the output it would produce before applying its output limits.
      Its internal state (integral, last input) is folded into the function,
      which the caller may choose afresh for every sample. */
  type Controller = (Tuning, int, real) -> real

  /** The library's output limits. */
  function Clamp(x: real, lo: real, hi: real): (r: real)
    requires lo <= hi
    ensures lo <= r <= hi
    ensures lo <= x <= hi ==> r == x
    ensures x < lo ==> r == lo
    ensures x > hi ==> r == hi
  {
    if x < lo then lo else if x > hi then hi else x
  }

  /** Clamping never reverses the order of two outputs. */
  lemma ClampMonotone(x: real, y: real, lo: real, hi: real)
    requires lo <= hi && x <= y
    ensures Clamp(x, lo, hi) <= Clamp(y, lo, hi)
  {
  }

  datatype Gains = Cold | Warm

  /** Gain schedule without hysteresis: the aggressive cold gains while the
      averaged temperature is at most 90% of the set temperature. */
  function Regime(avgtemp: real, brewtemp: int): (g: Gains)
    ensures g == Cold <==> avgtemp <= 0.9 * brewtemp as real
  {
    if avgtemp <= 0.9 * brewtemp as real then Cold else Warm
  }

  function GainsOf(cfg: Config, g: Gains): Tuning
  {
    if g == Cold then cfg.cold else cfg.warm
  }

  /** The schedule is a threshold: once warm at some temperature, warm at
      every higher one. */
  lemma RegimeMonotone(a: real, b: real, brewtemp: int)
    requires a <= b && Regime(a, brewtemp) == Warm
    ensures Regime(b, brewtemp) == Warm
  {
  }

  /** At the set temperature (any positive one, so every accepted one) the
      warm gains are used. */
  lemma AtSetpointWarm(brewtemp: int)
    requires brewtemp > 0
    ensures Regime(brewtemp as real, brewtemp) == Warm
  {
  }

  class PidLoop {
    const cfg: Config
    var i: int                // the sample counter, published before it is incremented
    var pidhist: seq<real>
    var temphist: seq<real>
    var temperr: seq<int>
    var temp: real            // the last successful reading
    var lastsettemp: int
    var setpoint: int         // the controller's setpoint
    var tunings: Tuning       // the controller's gains

    ghost predicate Valid()
      reads this
    {
      cfg.Valid() && i >= 0 &&
      |pidhist| == cfg.pidHistLen && |temphist| == cfg.tempHistLen && |temperr| == cfg.tempHistLen &&
      Within(pidhist, cfg.boundary) && Flags(temperr) &&
      setpoint == lastsettemp
    }

    /** The loop's locals before its first pass; the controller starts with
        the cold gains and the current set temperature. */
    constructor (cfg: Config, brewtemp: int)
      requires cfg.Valid()
      ensures Valid() && this.cfg == cfg && i == 0
      ensures pidhist == Filled(cfg.pidHistLen, 0.0)
      ensures temphist == Filled(cfg.tempHistLen, 0.0)
      ensures temperr == Filled(cfg.tempHistLen, 0)
      ensures temp == 25.0 && lastsettemp == brewtemp && setpoint == brewtemp && tunings == cfg.cold
    {
      this.cfg := cfg;
      i := 0;
      pidhist := Filled(cfg.pidHistLen, 0.0);
      temphist := Filled(cfg.tempHistLen, 0.0);
      temperr := Filled(cfg.tempHistLen, 0);
      temp := 25.0;
      lastsettemp := brewtemp;
      setpoint := brewtemp;
      tunings := cfg.cold;
    }

    /** One pass of the PID loop. `reading` is the sensor's answer (`None`
        when the read raised), `controller` the library's computation for this
        sample. `alarm` says whether the sensor-failure test fired. */
    method Iteration(shared: SharedState, reading: Option<real>, controller: Controller) returns (alarm: bool)
      requires Valid()
      modifies this, shared
      ensures Valid()
      // the fault flag is always pushed; the temperature only on a good read
      ensures temperr == Shift(old(temperr), if reading.Some? then 0 else 1)
      ensures reading.Some? ==> temphist == Shift(old(temphist), reading.value) && temp == reading.value
      ensures reading.None? ==> temphist == old(temphist) && temp == old(temp)
      // the failure test as written, and the fact that it never fires
      ensures alarm == (SumInt(temperr) >= 5 * cfg.tempHistLen) && !alarm
      // gains and setpoint the controller ran with
      ensures tunings == GainsOf(cfg, Regime(Mean(temphist), shared.brewtemp))
      ensures setpoint == lastsettemp == shared.brewtemp
      ensures pidhist == Shift(old(pidhist),
        Clamp(controller(tunings, setpoint, Mean(temphist)), -cfg.boundary, cfg.boundary))
      // the counter and the published entries
      ensures i == old(i) + 1
      ensures shared.View() == old(shared.View()).(i := old(i), temp := temp, avgtemp := Mean(temphist),
        pidval := pidhist[|pidhist| - 1], avgpid := Mean(pidhist))
      ensures -cfg.boundary <= shared.avgpid <= cfg.boundary
    {
      alarm := RecordReading(reading);
      var avgtemp := Mean(temphist);
      var brew := shared.brewtemp;
      SelectGains(avgtemp, brew);
      var pidout := Clamp(controller(tunings, setpoint, avgtemp), -cfg.boundary, cfg.boundary);
      var avgpid := PushOutput(pidout);
      shared.Publish(i, temp, avgtemp, pidout, avgpid);
      i := i + 1;
    }

    /** Lines that read the sensor, push the fault flag and (on a good read)
        the temperature, and run the sensor-failure test. */
    method RecordReading(reading: Option<real>) returns (alarm: bool)
      requires Valid()
      modifies this`temperr, this`temphist, this`temp
      ensures Valid()
      ensures temperr == Shift(old(temperr), if reading.Some? then 0 else 1)
      ensures reading.Some? ==> temphist == Shift(old(temphist), reading.value) && temp == reading.value
      ensures reading.None? ==> temphist == old(temphist) && temp == old(temp)
      ensures alarm == (SumInt(temperr) >= 5 * cfg.tempHistLen) && !alarm
    {
      if reading.Some? {
        temp := reading.value;
        temperr := Shift(temperr, 0);
        temphist := Shift(temphist, temp);
      } else {
        temperr := Shift(temperr, 1);
      }
      SensorAlarmUnreachable(temperr);
      alarm := SumInt(temperr) >= 5 * cfg.tempHistLen;
    }

    /** Lines that choose the gains and follow a changed set temperature. */
    method SelectGains(avgtemp: real, brew: int)
      requires Valid()
      modifies this`tunings, this`setpoint, this`lastsettemp
      ensures Valid()
      ensures tunings == GainsOf(cfg, Regime(avgtemp, brew))
      ensures setpoint == lastsettemp == brew
    {
      if avgtemp <= 0.9 * brew as real {
        tunings := cfg.cold;
      } else {
        tunings := cfg.warm;
      }
      if brew != lastsettemp {
        setpoint := brew;
        lastsettemp := brew;
      }
    }

    /** Lines that push the clamped output and average the output history. */
    method PushOutput(pidout: real) returns (avgpid: real)
      requires Valid() && -cfg.boundary <= pidout <= cfg.boundary
      modifies this`pidhist
      ensures Valid()
      ensures pidhist == Shift(old(pidhist), pidout)
      ensures avgpid == Mean(pidhist) && -cfg.boundary <= avgpid <= cfg.boundary
    {
      ShiftKeepsWithin(pidhist, pidout, cfg.boundary);
      AppendThenDelete(pidhist, pidout);
      pidhist := (pidhist + [pidout])[1..];
      avgpid := Mean(pidhist);
      MeanWithin(pidhist, cfg.boundary);
    }
  }

  /** Consecutive passes publish consecutive sample numbers. */
  method TwoPasses(loop: PidLoop, shared: SharedState, r1: Option<real>, r2: Option<real>, c1: Controller, c2: Controller)
    requires loop.Valid()
    modifies loop, shared
    ensures loop.Valid() && loop.i == old(loop.i) + 2 && shared.i == old(loop.i) + 1
  {
    var a1 := loop.Iteration(shared, r1, c1);
    var a2 := loop.Iteration(shared, r2, c2);
  }
}
