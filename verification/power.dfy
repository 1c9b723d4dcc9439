/** The awake/asleep power state: the shared record as a value, the two
    transitions `wakeup` and `gotosleep`, and the power-button rule. */
module Power {
  import opened Common

  /** The shared state dictionary together with the two hardware outputs that
      the transitions drive (the heater relay and the power LED). */
  datatype Snapshot = Snapshot(
    isAwake: bool,
    heating: bool,
    schedEnabled: bool,
    sleepTime: string,
    wakeTime: string,
    i: int,
    brewtemp: int,
    temp: real,
    avgtemp: real,
    pidval: real,
    avgpid: real,
    heaterOn: bool,
    ledOn: bool)

  /** The record the main program builds before it starts the loops; the
      entries it does not set (temp, avgtemp, pidval) read as 0 here. */
  function Initial(cfg: Config): (s: Snapshot)
    ensures s.isAwake == s.ledOn == cfg.initialOn
    ensures !s.heating && !s.heaterOn && s.i == 0 && s.avgpid == 0.0
    ensures s.brewtemp == cfg.brewTemp && s.schedEnabled == cfg.schedule
    ensures s.sleepTime == cfg.timeSleep && s.wakeTime == cfg.timeWake
  {
    Snapshot(cfg.initialOn, false, cfg.schedule, cfg.timeSleep, cfg.timeWake,
             0, cfg.brewTemp, 0.0, 0.0, 0.0, 0.0, false, cfg.initialOn)
  }

  /** Asleep, not heating, heater relay and LED off: the state `gotosleep` leaves. */
  predicate Dormant(s: Snapshot)
  {
    !s.isAwake && !s.heating && !s.heaterOn && !s.ledOn
  }

  /** `wakeup`: awake with the LED on; the heating flag, the heater and every
      other entry are left as they were. */
  function Wakeup(s: Snapshot): (r: Snapshot)
    ensures r.isAwake && r.ledOn
    ensures r.(isAwake := s.isAwake, ledOn := s.ledOn) == s
  {
    s.(isAwake := true, ledOn := true)
  }

  /** `gotosleep`: the dormant state, with every other entry left as it was. */
  function GotoSleep(s: Snapshot): (r: Snapshot)
    ensures Dormant(r)
    ensures r.(isAwake := s.isAwake, heating := s.heating,
               heaterOn := s.heaterOn, ledOn := s.ledOn) == s
  {
    s.(isAwake := false, heating := false, heaterOn := false, ledOn := false)
  }

  lemma WakeupIdempotent(s: Snapshot)
    ensures Wakeup(Wakeup(s)) == Wakeup(s)
  {
  }

  lemma GotoSleepIdempotent(s: Snapshot)
    ensures GotoSleep(GotoSleep(s)) == GotoSleep(s)
  {
  }

  /** Racing callers: whichever transition runs last decides the state, and a
      `wakeup` that ran before a `gotosleep` leaves no trace. */
  lemma LastTransitionWins(s: Snapshot)
    ensures GotoSleep(Wakeup(s)) == GotoSleep(s)
    ensures Wakeup(GotoSleep(s)).isAwake && !Wakeup(GotoSleep(s)).heaterOn
  {
  }

  /** One pass of the power-button loop after the button was held LOW for
      `tick` polls: a hold of two polls or more toggles the power state. */
  function Press(s: Snapshot, tick: nat): (r: Snapshot)
    ensures tick < 2 ==> r == s
    ensures tick >= 2 ==> r.isAwake == !s.isAwake && r.ledOn == r.isAwake
    ensures tick >= 2 && s.isAwake ==> Dormant(r)
    ensures tick >= 2 && !s.isAwake ==> r.heating == s.heating && r.heaterOn == s.heaterOn
    // nothing but the power state, the heating flag and the two outputs changes
    ensures r.(isAwake := s.isAwake, heating := s.heating, heaterOn := s.heaterOn, ledOn := s.ledOn) == s
  {
    if tick >= 2 then
      if s.isAwake then GotoSleep(s) else Wakeup(s)
    else
      s
  }

  /** Two qualifying presses bring the power state back to where it was. */
  lemma PressTwiceRestoresPower(s: Snapshot, t1: nat, t2: nat)
    requires t1 >= 2 && t2 >= 2
    ensures Press(Press(s, t1), t2).isAwake == s.isAwake
  {
  }

  /** The inner polling loop of the power-button loop: `low[k]` is the k-th
      reading of the button (true when the input reads LOW). The count stops at
      the first reading that is not LOW; if every reading given is LOW, the
      hold is still going on and the count so far is returned. */
  method HoldTicks(low: seq<bool>) returns (tick: nat)
    ensures tick <= |low|
    ensures forall k :: 0 <= k < tick ==> low[k]
    ensures tick < |low| ==> !low[tick]
  {
    tick := 0;
    while tick < |low| && low[tick]
      invariant tick <= |low|
      invariant forall k :: 0 <= k < tick ==> low[k]
    {
      tick := tick + 1;
    }
  }
}
