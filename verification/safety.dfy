/** The invariant of the shared record, checked against every way the loops
    and the web interface write it, one whole pass at a time: the set
    temperature stays in range, the averaged PID output stays inside the
    controller's limits, the LED shows the power state, the heater relay is
    off between passes, and nothing asks for heat while the machine is asleep. */
module Safety {
  import opened Common
  import opened Power
  import Heater
  import Web

  /** One write to the shared record by one of the loops or requests. */
  datatype Event =
    | TurnOn                      // wakeup: button, scheduler, GET /turnon
    | TurnOff                     // gotosleep: button, scheduler, GET /turnoff, watchdog exit
    | ButtonPass(tick: nat)       // a pass of the power-button loop
    | HeatPass                    // a pass of the heating loop
    | Publish(i: int, temp: real, avgtemp: real, pidval: real, avgpid: real)   // a pass of the PID loop
    | SetBrewTemp(settemp: int)   // POST /brewtemp
    | SetWake(wake: string)       // POST /setwake
    | SetSleep(sleep: string)     // POST /setsleep
    | SetScheduler(on: bool)      // POST /scheduler

  function Apply(cfg: Config, s: Snapshot, e: Event): Snapshot
    requires cfg.Valid()
  {
    match e
    case TurnOn => Wakeup(s)
    case TurnOff => GotoSleep(s)
    case ButtonPass(tick) => Press(s, tick)
    case HeatPass =>
      var c := Heater.HeatingCycle(s.isAwake, s.heating, s.avgpid, cfg.boundary);
      s.(heating := c.heating, heaterOn := false)
    case Publish(i, temp, avgtemp, pidval, avgpid) =>
      s.(i := i, temp := temp, avgtemp := avgtemp, pidval := pidval, avgpid := avgpid)
    case SetBrewTemp(v) => Web.SetBrewTemp(s, v).state
    case SetWake(w) => s.(wakeTime := w)
    case SetSleep(t) => s.(sleepTime := t)
    case SetScheduler(on) => s.(schedEnabled := on)
  }

  function RunEvents(cfg: Config, s: Snapshot, es: seq<Event>): Snapshot
    requires cfg.Valid()
    decreases |es|
  {
    if es == [] then s else RunEvents(cfg, Apply(cfg, s, es[0]), es[1..])
  }

  /** An event the loops can produce: the PID loop only publishes an averaged
      output inside the controller's limits, as `Pid.PidLoop.Iteration`
      ensures. Every other event is unrestricted. */
  predicate Possible(cfg: Config, e: Event)
  {
    e.Publish? ==> -cfg.boundary <= e.avgpid <= cfg.boundary
  }

  predicate Inv(cfg: Config, s: Snapshot)
  {
    Web.AcceptedBrewTemp(s.brewtemp) &&
    -cfg.boundary <= s.avgpid <= cfg.boundary &&
    s.ledOn == s.isAwake &&
    !s.heaterOn &&
    (!s.isAwake ==> !s.heating)
  }

  /** The record the main program builds satisfies the invariant when the
      configured brew temperature is in range (the program does not check it). */
  lemma InitialInv(cfg: Config)
    requires cfg.Valid() && Web.AcceptedBrewTemp(cfg.brewTemp)
    ensures Inv(cfg, Initial(cfg))
  {
  }

  lemma ApplyKeepsInv(cfg: Config, s: Snapshot, e: Event)
    requires cfg.Valid() && Inv(cfg, s) && Possible(cfg, e)
    ensures Inv(cfg, Apply(cfg, s, e))
  {
  }

  /** Every sequence of whole passes and requests keeps the invariant. */
  lemma {:induction false} RunKeepsInv(cfg: Config, s: Snapshot, es: seq<Event>)
    requires cfg.Valid() && Inv(cfg, s)
    requires forall k :: 0 <= k < |es| ==> Possible(cfg, es[k])
    ensures Inv(cfg, RunEvents(cfg, s, es))
    decreases |es|
  {
    if es != [] {
      ApplyKeepsInv(cfg, s, es[0]);
      assert forall k :: 0 <= k < |es[1..]| ==> es[1..][k] == es[k + 1];
      RunKeepsInv(cfg, Apply(cfg, s, es[0]), es[1..]);
    }
  }

  /** In every run, every heating pass can run to its end: both its waits are
      non-negative and it lasts at most one period. */
  lemma HeatPassesFeasible(cfg: Config, s: Snapshot, es: seq<Event>, k: nat)
    requires cfg.Valid() && Inv(cfg, s)
    requires forall j :: 0 <= j < |es| ==> Possible(cfg, es[j])
    requires k < |es| && es[k] == HeatPass
    ensures var before := RunEvents(cfg, s, es[..k]);
      var c := Heater.HeatingCycle(before.isAwake, before.heating, before.avgpid, cfg.boundary);
      Heater.Feasible(c) && c.onTime + c.offTime <= 1.0
  {
    assert forall j :: 0 <= j < |es[..k]| ==> es[..k][j] == es[j];
    RunKeepsInv(cfg, s, es[..k]);
    var before := RunEvents(cfg, s, es[..k]);
    Heater.DutyWithinPeriod(before.isAwake, before.heating, before.avgpid, cfg.boundary);
  }

  /** Whatever happened before, a final `gotosleep` leaves the heater off and
      nothing asking for heat: the exit path with `gotosleep` run before
      `killall` (`Watchdog.ExitSleepFirst`). */
  lemma {:induction false} ExitPathIsDormant(cfg: Config, s: Snapshot, es: seq<Event>)
    requires cfg.Valid()
    ensures Dormant(RunEvents(cfg, s, es + [TurnOff]))
    decreases |es|
  {
    if es == [] {
      assert RunEvents(cfg, s, [TurnOff]) == RunEvents(cfg, GotoSleep(s), []);
    } else {
      assert (es + [TurnOff])[1..] == es[1..] + [TurnOff];
      ExitPathIsDormant(cfg, Apply(cfg, s, es[0]), es[1..]);
    }
  }

  /** A run of events the loops can produce, ended by the exit's `gotosleep`,
      leaves a record that is dormant and still keeps the brew temperature
      and the averaged output inside their ranges. */
  lemma ExitKeepsInv(cfg: Config, s: Snapshot, es: seq<Event>)
    requires cfg.Valid() && Inv(cfg, s)
    requires forall k :: 0 <= k < |es| ==> Possible(cfg, es[k])
    ensures var r := RunEvents(cfg, s, es + [TurnOff]);
      Inv(cfg, r) && Dormant(r)
  {
    var all := es + [TurnOff];
    assert forall k :: 0 <= k < |all| ==> Possible(cfg, all[k]) by {
      forall k | 0 <= k < |all|
        ensures Possible(cfg, all[k])
      {
        if k < |es| {
          assert all[k] == es[k];
        }
      }
    }
    RunKeepsInv(cfg, s, all);
    ExitPathIsDormant(cfg, s, es);
  }
}
