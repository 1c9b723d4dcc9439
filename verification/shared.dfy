/** The shared state record as the loops see it: one object whose entries
    every loop reads and updates in place. */
module Shared {
  import opened Common
  import opened Power
  import Heater
  import Web

  class SharedState {
    var isAwake: bool
    var heating: bool
    var schedEnabled: bool
    var sleepTime: string
    var wakeTime: string
    var i: int
    var brewtemp: int
    var temp: real
    var avgtemp: real
    var pidval: real
    var avgpid: real
    var heaterOn: bool   // the heater relay output
    var ledOn: bool      // the power LED output

    /** The entries as one value. */
    function View(): Snapshot
      reads this
    {
      Snapshot(isAwake, heating, schedEnabled, sleepTime, wakeTime, i, brewtemp,
               temp, avgtemp, pidval, avgpid, heaterOn, ledOn)
    }

    /** The record the main program fills in before it starts the loops. */
    constructor (cfg: Config)
      ensures View() == Initial(cfg)
    {
      isAwake, heating, schedEnabled := cfg.initialOn, false, cfg.schedule;
      sleepTime, wakeTime := cfg.timeSleep, cfg.timeWake;
      i, brewtemp := 0, cfg.brewTemp;
      temp, avgtemp, pidval, avgpid := 0.0, 0.0, 0.0, 0.0;
      heaterOn, ledOn := false, cfg.initialOn;
    }

    method Wakeup()
      modifies this
      ensures View() == Power.Wakeup(old(View()))
    {
      isAwake := true;
      ledOn := true;
    }

    method GotoSleep()
      modifies this
      ensures View() == Power.GotoSleep(old(View()))
      ensures Dormant(View())
    {
      isAwake := false;
      heating := false;
      heaterOn := false;
      ledOn := false;
    }

    /** One pass of the power-button loop over the button readings `low`. The
        toggle rule runs only once a reading that is not LOW ends the hold; if
        every reading given is LOW the pass is still polling and nothing has
        changed yet. */
    method PowerLoopPass(low: seq<bool>) returns (tick: nat)
      modifies this
      ensures tick <= |low| && forall k :: 0 <= k < tick ==> low[k]
      ensures tick < |low| ==> !low[tick]
      ensures tick < |low| ==> View() == Press(old(View()), tick)
      ensures tick == |low| ==> View() == old(View())
    {
      tick := HoldTicks(low);
      if tick < |low| && tick >= 2 {
        if isAwake {
          GotoSleep();
        } else {
          Wakeup();
        }
      }
    }

    /** One pass of the heating loop; the relay is switched on for
        `c.onTime` and is off again when the pass returns. */
    method HeatingPass(boundary: real) returns (c: Heater.Cycle)
      requires boundary > 0.0
      modifies this
      ensures c == Heater.HeatingCycle(old(isAwake), old(heating), old(avgpid), boundary)
      ensures View() == old(View()).(heating := c.heating, heaterOn := false)
    {
      if isAwake {
        var p := avgpid;
        if 0.0 < p {
          heating := true;
          // the relay is switched on for `c.onTime`, then off for the rest
          heaterOn := false;
          c := Heater.Cycle(true, p / boundary, 1.0 - p / boundary);
        } else {
          heating := false;
          heaterOn := false;
          c := Heater.Cycle(false, 0.0, -p / boundary);
        }
      } else {
        heaterOn := false;
        c := Heater.Cycle(heating, 0.0, 1.0);
      }
    }

    /** The entries the PID loop publishes after each sample. */
    method Publish(i: int, temp: real, avgtemp: real, pidval: real, avgpid: real)
      modifies this
      ensures View() == old(View()).(i := i, temp := temp, avgtemp := avgtemp, pidval := pidval, avgpid := avgpid)
    {
      this.i := i;
      this.temp := temp;
      this.avgtemp := avgtemp;
      this.pidval := pidval;
      this.avgpid := avgpid;
    }

    /** `POST /brewtemp` */
    method SetBrewTemp(settemp: int) returns (reply: Web.Reply)
      modifies this
      ensures reply == Web.SetBrewTemp(old(View()), settemp).reply
      ensures View() == Web.SetBrewTemp(old(View()), settemp).state
    {
      if 80 <= settemp <= 120 {
        brewtemp := settemp;
        reply := Web.Echo(settemp);
      } else {
        reply := Web.BadRequest(400);
      }
    }
  }
}
