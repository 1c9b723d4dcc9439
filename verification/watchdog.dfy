/** The supervisory loop of the main program: once per tick it checks that
    the PID loop's counter moved, probes the web server and reads the CPU
    temperature, and escalates after ten failures of each kind. */
module Watchdog {
  import opened Power
  import opened Shared

  datatype Counters = Counters(lasti: int, piderr: nat, weberr: nat, cpuhot: nat)

  /** The health probe's answer: a status code, or an exception (timeout,
      refused connection). */
  datatype Probe = Status(code: int) | Raised

  /** What one tick reads: whether all five loops are alive (the loop test),
      the published sample counter, the probe's answer and the CPU
      temperature in °C. */
  datatype Observation = Observation(allAlive: bool, curi: int, probe: Probe, cpuTemp: real)

  /** What one tick orders: terminate the PID process, terminate the web
      process, shut the system down. */
  datatype Actions = Actions(terminatePid: bool, terminateWeb: bool, shutdown: bool)

  datatype TickResult = TickResult(counters: Counters, actions: Actions)

  predicate ProbeFailed(p: Probe)
  {
    p.Raised? || p.code != 200
  }

  predicate Hot(o: Observation)
  {
    o.cpuTemp > 70.0
  }

  /** The counters before the first tick. */
  function Start(i: int): Counters
  {
    Counters(i, 0, 0, 0)
  }

  /** One pass of the loop body. */
  function Tick(c: Counters, o: Observation): (t: TickResult)
    ensures t.counters.lasti == o.curi
    ensures t.counters.piderr == if o.curi == c.lasti then c.piderr + 1 else 0
    ensures t.counters.weberr == c.weberr + (if ProbeFailed(o.probe) then 1 else 0)
    ensures t.counters.cpuhot == c.cpuhot + (if Hot(o) then 1 else 0)
    ensures t.actions.terminatePid <==> t.counters.piderr >= 10
    ensures t.actions.terminateWeb <==> t.counters.weberr >= 10
    ensures t.actions.shutdown <==> Hot(o) && t.counters.cpuhot >= 10
  {
    var piderr := if o.curi == c.lasti then c.piderr + 1 else 0;
    var weberr := if ProbeFailed(o.probe) then c.weberr + 1 else c.weberr;
    var cpuhot := if Hot(o) then c.cpuhot + 1 else c.cpuhot;
    TickResult(Counters(o.curi, piderr, weberr, cpuhot),
               Actions(piderr > 9, weberr > 9, Hot(o) && cpuhot > 9))
  }

  /** The counters after the ticks `obs`, in order. */
  function Run(c: Counters, obs: seq<Observation>): Counters
  {
    if obs == [] then c else Tick(Run(c, obs[..|obs| - 1]), obs[|obs| - 1]).counters
  }

  /** Tick `k` saw the same counter as the tick before it (or, for the first
      tick, as the value read before the loop). */
  predicate Stalled(lasti: int, obs: seq<Observation>, k: int)
    requires 0 <= k < |obs|
  {
    obs[k].curi == if k == 0 then lasti else obs[k - 1].curi
  }

  /** The last `n` ticks all stalled. */
  predicate StalledFor(lasti: int, obs: seq<Observation>, n: nat)
  {
    n <= |obs| && forall k :: |obs| - n <= k < |obs| ==> Stalled(lasti, obs, k)
  }

  function Failures(obs: seq<Observation>): nat
  {
    if obs == [] then 0
    else Failures(obs[..|obs| - 1]) + (if ProbeFailed(obs[|obs| - 1].probe) then 1 else 0)
  }

  function HotTicks(obs: seq<Observation>): nat
  {
    if obs == [] then 0
    else HotTicks(obs[..|obs| - 1]) + (if Hot(obs[|obs| - 1]) then 1 else 0)
  }

  /** The stall counter is the number of trailing stalled ticks: it is at
      least `n` exactly when the last `n` ticks stalled, and any tick that saw
      the counter move brought it back to 0. */
  lemma {:induction false} StallCount(i0: int, obs: seq<Observation>, n: nat)
    ensures Run(Start(i0), obs).piderr >= n <==> StalledFor(i0, obs, n)
    ensures Run(Start(i0), obs).lasti == if obs == [] then i0 else obs[|obs| - 1].curi
  {
    if obs != [] {
      var init := obs[..|obs| - 1];
      var last := |obs| - 1;
      StallCount(i0, init, 0);
      if n > 0 {
        StallCount(i0, init, n - 1);
        if StalledFor(i0, obs, n) {
          assert Stalled(i0, obs, last);
          forall k | |init| - (n - 1) <= k < |init|
            ensures Stalled(i0, init, k)
          {
            assert Stalled(i0, obs, k);
          }
        }
        if Run(Start(i0), obs).piderr >= n {
          assert Stalled(i0, obs, last);
          forall k | |obs| - n <= k < |obs|
            ensures Stalled(i0, obs, k)
          {
            if k < last {
              assert Stalled(i0, init, k);
            }
          }
        }
      }
    }
  }

  /** The web and CPU counters are never reset: they count every failed probe
      and every hot reading since the watchdog started. */
  lemma {:induction false} CumulativeCounts(i0: int, obs: seq<Observation>)
    ensures Run(Start(i0), obs).weberr == Failures(obs)
    ensures Run(Start(i0), obs).cpuhot == HotTicks(obs)
  {
    if obs != [] {
      CumulativeCounts(i0, obs[..|obs| - 1]);
    }
  }

  /** The actions of tick `k` of the trace `obs`. */
  function ActionsAt(c: Counters, obs: seq<Observation>, k: nat): Actions
    requires k < |obs|
  {
    Tick(Run(c, obs[..k]), obs[k]).actions
  }

  /** Running one more tick of the same trace. */
  lemma RunExtends(c: Counters, obs: seq<Observation>, k: nat)
    requires k < |obs|
    ensures Run(c, obs[..k + 1]) == Tick(Run(c, obs[..k]), obs[k]).counters
  {
    assert obs[..k + 1][..k] == obs[..k];
  }

  /** The PID process is terminated at tick `k` exactly when that tick and
      the nine before it all saw an unchanged counter. */
  lemma PidTerminatedIffStalledTenTicks(i0: int, obs: seq<Observation>, k: nat)
    requires k < |obs|
    ensures ActionsAt(Start(i0), obs, k).terminatePid <==> StalledFor(i0, obs[..k + 1], 10)
  {
    RunExtends(Start(i0), obs, k);
    StallCount(i0, obs[..k + 1], 10);
  }

  /** The web process is terminated at the tenth failed probe since start,
      consecutive or not, and at every tick after it. */
  lemma WebTerminatedIffTenFailures(i0: int, obs: seq<Observation>, k: nat)
    requires k < |obs|
    ensures ActionsAt(Start(i0), obs, k).terminateWeb <==> Failures(obs[..k + 1]) >= 10
  {
    RunExtends(Start(i0), obs, k);
    CumulativeCounts(i0, obs[..k + 1]);
  }

  /** Shutdown is ordered at a hot tick once ten hot readings, consecutive or
      not, have been seen since start. */
  lemma ShutdownIffTenHotReadings(i0: int, obs: seq<Observation>, k: nat)
    requires k < |obs|
    ensures ActionsAt(Start(i0), obs, k).shutdown <==> Hot(obs[k]) && HotTicks(obs[..k + 1]) >= 10
  {
    RunExtends(Start(i0), obs, k);
    CumulativeCounts(i0, obs[..k + 1]);
  }

  /** The exit path as written, `killall python3` and then `gotosleep`.
      `killall` also signals the main process, which runs as `python3`, and
      the Manager process that holds the record: `survives` says whether both
      outlive it. If either does not, `gotosleep` never runs or raises at its
      first write, and the record is left as it was. */
  function ExitKillallFirst(s: Snapshot, survives: bool): Snapshot
  {
    if survives then GotoSleep(s) else s
  }

  /** The exit path with `gotosleep` before `killall python3`. */
  function ExitSleepFirst(s: Snapshot): Snapshot
  {
    GotoSleep(s)
  }

  /** As written, an exit in which `killall` ends the main process or the
      Manager leaves an awake machine awake, and a heating one heating. */
  lemma KillallFirstCanStayAwake(s: Snapshot)
    ensures ExitKillallFirst(s, false).isAwake == s.isAwake
    ensures ExitKillallFirst(s, false).heating == s.heating
    ensures s.isAwake ==> !Dormant(ExitKillallFirst(s, false))
  {
  }

  /** As written, the exit reaches the dormant state only when the main process
      and the Manager survive the `killall`, or the machine was dormant already. */
  lemma KillallFirstDormantIff(s: Snapshot, survives: bool)
    ensures Dormant(ExitKillallFirst(s, survives)) <==> survives || Dormant(s)
  {
  }

  /** With the calls swapped, every exit ends dormant. */
  lemma SleepFirstIsDormant(s: Snapshot)
    ensures Dormant(ExitSleepFirst(s))
    ensures ExitSleepFirst(s) == GotoSleep(s)
  {
  }

  class Supervisor {
    var lasti: int
    var piderr: nat
    var weberr: nat
    var cpuhot: nat

    function Current(): Counters
      reads this
    {
      Counters(lasti, piderr, weberr, cpuhot)
    }

    /** `lasti` is read from the shared record before the loop starts. */
    constructor (i: int)
      ensures Current() == Start(i)
    {
      lasti, piderr, weberr, cpuhot := i, 0, 0, 0;
    }

    /** One pass of the loop body. */
    method Pass(o: Observation) returns (acts: Actions)
      modifies this
      ensures Current() == Tick(old(Current()), o).counters
      ensures acts == Tick(old(Current()), o).actions
    {
      var curi := o.curi;
      if curi == lasti {
        piderr := piderr + 1;
      } else {
        piderr := 0;
      }
      lasti := curi;
      var terminatePid := piderr > 9;

      if ProbeFailed(o.probe) {
        weberr := weberr + 1;
      }
      var terminateWeb := weberr > 9;

      var shutdown := false;
      if Hot(o) {
        cpuhot := cpuhot + 1;
        shutdown := cpuhot > 9;
      }
      acts := Actions(terminatePid, terminateWeb, shutdown);
    }

    /** The supervisory loop over the ticks `obs`: it runs while all loops are
        alive. `ticks` is the number of passes made; if every observation
        shows all loops alive, the loop is still running. */
    method Watch(obs: seq<Observation>) returns (ticks: nat, log: seq<Actions>)
      modifies this
      ensures ticks <= |obs| && |log| == ticks
      ensures forall k :: 0 <= k < ticks ==> obs[k].allAlive
      ensures ticks < |obs| ==> !obs[ticks].allAlive
      ensures Current() == Run(old(Current()), obs[..ticks])
      ensures forall k :: 0 <= k < ticks ==> log[k] == ActionsAt(old(Current()), obs, k)
    {
      ghost var c0 := Current();
      ticks, log := 0, [];
      while ticks < |obs| && obs[ticks].allAlive
        invariant ticks <= |obs| && |log| == ticks
        invariant forall k :: 0 <= k < ticks ==> obs[k].allAlive
        invariant Current() == Run(c0, obs[..ticks])
        invariant forall k :: 0 <= k < ticks ==> log[k] == ActionsAt(c0, obs, k)
      {
        RunExtends(c0, obs, ticks);
        var acts := Pass(obs[ticks]);
        log := log + [acts];
        ticks := ticks + 1;
      }
    }

    /** The loop followed by the exit path as the program has it: when a loop
        has died, `killall python3` is ordered (`killall`) and only then
        `gotosleep` runs, if the main process and the Manager survive the
        `killall` (`survives`). */
    method Supervise(shared: SharedState, obs: seq<Observation>, survives: bool)
      returns (ticks: nat, log: seq<Actions>, killall: bool)
      modifies this, shared
      ensures ticks <= |obs| && |log| == ticks
      ensures forall k :: 0 <= k < ticks ==> obs[k].allAlive
      ensures Current() == Run(old(Current()), obs[..ticks])
      ensures forall k :: 0 <= k < ticks ==> log[k] == ActionsAt(old(Current()), obs, k)
      ensures killall <==> ticks < |obs|
      ensures ticks < |obs| ==>
        !obs[ticks].allAlive && shared.View() == ExitKillallFirst(old(shared.View()), survives)
      ensures ticks == |obs| ==> shared.View() == old(shared.View())
    {
      ticks, log := Watch(obs);
      killall := ticks < |obs|;
      if killall && survives {
        shared.GotoSleep();
      }
    }

    /** The loop followed by the exit path with its two calls swapped:
        `gotosleep` runs first and `killall python3` after it, so the record
        ends dormant whatever the `killall` ends. */
    method SuperviseSleepFirst(shared: SharedState, obs: seq<Observation>)
      returns (ticks: nat, log: seq<Actions>, killall: bool)
      modifies this, shared
      ensures ticks <= |obs| && |log| == ticks
      ensures forall k :: 0 <= k < ticks ==> obs[k].allAlive
      ensures Current() == Run(old(Current()), obs[..ticks])
      ensures forall k :: 0 <= k < ticks ==> log[k] == ActionsAt(old(Current()), obs, k)
      ensures killall <==> ticks < |obs|
      ensures ticks < |obs| ==>
        !obs[ticks].allAlive && Dormant(shared.View()) && shared.View() == ExitSleepFirst(old(shared.View()))
      ensures ticks == |obs| ==> shared.View() == old(shared.View())
    {
      ticks, log := Watch(obs);
      killall := false;
      if ticks < |obs| {
        shared.GotoSleep();
        killall := true;
      }
    }
  }
}
