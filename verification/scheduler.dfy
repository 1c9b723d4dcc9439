/** The scheduler loop: when the wake time, the sleep time or the schedule
    switch changed since the last pass, it re-registers the two daily jobs and
    puts the machine in the state the current time of day calls for. */
module Scheduler {
  import opened Common
  import opened Power
  import opened Clock
  import opened Shared

  datatype Action = DoWakeup | DoSleep

  /** A daily job of the schedule library: run `action` at time `at`. */
  datatype Job = Job(at: string, action: Action)

  /** The three values last observed. Before the first pass the times hold the
      integer 0, which differs from every string: modelled as `None`. */
  datatype Memory = Memory(lastWake: Option<string>, lastSleep: Option<string>, lastSched: bool)

  const INITIAL_MEMORY := Memory(None, None, false)

  predicate Changed(m: Memory, s: Snapshot)
  {
    m.lastWake != Some(s.wakeTime) || m.lastSleep != Some(s.sleepTime) || m.lastSched != s.schedEnabled
  }

  function Observed(s: Snapshot): Memory
  {
    Memory(Some(s.wakeTime), Some(s.sleepTime), s.schedEnabled)
  }

  /** The jobs registered for an enabled schedule, in registration order. */
  function DailyJobs(s: Snapshot): seq<Job>
  {
    [Job(s.sleepTime, DoSleep), Job(s.wakeTime, DoWakeup)]
  }

  /** What a pass leaves behind. `crashed` means a call raised and the
      scheduler process died at that point: after the jobs were cleared and
      some of them registered, and before the observed values were recorded. */
  datatype Pass = Pass(mem: Memory, jobs: seq<Job>, state: Snapshot, crashed: bool)

  /** One pass of the scheduler loop at time of day `now` (the running of
      due jobs is not part of it). `accepts` is the schedule library's test of
      a time string for a daily job: a string it rejects makes the
      registration raise. */
  function SchedulerPass(m: Memory, jobs: seq<Job>, s: Snapshot, now: TimeOfDay, accepts: string -> bool): (p: Pass)
    // nothing changed: nothing happens
    ensures !Changed(m, s) ==> p == Pass(m, jobs, s, false)
    // a pass that runs to its end records all three values
    ensures !p.crashed ==> p.mem == Observed(s)
    ensures p.crashed ==> p.mem == m && p.state == s
    // a change with the schedule off only clears the jobs
    ensures Changed(m, s) && !s.schedEnabled ==> p == Pass(Observed(s), [], s, false)
    // a change with the schedule on: the sleep job, then the wake job, each
    // registered only if the library accepts its time
    ensures Changed(m, s) && s.schedEnabled ==>
      p.jobs == if !accepts(s.sleepTime) then []
                else if !accepts(s.wakeTime) then DailyJobs(s)[..1]
                else DailyJobs(s)
    // the pass fails when the library rejects a time or a time does not convert
    ensures Changed(m, s) && s.schedEnabled ==>
      (p.crashed <==> !accepts(s.sleepTime) || !accepts(s.wakeTime) ||
                      ParseClock(s.sleepTime).None? || ParseClock(s.wakeTime).None?)
    ensures Changed(m, s) && s.schedEnabled && !p.crashed ==>
      var wake, sleep := ParseClock(s.wakeTime).value, ParseClock(s.sleepTime).value;
      p.state == if InWindow(wake, now, sleep) then Wakeup(s) else GotoSleep(s)
    // the schedule entries themselves are never written
    ensures p.state.wakeTime == s.wakeTime && p.state.sleepTime == s.sleepTime
    ensures p.state.schedEnabled == s.schedEnabled
  {
    if !Changed(m, s) then
      Pass(Observed(s), jobs, s, false)
    else if !s.schedEnabled then
      Pass(Observed(s), [], s, false)
    else if !accepts(s.sleepTime) then
      Pass(m, [], s, true)
    else if !accepts(s.wakeTime) then
      Pass(m, [Job(s.sleepTime, DoSleep)], s, true)
    else
      var sleeptm := ParseClock(s.sleepTime);
      var waketm := ParseClock(s.wakeTime);
      if sleeptm.None? || waketm.None? then
        Pass(m, DailyJobs(s), s, true)
      else if InWindow(waketm.value, now, sleeptm.value) then
        Pass(Observed(s), DailyJobs(s), Wakeup(s), false)
      else
        Pass(Observed(s), DailyJobs(s), GotoSleep(s), false)
  }

  /** The first pass always reconfigures, because nothing has been observed. */
  lemma FirstPassReconfigures(s: Snapshot)
    ensures Changed(INITIAL_MEMORY, s)
  {
  }

  /** A pass that ran to its end is followed, while nobody writes the three
      schedule entries, by passes that do nothing. */
  lemma SecondPassIsQuiet(m: Memory, jobs: seq<Job>, s: Snapshot, now: TimeOfDay, later: TimeOfDay, accepts: string -> bool)
    ensures var p := SchedulerPass(m, jobs, s, now, accepts);
      !p.crashed ==> SchedulerPass(p.mem, p.jobs, p.state, later, accepts) == Pass(p.mem, p.jobs, p.state, false)
  {
  }

  /** With the schedule on and both times accepted by the library, a
      reconfiguring pass leaves the machine awake exactly when the current
      time lies in `[wake, sleep)`. */
  lemma ReconfigureDecidesPower(m: Memory, jobs: seq<Job>, s: Snapshot, now: TimeOfDay, accepts: string -> bool,
                                wake: TimeOfDay, sleep: TimeOfDay)
    requires Changed(m, s) && s.schedEnabled && accepts(s.sleepTime) && accepts(s.wakeTime)
    requires ParseClock(s.wakeTime) == Some(wake) && ParseClock(s.sleepTime) == Some(sleep)
    ensures var p := SchedulerPass(m, jobs, s, now, accepts);
      !p.crashed && (p.state.isAwake <==> Minutes(wake) <= Minutes(now) < Minutes(sleep))
    ensures var p := SchedulerPass(m, jobs, s, now, accepts);
      !p.state.isAwake ==> Dormant(p.state)
  {
  }

  /** A schedule whose wake time is not before its sleep time (one that
      crosses midnight) puts the machine to sleep whatever the time. */
  lemma CrossingScheduleSleeps(m: Memory, jobs: seq<Job>, s: Snapshot, now: TimeOfDay, accepts: string -> bool,
                               wake: TimeOfDay, sleep: TimeOfDay)
    requires Changed(m, s) && s.schedEnabled && accepts(s.sleepTime) && accepts(s.wakeTime)
    requires ParseClock(s.wakeTime) == Some(wake) && ParseClock(s.sleepTime) == Some(sleep)
    requires Minutes(wake) >= Minutes(sleep)
    ensures Dormant(SchedulerPass(m, jobs, s, now, accepts).state)
  {
  }

  class SchedulerLoop {
    var lastWake: Option<string>
    var lastSleep: Option<string>
    var lastSchedSwitch: bool
    var jobs: seq<Job>     // the schedule library's job list

    function LastSeen(): Memory
      reads this
    {
      Memory(lastWake, lastSleep, lastSchedSwitch)
    }

    constructor ()
      ensures LastSeen() == INITIAL_MEMORY && jobs == []
    {
      lastWake, lastSleep, lastSchedSwitch := None, None, false;
      jobs := [];
    }

    /** One pass of the scheduler loop. */
    method Step(shared: SharedState, now: TimeOfDay, accepts: string -> bool) returns (crashed: bool)
      modifies this, shared
      ensures var p := SchedulerPass(old(LastSeen()), old(jobs), old(shared.View()), now, accepts);
        LastSeen() == p.mem && jobs == p.jobs && shared.View() == p.state && crashed == p.crashed
    {
      crashed := false;
      if lastWake != Some(shared.wakeTime) || lastSleep != Some(shared.sleepTime)
         || lastSchedSwitch != shared.schedEnabled
      {
        jobs := [];
        if shared.schedEnabled {
          if !accepts(shared.sleepTime) {
            crashed := true;
            return;
          }
          jobs := jobs + [Job(shared.sleepTime, DoSleep)];
          if !accepts(shared.wakeTime) {
            crashed := true;
            return;
          }
          jobs := jobs + [Job(shared.wakeTime, DoWakeup)];
          var sleeptm := ParseClock(shared.sleepTime);
          var waketm := ParseClock(shared.wakeTime);
          if sleeptm.None? || waketm.None? {
            crashed := true;
            return;
          }
          if InWindow(waketm.value, now, sleeptm.value) {
            shared.Wakeup();
          } else {
            shared.GotoSleep();
          }
        }
      }
      lastWake := Some(shared.wakeTime);
      lastSleep := Some(shared.sleepTime);
      lastSchedSwitch := shared.schedEnabled;
    }
  }
}
