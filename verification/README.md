# silvia-pi control core in Dafny

A model of the control and supervision core of silvia-pi, a Raspberry Pi
controller for the boiler of an espresso machine (`silvia-pi.py`). The program
runs five loops in separate processes over one shared state dictionary, plus a
watchdog in the main process. The model takes one pass of each loop as one
sequential step over an explicit state:

- **Power state** (`Power`, `Shared`): `wakeup` and `gotosleep` as functions
  on a value of the shared record (`Snapshot`, which also holds the heater
  relay and power LED outputs as booleans) and as in-place methods of the
  `SharedState` class. The power-button loop is its polling loop (`HoldTicks`)
  followed by the toggle rule (`Press`).
- **PID loop** (`History`, `Pid`): the three fixed-length FIFO histories
  (temperature, fault flag, PID output), the fault-flag sum and its test, the
  means, the cold/warm gain schedule, setpoint tracking, and the published
  sample counter. The class `PidLoop` keeps the loop's locals as fields. The
  `simple_pid` controller is a function parameter `(gains, setpoint, input) ->
  raw output`, and its output limits are `Clamp(raw, -boundary, boundary)`.
- **Heater** (`Heater`): the duty split of one heating-loop pass, on `real`.
- **Scheduler** (`Clock`, `Scheduler`): change detection against the last
  observed wake time, sleep time and schedule switch; registration of the two
  daily jobs, which raises when the `schedule` library rejects a time string
  (that test is an input predicate); conversion of `"H:M"` strings into a
  `TimeOfDay`; the same-day window decision.
- **Watchdog** (`Watchdog`): the counters `lasti`, `piderr`, `weberr`,
  `cpuhot` as a step function and a class, the actions they order, and the
  supervisory loop ending with `killall python3` and `gotosleep`.
- **Web** (`Web`): the 80–120 °C rule of `POST /brewtemp`.
- **Safety** (`Safety`): every interleaving of whole passes and requests keeps
  the invariant of the shared record, every heating pass in such a run fits in
  one period, and a final `gotosleep` leaves the heater off.

Inputs that come from hardware, clocks or the network are step parameters:
the sensor reading (`Option<real>`, `None` when the read raised), the button
readings, the time of day, the health probe's answer, the CPU temperature,
and whether all processes are alive. Hardware and OS actions are outputs:
the relay and LED booleans, the `Cycle` of on/off durations, and the
watchdog's `Actions` and `killall` order. Whether the `schedule` library
accepts a time string, and whether the main process and the Manager survive
`killall python3`, are parameters too.

What the code does, where its comments or names suggest otherwise:

- The sensor-failure test `sum(temperr) >= 5 * temp_hist_len` can never fire.
  Flags are 0 or 1, so their sum is at most `temp_hist_len`
  (`History.SensorAlarmUnreachable`). On a failed read only the fault flag is
  pushed, so the stale temperatures stay in the average.
- `weberr` and `cpuhot` are never reset. The web process is terminated from
  the 10th failed probe in total on, and shutdown is ordered at every hot tick
  from the 10th hot reading in total on, not only after 10 consecutive ones. Only `piderr`
  resets, so the PID process is terminated after 10 consecutive stalled ticks.
- The heating loop does not clear `heating` while asleep. The flag stays false
  only because `gotosleep` clears it.
- With `avgpid <= 0` the heating loop waits `-avgpid/boundary`, not a whole
  period, so the length of a pass depends on the sign of the output. With
  `avgpid == 0` it does not wait at all.
- A schedule whose wake time is not before its sleep time (one that crosses
  midnight) always puts the machine to sleep when it is reconfigured.
- `POST /setwake` and `POST /setsleep` accept any string `strptime('%H:%M')`
  accepts, such as `"7:30"`. The conversion handles it (`Clock.ParseClockParts`),
  but if the `schedule` library rejects it for a daily job, the scheduler
  process dies at line 142 or 143 and the watchdog then ends the program.
- On exit the watchdog calls `killall python3` before `gotosleep` (see
  "## Findings").

## Model

| member | source | states |
|---|---|---|
| Power.Initial | silvia-pi.py:255-265 | the starting record: awake and LED as configured, not heating, heater off, counter 0, `avgpid` 0, schedule entries and brew temperature from the configuration |
| Power.Wakeup | silvia-pi.py:30-32 | result is awake with the LED on; every other entry, including `heating` and the heater relay, is unchanged |
| Power.GotoSleep | silvia-pi.py:35-39 | result is dormant (asleep, not heating, heater and LED off); every other entry is unchanged |
| Power.WakeupIdempotent | silvia-pi.py:30-32 | applying `wakeup` twice gives the same state as once |
| Power.GotoSleepIdempotent | silvia-pi.py:35-39 | applying `gotosleep` twice gives the same state as once |
| Power.LastTransitionWins | silvia-pi.py:30-39 | a `wakeup` followed by `gotosleep` leaves the same state as `gotosleep` alone; `gotosleep` then `wakeup` is awake with the heater off |
| Power.Press | silvia-pi.py:48-52 | a hold under 2 polls changes nothing; a hold of 2 or more flips `is_awake` once, with the LED following, and from awake leaves the dormant state; no entry other than the power state, `heating` and the two outputs ever changes |
| Power.PressTwiceRestoresPower | silvia-pi.py:48-52 | two qualifying presses restore the original power state |
| Power.HoldTicks | silvia-pi.py:44-47 | the count is the length of the leading run of LOW readings: all readings before it are LOW, and the one at it (if any) is not |
| Heater.HeatingCycle | silvia-pi.py:55-71 | asleep: `heating` untouched, no heating, one period of waiting; awake and positive: `heating` set, on for `avgpid/boundary`, on plus off equals 1; awake and non-positive: `heating` cleared, no on-time, waits `-avgpid/boundary` |
| Heater.DutyWithinPeriod | silvia-pi.py:59-68 | with `avgpid` in `[-boundary, boundary]`, both waits are non-negative, the on-time is at most 1 and the pass lasts at most one period |
| Heater.FeasibleIffWithinBoundary | silvia-pi.py:59-68 | while awake, both waits are non-negative (so `sleep` accepts them) exactly when `avgpid <= boundary` |
| Heater.DutyEndpoints | silvia-pi.py:57-68 | `avgpid = boundary` heats the full period; `avgpid = 0` neither heats nor waits; `avgpid = -boundary` keeps the heater off for the full period |
| Heater.OnTimeMonotone | silvia-pi.py:59-62 | a larger averaged output never gives a shorter on-time |
| Heater.AsleepKeepsHeatingFlag | silvia-pi.py:69-71 | an asleep pass leaves `heating` as it found it, `true` included |
| History.Shift | silvia-pi.py:91-97 | a push keeps the length, drops element 0, moves every other element down by one and puts the new value last |
| History.AppendThenDelete | silvia-pi.py:114-115 | appending before deleting, as the PID-output history does, is the same push |
| History.Filled | silvia-pi.py:76-78 | the initial histories have the configured length and hold only the initial value |
| History.ShiftKeepsWithin | silvia-pi.py:113-115 | pushing a value inside `[-b, b]` onto a history inside `[-b, b]` keeps it inside |
| History.ShiftKeepsFlags | silvia-pi.py:91-97 | pushing a 0 or a 1 keeps a fault-flag history made of 0s and 1s |
| History.Sum | silvia-pi.py:102 | Python's `sum` of a list of floats |
| History.SumInt | silvia-pi.py:98 | Python's `sum` of a list of ints |
| History.Mean | silvia-pi.py:116 | a history's sum divided by its length, which is the configured one (also the average of line 102) |
| History.SumWithin | silvia-pi.py:116 | the sum of n values in `[-b, b]` lies in `[-n*b, n*b]` |
| History.MeanWithin | silvia-pi.py:116 | the mean of values in `[-b, b]` lies in `[-b, b]` |
| History.FlagSumBound | silvia-pi.py:98 | the sum of a fault-flag history lies between 0 and its length |
| History.SensorAlarmUnreachable | silvia-pi.py:98-100 | for a non-empty flag history the sum is below `5 * temp_hist_len`, so the sensor-failure test never fires |
| History.SteadyReadingFillsHistory | silvia-pi.py:91-94 | after at least `temp_hist_len` pushes of the same reading the history holds only that reading and its mean equals it |
| Clock.Hours | silvia-pi.py:145-149 | the fractional hour `h + m/60` is at least the hour and, for a minute below 60, below the next hour |
| Clock.HoursOrderIsMinutesOrder | silvia-pi.py:145-149 | comparing `h + m/60` values is comparing `60*h + m` minutes, for `<=` and `<` |
| Clock.ParseClock | silvia-pi.py:146-149 | a time is produced only from a string that contains a colon |
| Clock.ParseClockParts | silvia-pi.py:146-149 | a numeral, a colon, a numeral and then nothing or a colon-led part convert to the two numerals' values, padded or not |
| Clock.ParseClockSplit | silvia-pi.py:146-149 | every string that converts is such a numeral, colon, numeral and optional colon-led part, and converts to the numerals' values |
| Clock.ParseFormat | silvia-pi.py:146-149 | every `"HH:MM"` string with hour below 24 and minute below 60 converts back to that hour and minute |
| Clock.NoColonNoClock | silvia-pi.py:146-149 | a string without a colon never converts, because the split has no second part |
| Clock.InWindow | silvia-pi.py:151 | the same-day window test `waketm <= nowtm < sleeptm` on fractional hours |
| Clock.CrossingWindowIsEmpty | silvia-pi.py:151 | a window whose wake time is not before its sleep time contains no time of day |
| Clock.InWindowByMinutes | silvia-pi.py:151 | the window test is membership of the current minute in `[wake, sleep)` |
| Web.SetBrewTemp | silvia-pi.py:177-187 | a setting is echoed and stored exactly when it lies in 80–120; otherwise the reply is 400 and the state is unchanged; a state in range stays in range |
| Shared.SharedState.constructor | silvia-pi.py:257-265 | the object starts as the initial record |
| Shared.SharedState.Wakeup | silvia-pi.py:30-32 | the new state is `wakeup` of the old one |
| Shared.SharedState.GotoSleep | silvia-pi.py:35-39 | the new state is `gotosleep` of the old one, hence dormant |
| Shared.SharedState.PowerLoopPass | silvia-pi.py:42-52 | one button-loop pass: the hold count is the leading LOW run; once a reading that is not LOW ends the hold, the new state is the toggle rule applied to it; while every reading is LOW nothing changes |
| Shared.SharedState.HeatingPass | silvia-pi.py:55-71 | one heating pass: returns the pass's durations, writes its `heating` value, leaves the relay off and changes nothing else |
| Shared.SharedState.Publish | silvia-pi.py:118-123 | the published entries take the given values and nothing else changes |
| Shared.SharedState.SetBrewTemp | silvia-pi.py:177-185 | reply and new state are those of the brew-temperature rule |
| Pid.Clamp | silvia-pi.py:84-86 | the output lies within the limits, equals the raw value inside them and the nearer limit outside |
| Pid.ClampMonotone | silvia-pi.py:84-86 | clamping keeps the order of two outputs |
| Pid.Regime | silvia-pi.py:104-107 | cold gains exactly when `avgtemp <= 0.9 * brewtemp` |
| Pid.RegimeMonotone | silvia-pi.py:104-107 | the gain schedule is a threshold: warm at one temperature means warm at every higher one |
| Pid.AtSetpointWarm | silvia-pi.py:104-107 | at a positive set temperature, an average equal to it selects the warm gains |
| Pid.PidLoop.constructor | silvia-pi.py:75-86 | zeroed histories of the configured lengths, counter 0, reading 25, setpoint and last setpoint the current brew temperature, cold gains |
| Pid.PidLoop.Iteration | silvia-pi.py:88-127 | one pass: fault flag pushed, temperature pushed only on a good read, the alarm never fires, gains by the schedule, setpoint equals brew temperature, clamped output pushed, counter published then incremented, published `avgpid` inside `[-boundary, boundary]` |
| Pid.PidLoop.RecordReading | silvia-pi.py:89-100 | fault flag 0 and the reading pushed on success; flag 1 and the temperature history untouched on failure; alarm as the test and false |
| Pid.PidLoop.SelectGains | silvia-pi.py:104-111 | gains by the schedule; afterwards setpoint and last setpoint both equal the brew temperature |
| Pid.PidLoop.PushOutput | silvia-pi.py:113-116 | the output is pushed and `avgpid`, the mean of the output history, lies in `[-boundary, boundary]` |
| Pid.TwoPasses | silvia-pi.py:118-127 | two passes advance the counter by 2 and publish the value in between, so the published counter rises by exactly 1 per pass |
| Scheduler.Changed | silvia-pi.py:137-138 | a pass reconfigures when the wake time, the sleep time or the switch differs from the value last observed |
| Scheduler.Observed | silvia-pi.py:156-158 | the values a completed pass records: the wake time, the sleep time and the switch as they are now |
| Scheduler.DailyJobs | silvia-pi.py:142-143 | the jobs an enabled schedule registers, in order: `gotosleep` at the sleep time, then `wakeup` at the wake time |
| Scheduler.SchedulerPass | silvia-pi.py:136-158 | nothing changed: nothing happens; a pass that runs to its end records all three values; a change with the schedule off clears the jobs only; with it on, registers the sleep job and then the wake job as far as the library accepts their times, fails exactly when it rejects one or a time does not convert, leaving state and observed values untouched, and otherwise wakes exactly inside `[wake, sleep)` and sleeps outside it |
| Scheduler.FirstPassReconfigures | silvia-pi.py:132-138 | the initial observed values differ from every state, so the first pass reconfigures |
| Scheduler.SecondPassIsQuiet | silvia-pi.py:137-158 | after a pass that ran to its end, a later pass over the same schedule entries changes nothing |
| Scheduler.ReconfigureDecidesPower | silvia-pi.py:141-154 | with the schedule on and both times accepted and valid, the machine is left awake exactly when `wake <= now < sleep` in minutes, and dormant otherwise |
| Scheduler.CrossingScheduleSleeps | silvia-pi.py:151-154 | an accepted schedule with wake not before sleep is reconfigured to the dormant state at any time |
| Scheduler.SchedulerLoop.constructor | silvia-pi.py:132-134 | nothing observed yet, no jobs |
| Scheduler.SchedulerLoop.Step | silvia-pi.py:136-158 | the new observed values, jobs, shared state and outcome are those of the scheduler pass |
| Watchdog.ProbeFailed | silvia-pi.py:315-320 | a probe fails when it raises or answers with a status other than 200 |
| Watchdog.Hot | silvia-pi.py:326 | a tick is hot when the CPU is above 70 °C |
| Watchdog.Tick | silvia-pi.py:304-330 | `piderr` counts up on an unchanged counter and resets otherwise; `weberr` and `cpuhot` only count up; the three actions fire at 10 or more, shutdown only on a hot tick |
| Watchdog.StallCount | silvia-pi.py:304-311 | after any ticks from the start, `piderr >= n` exactly when the last n ticks saw an unchanged counter |
| Watchdog.CumulativeCounts | silvia-pi.py:315-328 | after any ticks from the start, `weberr` is the number of failed probes and `cpuhot` the number of hot readings |
| Watchdog.PidTerminatedIffStalledTenTicks | silvia-pi.py:304-313 | the PID process is terminated at a tick exactly when that tick and the nine before it saw an unchanged counter |
| Watchdog.WebTerminatedIffTenFailures | silvia-pi.py:315-324 | the web process is terminated at a tick exactly when there have been at least 10 failed probes in total |
| Watchdog.ShutdownIffTenHotReadings | silvia-pi.py:326-330 | shutdown is ordered at a tick exactly when it is hot and there have been at least 10 hot readings in total |
| Watchdog.Supervisor.constructor | silvia-pi.py:295-300 | counters 0 and `lasti` the counter read before the loop |
| Watchdog.Supervisor.Pass | silvia-pi.py:304-330 | new counters and actions are those of the tick function |
| Watchdog.Supervisor.Watch | silvia-pi.py:303-332 | runs one tick per observation while all loops are alive, with counters and every tick's actions as the tick function gives them, and stops at the first observation with a dead loop |
| Watchdog.Supervisor.Supervise | silvia-pi.py:303-335 | the loop, then on exit `killall` is ordered and the record becomes the as-written exit of the old one: dormant if the main process and the Manager survive, unchanged otherwise; without exit the record is unchanged |
| Watchdog.ExitKillallFirst | silvia-pi.py:334-335 | the exit as written: `gotosleep`'s effect only when the main process and the Manager survive `killall`; the record unchanged otherwise |
| Watchdog.ExitSleepFirst | silvia-pi.py:334-335 | the exit with its calls swapped: `gotosleep`'s effect whatever `killall` ends |
| Watchdog.KillallFirstCanStayAwake | silvia-pi.py:334-335 | when `killall` ends the main process or the Manager, the exit leaves `is_awake` and `heating` as they were, so an awake machine is not dormant |
| Watchdog.KillallFirstDormantIff | silvia-pi.py:334-335 | the as-written exit ends dormant exactly when both processes survive or the machine was dormant already |
| Watchdog.SleepFirstIsDormant | silvia-pi.py:334-335 | with `gotosleep` before `killall`, every exit ends dormant |
| Watchdog.Supervisor.SuperviseSleepFirst | silvia-pi.py:303-335 | the loop, then on exit `gotosleep` and `killall`: the record always ends dormant |
| Safety.InitialInv | silvia-pi.py:258-265 | the initial record satisfies the invariant when the configured brew temperature is in range (its `avgpid` of 0 is inside the limits) |
| Safety.ApplyKeepsInv | silvia-pi.py:30-236 | every single pass or request the loops can produce keeps the invariant: brew temperature in range, `avgpid` inside `[-boundary, boundary]`, LED equal to the power state, relay off between passes, not heating while asleep |
| Safety.RunKeepsInv | silvia-pi.py:30-236 | every sequence of such passes and requests keeps the invariant, given that the PID loop publishes `avgpid` inside the limits (`Pid.PidLoop.Iteration`) |
| Safety.HeatPassesFeasible | silvia-pi.py:55-71 | in every such run, each heating pass has non-negative waits and lasts at most one period |
| Safety.ExitPathIsDormant | silvia-pi.py:334-335 | whatever ran before, a final `gotosleep` leaves the dormant state: the exit path with `gotosleep` before `killall` |
| Safety.ExitKeepsInv | silvia-pi.py:334-335 | after any run of events the loops can produce, the corrected exit leaves a dormant record that still keeps the whole invariant, brew temperature and `avgpid` bounds included |

## Findings

| source | as written | input that shows it | evidently intended | confidence | as-written member | corrected member |
|---|---|---|---|---|---|---|
| silvia-pi.py:334-335 | `killall python3` runs before `gotosleep(pidstate)` | a loop dies while the machine is awake and heating; `killall` signals every `python3` process, the watchdog's own and the Manager's included, so `gotosleep` never runs or raises at its first write (line 36) before `heater.off()` | when the watchdog gives up, the machine ends asleep with the heater off | medium, not executed; holds when the interpreter runs as a process named `python3` (the first line says `python`, line 100 relies on the same `killall`) | Watchdog.ExitKillallFirst | Watchdog.ExitSleepFirst |

`Watchdog.KillallFirstCanStayAwake` and `Watchdog.KillallFirstDormantIff`
exhibit the discrepancy in the as-written exit, and `Watchdog.SleepFirstIsDormant`
proves the corrected exit dormant.
`Watchdog.Supervisor.Supervise` models the exit as written; the corrected
order is `Watchdog.Supervisor.SuperviseSleepFirst`, and `Safety.ExitPathIsDormant`
states the corrected exit after any run. Even with the calls swapped, a heating
pass that read `is_awake` before `gotosleep` can switch the relay on before
`killall` ends it; interleavings inside a pass are not modelled (see "## Left out").

## Left out

- Processes, the `Manager` dictionary proxy, `is_alive` and `terminate`: concurrency. Each loop body is one sequential step. Whether all processes are alive is an input of a watchdog tick, and termination is an output action.
- Interleavings inside a pass are not modelled. In the program the heating loop can read `is_awake` as true, lose the processor to `gotosleep`, and then set `heating` and switch the relay on while asleep. The relay goes off again within one period (line 63). The `heating` entry then stays true for as long as the machine sleeps, because asleep passes never clear it (`Heater.AsleepKeepsHeatingFlag`), and `/allstats` reports it. So `Safety.Inv`'s `!isAwake ==> !heating` does not hold for the program under this interleaving. The invariant in `Safety` holds for whole passes only.
- Flask routes other than the brew-temperature rule, templates, form parsing (`int(...)`, `request.form`), and `strptime` validation of wake and sleep times: HTTP input and library calls. The web writes to the schedule entries are events with arbitrary strings.
- GPIO, `LED`, `Button`, the MAX31855 driver and `CPUTemperature`: hardware. Their readings are inputs and their outputs are booleans.
- The `simple_pid` computation and `pid.components`: a foreign library. The controller is a function parameter clamped to the output limits. `pterm`, `iterm` and `dterm` are not part of the record.
- The `schedule` library's `run_pending`, which fires the registered jobs at their times: a timer library. Clearing and registering the jobs are modelled as a job list.
- Scheduler.SchedulerPass: which time strings the `schedule` library accepts for a daily job is not modelled; it is the parameter `accepts`, and a rejected string makes the pass fail at that registration.
- `time()`, `sleep`, and the drift-compensating sleep of the PID loop: wall-clock plumbing. The heating pass returns its durations instead of sleeping.
- `urlopen`, `killall`, `shutdown` and `reboot`: network and OS side effects. They are inputs and output actions. The PID pass continues after its (unreachable) alarm.
- Watchdog.Supervisor.Supervise: whether the main process and the Manager survive `killall python3` is the parameter `survives`, so the heater-off guarantee on exit is not established for the program as written. What the relay does when the heating process is killed is not modelled.
- `round(..., 2)` and floating point: values are exact `real`s. Rounding could move a published `avgpid` just past a boundary that has more than two decimals.
- Clock.ParseClock: accepts only digit strings around the colon. Python's `float` also accepts signs, decimals, spaces and exponents. The validated web routes never send such strings.
- The record entries `temp`, `avgtemp` and `pidval` do not exist in the program before the first PID pass. The model starts them at 0.
- Configuration loading: a `Config` value is a parameter. The model requires positive history lengths and a positive boundary. With a history length of 0 the PID loop raises on its first pass. With a boundary of 0 the heating loop divides by zero on its first awake pass. A negative boundary gives the controller inverted output limits.
