/** Values shared by every loop of the controller: an optional value and the
    settings the program reads from its configuration module at start-up. */
module Common {

  datatype Option<T> = None | Some(value: T)

  /** One gain triple handed to the PID controller. */
  datatype Tuning = Tuning(kp: real, ki: real, kd: real)

  /** The configuration entries the core reads. */
  datatype Config = Config(
    boundary: real,       // limit of |PID output|, also the duty-cycle scale
    tempHistLen: nat,     // length of the temperature and fault-flag histories
    pidHistLen: nat,      // length of the PID-output history
    cold: Tuning,         // pidc_kp, pidc_ki, pidc_kd
    warm: Tuning,         // pidw_kp, pidw_ki, pidw_kd
    initialOn: bool,      // initial_on
    brewTemp: int,        // brew_temp
    schedule: bool,       // schedule
    timeSleep: string,    // time_sleep
    timeWake: string)     // time_wake
  {
    /** What the loops need of the configuration to run at all: they divide by
        the boundary and by both history lengths, and delete the first element
        of every history on every pass. */
    predicate Valid()
    {
      boundary > 0.0 && tempHistLen > 0 && pidHistLen > 0
    }
  }
}
