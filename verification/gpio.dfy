/**
 * The relay pulse controller of a garage door opener: one output pin that is
 * configured LOW, pulsed HIGH then LOW on request, and reported in a status
 * snapshot. The hardware is the in-memory simulated backend, which records the
 * last level written to every pin; a fault plan lets any backend call raise,
 * so that the controller's error paths can be stated.
 */
module Gpio {

  /** Logic levels written to a pin. */
  const LOW: int := 0
  const HIGH: int := 1

  /** Only the simulated backend is modelled, and it is the one selected when
      the hardware library is missing, so the flag fixed at load is false. */
  const REAL_GPIO: bool := false

  /** The message of the error raised by a pulse before the pin is configured. */
  const NotInitializedMessage: string := "GPIO not initialized"

  datatype Option<+T> = None | Some(value: T)

  /** Last level written to each pin; a pin set up without an initial level holds None. */
  type Levels = map<int, Option<int>>

  /** A call into the backend that can change its state. */
  datatype Call =
    | SetupCall(pin: int, initial: Option<int>)
    | OutputCall(pin: int, value: int)
    | CleanupCall

  /**
   * What the controller raises: its own RuntimeError, what a backend call raised,
   * or the ValueError of a wait whose length is negative.
   */
  datatype Error = RuntimeError(message: string) | BackendError(call: Call) | SleepError(seconds: real)

  /** The end of a call that returns nothing: it passed, or it raised. */
  datatype Outcome = Pass | Fail(error: Error)

  /** The end of a call that returns a value: it passed with that value, or it raised. */
  datatype Result<+T> = Success(value: T) | Failure(error: Error)

  /** The backend's answer to a call under a fault plan: a refused call raises. */
  function Respond(refused: set<Call>, c: Call): Outcome
  {
    if c in refused then Fail(BackendError(c)) else Pass
  }

  /** The level the simulated backend reports for a pin: 0 when it was never written. */
  function Read(levels: Levels, pin: int): Option<int>
  {
    if pin in levels then levels[pin] else Some(LOW)
  }

  /** What a call that passes does to the simulated backend's levels. */
  function Effect(levels: Levels, c: Call): (r: Levels)
    ensures c.SetupCall? ==> c.pin in r && r[c.pin] == c.initial && r - {c.pin} == levels - {c.pin}
    ensures c.OutputCall? ==> c.pin in r && Read(r, c.pin) == Some(c.value) && r - {c.pin} == levels - {c.pin}
    ensures c.CleanupCall? ==> r == map[] && forall p :: Read(r, p) == Some(LOW)
  {
    match c
    case SetupCall(p, initial) => levels[p := initial]
    case OutputCall(p, value) => levels[p := Some(value)]
    case CleanupCall => map[]
  }

  /** The simulated backend: a map from pin to last-written level, updated in place. */
  class DummyGpio {
    var state: Levels
    /** The calls this backend raises on; empty for the plain simulated backend. */
    const refused: set<Call>

    /** The plain simulated backend, which never raises. */
    constructor ()
      ensures state == map[] && refused == {}
    {
      state := map[];
      refused := {};
    }

    /** A simulated backend that raises on every call in `refused`. */
    constructor WithFaults(refused: set<Call>)
      ensures state == map[] && this.refused == refused
    {
      state := map[];
      this.refused := refused;
    }

    /** The stored level of `pin`, or LOW for a pin never written. */
    function Input(pin: int): (v: Option<int>)
      reads this
      ensures pin in state ==> v == state[pin]
      ensures pin !in state ==> v == Some(LOW)
    {
      Read(state, pin)
    }

    /** Configures `pin` and records `initial` as its level. */
    method Setup(pin: int, initial: Option<int>) returns (r: Outcome)
      modifies this
      ensures r == Respond(refused, SetupCall(pin, initial))
      ensures r.Pass? ==> state == old(state)[pin := initial]
      ensures r.Fail? ==> state == old(state)
    {
      r := Respond(refused, SetupCall(pin, initial));
      if r.Pass? {
        state := state[pin := initial];
      }
    }

    /** Writes `value` to `pin`. */
    method Output(pin: int, value: int) returns (r: Outcome)
      modifies this
      ensures r == Respond(refused, OutputCall(pin, value))
      ensures r.Pass? ==> state == old(state)[pin := Some(value)]
      ensures r.Fail? ==> state == old(state)
    {
      r := Respond(refused, OutputCall(pin, value));
      if r.Pass? {
        state := state[pin := Some(value)];
      }
    }

    /** Forgets every pin. */
    method Cleanup() returns (r: Outcome)
      modifies this
      ensures r == Respond(refused, CleanupCall)
      ensures r.Pass? ==> state == map[]
      ensures r.Fail? ==> state == old(state)
    {
      r := Respond(refused, CleanupCall);
      if r.Pass? {
        state := map[];
      }
    }
  }

  /** The controller's state together with the backend's levels. */
  datatype Machine = Machine(pin: Option<int>, lastTrigger: Option<real>, levels: Levels)

  /** The snapshot returned by a status query. */
  datatype Status = Status(pin: Option<int>, lastTrigger: Option<string>, isRealGpio: bool)

  /** `init(p)`: the pin is recorded first, then configured as an output at LOW. */
  function InitStep(m: Machine, refused: set<Call>, p: int): (r: (Machine, Outcome))
    ensures r.0.pin == Some(p) && r.0.lastTrigger == m.lastTrigger
    ensures r.1.Fail? <==> SetupCall(p, Some(LOW)) in refused
    ensures r.1.Pass? ==> p in r.0.levels && r.0.levels[p] == Some(LOW)
    ensures r.1.Pass? ==> r.0.levels - {p} == m.levels - {p}
    ensures r.1.Fail? ==> r.1.error == BackendError(SetupCall(p, Some(LOW))) && r.0.levels == m.levels
  {
    var c := SetupCall(p, Some(LOW));
    var out := Respond(refused, c);
    (Machine(Some(p), m.lastTrigger, if out.Pass? then Effect(m.levels, c) else m.levels), out)
  }

  /**
   * `trigger_pulse(duration)`: refuse when no pin is set; otherwise write HIGH, wait
   * `duration` seconds, write LOW, then record the clock reading `now` and return
   * it formatted by `fmt`. The first step that raises ends the pulse, and nothing
   * after it happens: a wait of negative length raises after the HIGH write.
   */
  function PulseStep(m: Machine, refused: set<Call>, fmt: real -> string, duration: real, now: real): (r: (Machine, Result<string>))
    ensures r.0.pin == m.pin
    ensures m.pin.None? ==> r == (m, Failure(RuntimeError(NotInitializedMessage)))
    ensures r.1.Success? <==>
      && m.pin.Some? && OutputCall(m.pin.value, HIGH) !in refused && duration >= 0.0
      && OutputCall(m.pin.value, LOW) !in refused
    ensures r.1.Success? ==> r.1.value == fmt(now) && r.0.lastTrigger == Some(now)
    ensures r.1.Success? ==>
      var p := m.pin.value;
      p in r.0.levels && r.0.levels[p] == Some(LOW) && r.0.levels - {p} == m.levels - {p}
    ensures r.1.Failure? ==> r.0.lastTrigger == m.lastTrigger
    ensures m.pin.Some? && OutputCall(m.pin.value, HIGH) in refused ==>
      r == (m, Failure(BackendError(OutputCall(m.pin.value, HIGH))))
    ensures m.pin.Some? && OutputCall(m.pin.value, HIGH) !in refused && duration < 0.0 ==>
      var p := m.pin.value;
      && r.1 == Failure(SleepError(duration))
      && p in r.0.levels && r.0.levels[p] == Some(HIGH) && r.0.levels - {p} == m.levels - {p}
    ensures m.pin.Some? && OutputCall(m.pin.value, HIGH) !in refused && duration >= 0.0
            && OutputCall(m.pin.value, LOW) in refused ==>
      var p := m.pin.value;
      && r.1 == Failure(BackendError(OutputCall(p, LOW)))
      && p in r.0.levels && r.0.levels[p] == Some(HIGH) && r.0.levels - {p} == m.levels - {p}
  {
    match m.pin
    case None => (m, Failure(RuntimeError(NotInitializedMessage)))
    case Some(p) =>
      var high := OutputCall(p, HIGH);
      if high in refused then (m, Failure(BackendError(high)))
      else
        var raised := m.(levels := Effect(m.levels, high));
        if duration < 0.0 then (raised, Failure(SleepError(duration)))
        else
          var low := OutputCall(p, LOW);
          if low in refused then (raised, Failure(BackendError(low)))
          else (raised.(levels := Effect(raised.levels, low), lastTrigger := Some(now)), Success(fmt(now)))
  }

  /** Module-level `cleanup`: clears the backend and swallows whatever it raises. */
  function CleanupStep(m: Machine, refused: set<Call>): (r: Machine)
    ensures r.pin == m.pin && r.lastTrigger == m.lastTrigger
    ensures CleanupCall !in refused ==> forall p :: Read(r.levels, p) == Some(LOW)
    ensures CleanupCall !in refused ==> r.levels == map[]
    ensures CleanupCall in refused ==> r == m
  {
    if Respond(refused, CleanupCall).Pass? then m.(levels := Effect(m.levels, CleanupCall)) else m
  }

  /** The module state of the controller (`_pin`, `_last_trigger`) and the backend it drives. */
  class Controller {
    var pin: Option<int>
    var lastTrigger: Option<real>
    const gpio: DummyGpio
    /** The UTC formatter applied to clock readings, `YYYY-MM-DDTHH:MM:SSZ`. */
    const format: real -> string

    /** The state at module load: no pin, no pulse yet. */
    constructor (gpio: DummyGpio, format: real -> string)
      ensures pin == None && lastTrigger == None
      ensures this.gpio == gpio && this.format == format
    {
      pin := None;
      lastTrigger := None;
      this.gpio := gpio;
      this.format := format;
    }

    function Snapshot(): Machine
      reads this, gpio
    {
      Machine(pin, lastTrigger, gpio.state)
    }

    /** `get_status`: the configured pin, the last pulse time when it is truthy, and the backend flag. */
    function GetStatus(): (s: Status)
      reads this
      ensures s.pin == pin && s.isRealGpio == REAL_GPIO
      ensures s.lastTrigger.Some? <==> lastTrigger.Some? && lastTrigger.value != 0.0
      ensures s.lastTrigger.Some? ==> s.lastTrigger.value == format(lastTrigger.value)
    {
      match lastTrigger
      case Some(t) => Status(pin, if t != 0.0 then Some(format(t)) else None, REAL_GPIO)
      case None => Status(pin, None, REAL_GPIO)
    }

    /** `init(p)`: the pin is assigned before the backend is called, so it stays set when setup raises. */
    method Init(p: int) returns (r: Outcome)
      modifies this, gpio
      ensures (Snapshot(), r) == InitStep(old(Snapshot()), gpio.refused, p)
      ensures pin == Some(p) && lastTrigger == old(lastTrigger)
      ensures r.Pass? ==> gpio.state == old(gpio.state)[p := Some(LOW)]
      ensures r.Fail? ==> gpio.state == old(gpio.state)
      ensures GetStatus().pin == Some(p)
      ensures old(lastTrigger) == None ==> GetStatus().lastTrigger == None
    {
      pin := Some(p);
      r := gpio.Setup(p, Some(LOW));
    }

    /**
     * `trigger_pulse(duration_seconds)`: `now` is the clock reading taken after the
     * LOW write. A wait of non-negative length has no effect on the modelled state;
     * one of negative length raises, with the relay still HIGH.
     */
    method TriggerPulse(durationSeconds: real, now: real) returns (r: Result<string>)
      modifies this, gpio
      ensures (Snapshot(), r) == PulseStep(old(Snapshot()), gpio.refused, format, durationSeconds, now)
      ensures pin == old(pin)
      ensures old(pin) == None ==> r == Failure(RuntimeError(NotInitializedMessage))
      ensures old(pin) == None ==> gpio.state == old(gpio.state) && lastTrigger == old(lastTrigger)
      ensures r.Success? ==> durationSeconds >= 0.0 && gpio.state == old(gpio.state)[pin.value := Some(LOW)]
      ensures old(pin).Some? && OutputCall(pin.value, HIGH) !in gpio.refused && durationSeconds < 0.0 ==>
        && r == Failure(SleepError(durationSeconds))
        && gpio.state == old(gpio.state)[pin.value := Some(HIGH)] && lastTrigger == old(lastTrigger)
      ensures r.Success? && now != 0.0 ==> GetStatus().lastTrigger == Some(r.value)
      ensures r.Success? && now == 0.0 ==> GetStatus().lastTrigger == None
    {
      if pin.None? {
        return Failure(RuntimeError(NotInitializedMessage));
      }
      var p := pin.value;
      var out := gpio.Output(p, HIGH);
      if out.Fail? {
        return Failure(out.error);
      }
      if durationSeconds < 0.0 {
        return Failure(SleepError(durationSeconds));
      }
      out := gpio.Output(p, LOW);
      if out.Fail? {
        return Failure(out.error);
      }
      lastTrigger := Some(now);
      r := Success(format(now));
    }

    /** Module-level `cleanup`: never raises, and keeps the pin and the last pulse time. */
    method Cleanup()
      modifies gpio
      ensures Snapshot() == CleanupStep(old(Snapshot()), gpio.refused)
      ensures CleanupCall !in gpio.refused ==> gpio.state == map[]
      ensures CleanupCall in gpio.refused ==> gpio.state == old(gpio.state)
    {
      var _ := gpio.Cleanup();
    }
  }
}
