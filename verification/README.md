# Relay pulse controller of the garage door opener, in Dafny

The garage door opener drives one relay through one GPIO output pin. `gpio.py`
keeps two pieces of module state: the configured pin (`_pin`) and the time of
the last completed pulse (`_last_trigger`). It offers four operations:

- `init(pin)` records the pin, then configures it as an output at LOW.
- `trigger_pulse(duration)` refuses to run before `init`. Otherwise it writes HIGH, waits, writes LOW, records the clock, and returns the time formatted as `YYYY-MM-DDTHH:MM:SSZ`.
- `get_status()` reports the pin, the formatted last pulse time and whether real hardware is in use.
- `cleanup()` releases the backend and swallows any error.

When the hardware library is missing, the code writes to `DummyGPIO`, a simulated backend. It keeps a dictionary from pin to the last level written.

The model has two modules:

- `Gpio` (`gpio.dfy`) holds the data and the operations:
  - `DummyGpio` is a class whose `state` map the methods `Setup`, `Output` and `Cleanup` update in place. `Input` is a read-only query.
  - `Controller` is a class whose fields `pin` and `lastTrigger` are the module globals. Its methods are `Init`, `TriggerPulse` and `Cleanup`, and its query is `GetStatus`.
  - Each controller method is proved against a pure step function over a `Machine` value (pin, last trigger, backend levels): `InitStep`, `PulseStep` or `CleanupStep`. The contract of each step function states what the source promises.
  - Exceptions become `Outcome`/`Result` values. The controller's own `RuntimeError('GPIO not initialized')` becomes `RuntimeError(NotInitializedMessage)`. Anything a backend call raises becomes `BackendError(call)`. The ValueError of a wait with a negative length becomes `SleepError(seconds)`.
  - To reach the error paths, a backend can be built with a fault plan: the set of calls on which it raises (`DummyGpio.WithFaults`). A call that raises changes nothing. The plain simulated backend (`DummyGpio()`) never raises.
- `GpioSessions` (`gpio_sessions.dfy`) runs any sequence of `init`/pulse/`cleanup` calls and proves properties that hold after all of them:
  - While LOW writes go through and no pulse waits a negative time, the relay is never left energised.
  - The configured pin is the one of the last `init`.
  - The recorded pulse time is the clock reading of the last pulse that passed, and it does not go backwards when the clock does not.

Consequences of the code as written, which the model keeps:

- `init` assigns the pin before calling `setup`. After a failed setup the pin therefore stays set, so later pulses are attempted.
- Once the HIGH write has passed, any later step that raises ends the pulse with the relay still HIGH. No LOW write is retried. This happens when the wait raises because its length is negative (`NegativeWaitLeavesRelayEnergised`) and when the LOW write raises (`FailedLowWriteLeavesRelayEnergised`). When the HIGH write itself raises, nothing was written and no LOW write is attempted.
- Nothing checks the pulse duration before the HIGH write. A negative one is refused only by the wait, after the relay is energised.
- A repeated `init` simply re-configures the pin.
- `get_status` tests `_last_trigger` for truthiness. A pulse whose clock reading is exactly `0.0` therefore returns a formatted time, yet the status reports no last trigger. `Controller.TriggerPulse` states both cases.

## Model

| member | source | states |
|---|---|---|
| `Gpio.Effect` | gpio.py:32-42 | a setup records its initial level for its pin only, an output records its value for its pin only (reading the pin back gives that value), a cleanup forgets every pin so every pin then reads LOW |
| `Gpio.DummyGpio.constructor` | gpio.py:23-24 | the simulated backend starts with no pin recorded and never raises |
| `Gpio.DummyGpio.WithFaults` | gpio.py:23-24 | a simulated backend with no pin recorded that raises on exactly the given calls |
| `Gpio.DummyGpio.Input` | gpio.py:38-39 | the level stored for the pin, or 0 (LOW) for a pin never written |
| `Gpio.DummyGpio.Setup` | gpio.py:32-33 | on success the map gains or replaces only the entry for the pin, with the initial level; on a raise nothing changes |
| `Gpio.DummyGpio.Output` | gpio.py:35-36 | on success only the pin's entry changes, to the written value; on a raise nothing changes |
| `Gpio.DummyGpio.Cleanup` | gpio.py:41-42 | on success the map is emptied; on a raise nothing changes |
| `Gpio.InitStep` | gpio.py:51-61 | the pin is set to p whether or not setup raises; setup raises exactly when the backend refuses it, and the error is passed on with the levels untouched; on success p reads LOW and no other pin changes; the last trigger is untouched |
| `Gpio.PulseStep` | gpio.py:64-82 | with no pin it fails with "GPIO not initialized" and changes nothing; it succeeds exactly when both writes go through and the wait is non-negative, and then the pin is LOW, no other pin changed, the last trigger is the clock reading and the result is that reading formatted; a raising HIGH write changes nothing and no LOW write follows; a negative wait raises after the HIGH write and leaves the pin HIGH; a raising LOW write leaves the pin HIGH; no failure touches the last trigger; the pin never changes |
| `Gpio.CleanupStep` | gpio.py:93-97 | never fails; empties the backend unless the backend raises, in which case nothing changes; the pin and the last trigger are kept |
| `Gpio.Controller.constructor` | gpio.py:47-48 | at load no pin is configured and no pulse has happened |
| `Gpio.Controller.GetStatus` | gpio.py:85-90 | reports the configured pin, the flag for real hardware (false here), and the last pulse time formatted when it is set and non-zero, otherwise none |
| `Gpio.Controller.Init` | gpio.py:51-61 | follows `InitStep`: the pin is set even when setup raises; on success the backend records LOW for the pin and nothing else changes; the status then reports the pin, and no last trigger if there was none |
| `Gpio.Controller.TriggerPulse` | gpio.py:64-82 | follows `PulseStep`: uninitialised it raises and writes nothing; a negative wait raises with the pin left HIGH and the last trigger unchanged; on success the wait was non-negative, the pin is LOW, no other pin changed, and the returned time equals the status's last trigger (or the status reports none when the clock read 0.0) |
| `Gpio.Controller.Cleanup` | gpio.py:93-97 | follows `CleanupStep`: raises nothing, empties the backend unless it raises, and keeps the pin and the last trigger |
| `GpioSessions.RelayNeverLeftEnergised` | gpio.py:51-97 | after any sequence of init, pulse and cleanup calls, no pin is left HIGH, provided no pin started HIGH, the backend never raises on a LOW write and no pulse waits a negative time |
| `GpioSessions.FailedLowWriteLeavesRelayEnergised` | gpio.py:73-82 | for any non-negative wait, when the HIGH write passes and the LOW write raises, the pulse fails with that error and leaves the pulsed pin HIGH, since nothing retries the LOW write; no other pin changes and the last trigger is unchanged |
| `GpioSessions.NegativeWaitLeavesRelayEnergised` | gpio.py:73-82 | when the HIGH write passes and the wait is negative, the pulse fails with the wait's error and leaves the pulsed pin HIGH; no other pin changes and the last trigger is unchanged |
| `GpioSessions.PinIsLastInit` | gpio.py:51-53 | after any sequence of calls the pin is that of the last init, failed or not, and otherwise the initial one: pulses and cleanup never set or clear it |
| `GpioSessions.LastTriggerIsLastPassingPulse` | gpio.py:73-79 | after any sequence of calls the last trigger is the clock reading of the last pulse that passed, or the initial one when no pulse passed; failed pulses never record a time |
| `GpioSessions.LastTriggerMonotone` | gpio.py:77-79 | when the clock readings of the pulses do not decrease, the last trigger never moves backwards |
| `GpioSessions.SuccessivePulsesInOrder` | gpio.py:73-79 | after a pulse that passes, a second one with a non-negative wait passes too, and with a clock that does not go back the second records a time no earlier than the first |

## Left out

- The real `RPi.GPIO` backend and the import-time probe that chooses it (gpio.py:10-15) are foreign hardware calls. Only the simulated backend is modelled, so `REAL_GPIO` is the constant false.
- `setwarnings` and `setmode` (gpio.py:26-30) do nothing on the simulated backend, so they are not modelled. Nor are the `BCM`/`OUT` constants or the `mode` argument of `setup`, since the simulated backend ignores them.
- `time.sleep` with a non-negative length has no effect on the modelled state, so elapsed real time is not modelled. A negative length raises, as in the code.
- Durations are `real`, which has no NaN and no infinity. The errors `time.sleep` raises for a NaN length and for a length too large to represent are not modelled.
- `time.time()` becomes the `now: real` parameter of `TriggerPulse`, the clock reading taken after the LOW write.
- `time.gmtime` and `time.strftime` become an opaque formatter `real -> string`, fixed when the controller is created. Only the fact that pulse and status apply the same formatter is used.
- The fault plan of a backend is fixed when it is built, so a call fails either always or never. Intermittent faults cannot be expressed, for example a write that raises once and passes on a retry. `SuccessivePulsesInOrder` relies on this when it concludes that a second pulse passes.
- The formatter is total. `time.gmtime` can raise OverflowError or OSError for a clock reading out of its range. That would happen after `_last_trigger` is assigned, and every later `get_status` would raise too. These formatter errors are not modelled; `time.time()` does not produce such readings.
- A backend exception is represented only by the call that raised it. Its class and message, and the logging of it (gpio.py:58, 60, 81), are not modelled.
- Concurrent pulses are not modelled: the code has no lock, and the model treats calls as strictly sequential.
- `app.py`, `run_local.py`, `config.py` and `tests/run_smoke.py` are not part of this model. They hold the web layer, process start-up, environment parsing and smoke calls.
