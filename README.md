# LED sketches: a verified model

This project models three Arduino sketches that drive LEDs and proves
properties of the model in Dafny.

- `ledphase.py`: three PWM LEDs fade up and down as triangle waves. All
  three start rising, at brightness 0, 85 and 170, and take one step of 1
  every 30 ms. LEDs 2 and 3 start 85 and 170 phases ahead of LED 1. In the
  510-tick cycle that is a sixth and a third of a cycle, i.e. 60 and 120
  degrees. The source comments at ledphase.py:9-10 say 120 and 240 degrees,
  but the code does not do that. The model follows the code
  (`PhaseDifferencePreserved`, `Sketch.Valid`).
- `etc/ledpwm.py`: two PWM LEDs fade together in steps of 5 every 1000 ms.
  Holding a button (read LOW through the pull-up) sets the brightness back
  to 0 and restarts the timer.
- `ledtrail.py`: a chase across ten digital LEDs. Each pass lights LEDs
  `i` and `i + 1`, waits, and clears LED `i`, for `i` from 0 to 8. It then
  clears LED 9. The wait is the potentiometer reading divided by 4.

Files:

- `arduino.dfy` (module `Arduino`): the 32-bit millisecond clock (`U32`).
  It also holds `Elapsed`, the `unsigned long` subtraction
  `currentMillis - previousMillis`, which wraps modulo 2^32. The hardware
  calls are recorded as `Event`s (`AnalogWrite`, `DigitalWrite`, `Delay`).
- `fade.dfy` (module `Fade`): the step-and-reflect of a fader, which both
  fading sketches share.
- `ledphase.dfy` (module `LedPhase`): class `Sketch` holds the nine
  globals, and its `Loop(currentMillis)` is `loop()`. The class is proved
  against a pure cycle model, `AtPhase`: phase `p` of the 510-tick cycle
  0 -> 255 -> 0. A ghost step counter ties the three LEDs to phases
  `t`, `t + 85` and `t + 170`.
- `ledpwm.dfy` (module `LedPwm`): class `Sketch` holds the three globals,
  and its `Loop(currentMillis, buttonLow)` is `loop()`. It is proved against
  the pure transition `Next`/`Output` and runs of it (`Run`/`RunOutput`).
- `ledtrail.dfy` (module `LedTrail`): method `Loop(levels, reading)`. It
  changes a 10-element `array<bool>` of pin levels in place and returns the
  trace of calls it makes. The trace is proved to be `LoopTrace(speed)`, and
  replaying the trace on the entry levels gives the exit levels. Because
  every array access is bounds-checked, the verified method also shows that
  indices `i`, `i + 1` and 9 always lie in [0, 9].

`millis()`, `digitalRead` and `analogRead` become parameters of `Loop`.
`analogWrite`, `digitalWrite` and `delay` become recorded events.

What the fader sketches actually do, compared with a plain "brightness
stays in [0, 255]" reading:

- `ledphase.py` really does keep every LED in [0, 255].
- In `etc/ledpwm.py`, the brightness is always a multiple of 5 in
  [-5, 255] (`Reachable`). It stays in [0, 255] if the button is never
  held while the LEDs dim (`RunInRange`), and in particular if it is
  never pressed (`NoPressInRange`).
- A press while dimming, followed by any step, leaves the range. The press
  traps the brightness between 0 and -5 (`ResetWhileDimming`), and the first
  step writes -5 to `analogWrite` (`TrappedForever`, `DimmingResetTrace`). See
  "## Findings".

Neither fader clamps its brightness. Both reverse the step once the new
value is at or beyond an end of the range. That keeps `ledphase.py` in range,
but not `etc/ledpwm.py`.

All sizes stay far inside a 16-bit `int`: [0, 255] and [-5, 255]. So the
model's unbounded `int` brightness is exact. The clock is modelled with
explicit wrap-around.

## Model

| member | source | states |
|---|---|---|
| `Arduino.Elapsed` | ledphase.py:26 | the `unsigned long` difference is the forward distance from `prev` to `now` modulo 2^32, and is at most `now` exactly when no wrap happened |
| `Arduino.ElapsedAcrossWrap` | etc/ledpwm.py:26 | if the clock advanced `d` ms from `prev`, possibly wrapping past 2^32 - 1, the guard reads exactly `d` |
| `Fade.Step` | ledphase.py:28-32 | a tick moves the brightness by the step; the step keeps its magnitude and reverses exactly when the new brightness is <= 0 or >= 255 |
| `LedPhase.AtPhase` | ledphase.py:28-32 | closed form of the cycle: phase `p` has brightness `p` with step +1 for `p < 255`, and brightness `510 - p` with step -1 from 255 on; brightness lies in [0, 255] |
| `LedPhase.PhaseOf` | ledphase.py:28-32 | every in-range, unit-step state that points inwards at 0 and 255 is some phase of the cycle |
| `LedPhase.PhaseRoundTrip` | ledphase.py:28-32 | each phase of the cycle is such a state, and occurs at that phase only |
| `LedPhase.StepCycling` | ledphase.py:30-32 | from a cycle state, a tick stays in [0, 255] with a unit step; the step flips exactly when the new brightness is 0 or 255, and is unchanged otherwise |
| `LedPhase.StepAdvancesPhase` | ledphase.py:28-32 | one tick moves the phase on by one, modulo 510 |
| `LedPhase.StepsAdvancePhase` | ledphase.py:28-32 | `n` ticks move the phase on by `n`, modulo 510 |
| `LedPhase.Periodic` | ledphase.py:28-32 | from every cycle state the run repeats with period 510 ticks: the state after `n + 510` ticks is the state after `n` |
| `LedPhase.PhaseDifferencePreserved` | ledphase.py:8-10 | two faders ticking together stay the same number of phases apart (the 85 and 170 offsets are preserved) |
| `LedPhase.Update` | ledphase.py:26-35 | reference definition of one update block; it either leaves the LED alone or sets its timestamp to `now`, and a cycling fader stays cycling (the methods `UpdateLed1..3` are proved against it) |
| `LedPhase.Output` | ledphase.py:34 | a block makes at most one `analogWrite`, exactly when it steps, to its own pin, with the brightness the block leaves |
| `LedPhase.UpdateInStep` | ledphase.py:25-59 | with a common timestamp and phases `t`, `t+85`, `t+170`, the three update blocks either all step, to phases one further on, or all leave their LED unchanged |
| `LedPhase.Sketch.constructor` | ledphase.py:5-13 | the initial globals: timestamps 0, brightness 0, 85, 170, steps +1; the sketch invariant holds |
| `LedPhase.Sketch.UpdateLed1` | ledphase.py:25-35 | the "Update LED 1" block: the LED steps and takes `currentMillis` as its timestamp iff the wrapped elapsed time is at least 30, otherwise it is unchanged; it writes the new brightness to pin 9 when it steps; it touches only this LED's three globals |
| `LedPhase.Sketch.UpdateLed2` | ledphase.py:37-47 | the "Update LED 2" block: the LED steps and takes `currentMillis` as its timestamp iff the wrapped elapsed time is at least 30, otherwise it is unchanged; it writes the new brightness to pin 10 when it steps; it touches only this LED's three globals |
| `LedPhase.Sketch.UpdateLed3` | ledphase.py:49-59 | the "Update LED 3" block: the LED steps and takes `currentMillis` as its timestamp iff the wrapped elapsed time is at least 30, otherwise it is unchanged; it writes the new brightness to pin 11 when it steps; it touches only this LED's three globals |
| `LedPhase.Sketch.Loop` | ledphase.py:21-60 | each LED's new state depends only on its own old state (the three blocks run in order): it steps and takes `currentMillis` as its timestamp iff the wrapped elapsed time is at least 30, and is otherwise unchanged; timestamps stay equal, so all three fire together; each `analogWrite` gets the new brightness; brightness stays in [0, 255] and the phase offsets are kept |
| `LedPwm.AfterButton` | etc/ledpwm.py:20-24 | a held button sets brightness to 0 and `previousMillis` to `currentMillis` and keeps `fadeAmount` unchanged; without it the state is unchanged |
| `LedPwm.Next` | etc/ledpwm.py:16-41 | reference definition of one pass (`Sketch.Loop` is proved against it; `NextReachable` and `RunInRange` are about it): the step keeps its magnitude, and unless nothing changes, `previousMillis` becomes `currentMillis` |
| `LedPwm.Output` | etc/ledpwm.py:26-40 | a pass makes no `analogWrite` when it does not step, and two when it does |
| `LedPwm.InitialInRange` | etc/ledpwm.py:5-8 | the initial values (brightness 0, step +5) are in range and reachable |
| `LedPwm.ResetSkipsStep` | etc/ledpwm.py:20-27 | with the button LOW, brightness becomes 0 and `previousMillis` becomes `currentMillis`; since 0 < 1000, no step and no write happen in that pass |
| `LedPwm.StepOnlyWhenDue` | etc/ledpwm.py:26-30 | without the button, a pass writes iff the wrapped elapsed time is at least 1000; if it does not write, nothing changes; if it does, `previousMillis` is `currentMillis` and brightness moves by `fadeAmount` |
| `LedPwm.OutputIsBrightness` | etc/ledpwm.py:37-39 | when a pass writes, it writes both LEDs, in order, with the same value: the new brightness |
| `LedPwm.NextReachable` | etc/ledpwm.py:7-35 | from the initial values and under any button behaviour, brightness is a multiple of 5 in [-5, 255] and the step is +5 or -5; every written value is one such brightness |
| `LedPwm.NextInRange` | etc/ledpwm.py:20-35 | a pass whose button is held only while the step is positive keeps brightness in [0, 255] and writes only values in [0, 255] |
| `LedPwm.NoPressResetsWhileRising` | etc/ledpwm.py:20 | a run with no presses never resets while dimming |
| `LedPwm.RunInRange` | etc/ledpwm.py:16-41 | any run whose resets all come while the LEDs brighten stays in [0, 255] and writes only values in [0, 255] |
| `LedPwm.NoPressInRange` | etc/ledpwm.py:5-41 | from the initial values, a run without presses writes only values in [0, 255] |
| `LedPwm.ResetWhileDimming` | etc/ledpwm.py:20-24 | a reset while `fadeAmount` is -5 leaves brightness 0 with step -5 |
| `LedPwm.TrappedForever` | etc/ledpwm.py:26-40 | from brightness 0 with step -5, or -5 with step +5, and with no further presses, the sketch stays in those two states for ever and writes only -5 and 0 |
| `LedPwm.DimmingResetTrace` | etc/ledpwm.py:16-41 | a press while dimming, followed by passes 1, 2 and 3 s later, writes -5, 0, -5 to both LEDs |
| `LedPwm.NextFixed` | etc/ledpwm.py:20-24 | the corrected pass: a held button ends the pass at brightness 0, step +5, timer `currentMillis`; without a press it is the sketch's pass `Next` |
| `LedPwm.NextFixedInRange` | etc/ledpwm.py:20-24 | with the corrected reset, brightness stays in [0, 255] under any button behaviour |
| `LedPwm.Sketch.constructor` | etc/ledpwm.py:5-8 | the initial globals: timestamp 0, brightness 0, step +5 |
| `LedPwm.Sketch.Loop` | etc/ledpwm.py:16-41 | the fields after a pass are `Next` of the old fields and the `analogWrite` calls are `Output`; brightness stays a multiple of 5 in [-5, 255], and the step stays +5 or -5 |
| `LedTrail.Speed` | ledtrail.py:11 | for a 10-bit reading, `reading / 4` lies in [0, 255] and is the reading rounded down to a multiple of 4, divided by 4 |
| `LedTrail.Iteration` | ledtrail.py:14-17 | one iteration makes four calls; the third is `delay(speed)` and the others are writes addressed to `ledPins` |
| `LedTrail.Chase` | ledtrail.py:13-18 | the first `n` iterations of the `for` loop make exactly four calls each, every one `delay(speed)` or a write addressed to `ledPins` |
| `LedTrail.LoopTrace` | ledtrail.py:13-19 | one pass makes 37 calls, every one `delay(speed)` or a write addressed to `ledPins`, the last clearing `ledPins[9]` |
| `LedTrail.Apply` | ledtrail.py:14 | effect of one `digitalWrite` on the pin levels: the LED it addresses takes the written level, every other LED keeps its level |
| `LedTrail.Replay` | ledtrail.py:13-19 | effect of a sequence of calls on the pin levels, in order: an LED that no call writes keeps its level (`Loop` is proved against it) |
| `LedTrail.ApplyPin` | ledtrail.py:1 | because `ledPins` is a run of consecutive pins, a write addressed to `ledPins[i]` sets the level of LED `i` and no other |
| `LedTrail.ReplayIteration` | ledtrail.py:13-18 | one iteration sets LED `i` and LED `i + 1` HIGH, then LED `i` LOW |
| `LedTrail.AfterIterations` | ledtrail.py:13-18 | starting from all LOW, after iteration `i` only LED `i + 1` is HIGH |
| `LedTrail.LoopTraceShape` | ledtrail.py:13-19 | iteration `i` occupies positions 4i to 4i+3 of the pass's trace: HIGH `ledPins[i]`, HIGH `ledPins[i+1]`, `delay(speed)`, LOW `ledPins[i]` |
| `LedTrail.DuringDelay` | ledtrail.py:13-16 | starting from all LOW, exactly LEDs `i` and `i + 1` are HIGH during the delay of iteration `i` |
| `LedTrail.LoopTallies` | ledtrail.py:13-19 | a pass calls `delay(speed)` 9 times, for 9 * speed ms in all, and `digitalWrite` 28 times |
| `LedTrail.Loop` | ledtrail.py:10-20 | the calls made are `LoopTrace(reading / 4)`; the new pin levels are the old ones with that trace replayed on them; all ten LEDs are LOW on return, whatever their levels on entry |

## Left out

- `setup()` in all three sketches only sets pin modes, so it is not modelled. The initial "all LEDs LOW" state is an explicit hypothesis (`AllLow`) of the chase lemmas.
- `millis()`, `digitalRead` and `analogRead` are hardware inputs. They are parameters of `Loop`, and the reading is typed as the converter's range [0, 1023].
- `analogWrite`, `digitalWrite` and `delay` are recorded as events. Their electrical effect, the PWM duty cycle and the real time spent in `delay` cannot be expressed here.
- `analogWrite` truncates an out-of-range value such as -5 to a byte. That is library code outside the sketches, so the model records the `int` passed.
- The pin constants (`led1`, `led2`, `led3`, `buttonPin`, `potPin`) appear only as event addresses and as names, not as hardware configuration.

## Findings

| source | as written | input that shows it | evidently intended | confidence | as-written member | corrected member |
|---|---|---|---|---|---|---|
| etc/ledpwm.py:20-24 | the reset sets brightness to 0 but leaves `fadeAmount` as it is; the next step from 0 with `fadeAmount` = -5 gives -5, the reflection flips the step, the step after gives 0, which passes the `<= 0` test again, and the fader bounces between -5 and 0 for ever | button LOW in one pass while `fadeAmount` is -5 (any time after the first climb to 255), then passes 1, 2, 3 s later with the button released: writes -5, 0, -5 | a reset starts a new fade from off, brightening, so brightness stays in [0, 255] | high; not executed | `LedPwm.DimmingResetTrace` | `LedPwm.NextFixedInRange` |

The class `LedPwm.Sketch` models the sketch as written, since that is the
program that runs. `NextFixed` is the corrected transition: the reset also
sets `fadeAmount` to +5.
