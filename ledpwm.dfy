/** The two-LED fader with a reset button: both LEDs fade together by
    steps of 5 every second, and holding the button (read LOW through the
    pull-up) sets the brightness back to 0 and restarts the timer. */
module LedPwm {
  import opened Arduino
  import opened Fade

  const Led1Pin: int := 9
  const Led2Pin: int := 10
  const ButtonPin: int := 2

  /** Milliseconds between two steps. */
  const Interval: U32 := 1000

  /** Magnitude of the step. */
  const Amount: int := 5

  /** The globals `brightness`, `fadeAmount` and `previousMillis`. */
  datatype State = State(brightness: int, fadeAmount: int, previousMillis: U32)

  /** What one pass of `loop()` reads: `millis()` and whether
      `digitalRead(buttonPin) == LOW`. */
  datatype Input = Input(currentMillis: U32, buttonLow: bool)

  /** The initial values of the globals. */
  const Initial: State := State(0, Amount, 0)

  /** The state after the button check of `loop()`: a held button sets
      brightness to 0 and restarts the timer, but leaves the step as it is. */
  function AfterButton(s: State, input: Input): (r: State)
    ensures r.fadeAmount == s.fadeAmount
    ensures input.buttonLow ==> r.brightness == 0 && r.previousMillis == input.currentMillis
    ensures !input.buttonLow ==> r == s
  {
    if input.buttonLow then s.(brightness := 0, previousMillis := input.currentMillis) else s
  }

  /** Whether the pass of `loop()` steps the fader. */
  predicate Fires(s: State, input: Input)
  {
    Due(input.currentMillis, AfterButton(s, input).previousMillis, Interval)
  }

  /** The globals after one pass of `loop()`: the step keeps its magnitude,
      and unless the pass changes nothing, the timer is restarted at
      `currentMillis`. */
  function Next(s: State, input: Input): (r: State)
    ensures r.fadeAmount == s.fadeAmount || r.fadeAmount == -s.fadeAmount
    ensures r == s || r.previousMillis == input.currentMillis
  {
    var r := AfterButton(s, input);
    if Fires(s, input) then
      var l := Step(Level(r.brightness, r.fadeAmount));
      State(l.brightness, l.fadeAmount, input.currentMillis)
    else
      r
  }

  /** The `analogWrite` calls of one pass of `loop()`: none, or one to
      each LED, exactly when the pass steps. */
  function Output(s: State, input: Input): (o: seq<Event>)
    ensures o == [] <==> !Fires(s, input)
    ensures |o| == 0 || |o| == 2
  {
    if Fires(s, input) then
      [AnalogWrite(Led1Pin, Next(s, input).brightness), AnalogWrite(Led2Pin, Next(s, input).brightness)]
    else
      []
  }

  /** A pass with the button held resets brightness and timer, and never
      steps in the same pass, since the interval is positive. */
  lemma ResetSkipsStep(s: State, now: U32)
    ensures Next(s, Input(now, true)) == State(0, s.fadeAmount, now)
    ensures Output(s, Input(now, true)) == []
  {
  }

  /** Without the button, a pass steps exactly when at least 1000 ms have
      elapsed (across a wrap of the clock), and then records the time and
      writes the new brightness to both LEDs. */
  lemma StepOnlyWhenDue(s: State, now: U32)
    ensures Output(s, Input(now, false)) != [] <==> Elapsed(now, s.previousMillis) >= 1000
    ensures Output(s, Input(now, false)) == [] ==> Next(s, Input(now, false)) == s
    ensures Output(s, Input(now, false)) != [] ==>
              Next(s, Input(now, false)).previousMillis == now
              && Next(s, Input(now, false)).brightness == s.brightness + s.fadeAmount
  {
  }

  /** Every pass writes both LEDs with the same value, the new brightness. */
  lemma OutputIsBrightness(s: State, input: Input)
    ensures Output(s, input) == []
            || Output(s, input) == [AnalogWrite(Led1Pin, Next(s, input).brightness), AnalogWrite(Led2Pin, Next(s, input).brightness)]
  {
  }

  /** The states the sketch can reach, whatever the button does: the
      brightness is a multiple of 5 in [-5, 255], the step is +5 or -5,
      and at either extreme the step already points back inwards. */
  predicate Reachable(s: State)
  {
    s.brightness % Amount == 0
    && -Amount <= s.brightness <= Max
    && (s.fadeAmount == Amount || s.fadeAmount == -Amount)
    && (s.brightness == Max ==> s.fadeAmount == -Amount)
    && (s.brightness == -Amount ==> s.fadeAmount == Amount)
  }

  /** The initial values are in range, hence reachable. */
  lemma InitialInRange()
    ensures InRange(Initial) && Reachable(Initial)
  {
  }

  /** `Reachable` is kept by every pass; every value written lies in
      [-5, 255] and is a multiple of 5. */
  lemma NextReachable(s: State, input: Input)
    requires Reachable(s)
    ensures Reachable(Next(s, input))
    ensures forall e | e in Output(s, input) :: e.AnalogWrite? && -Amount <= e.value <= Max && e.value % Amount == 0
  {
  }

  /** The states in which the brightness is a valid duty value: a multiple
      of 5 in [0, 255], the step +5 or -5 and pointing inwards at 0 and 255. */
  predicate InRange(s: State)
  {
    s.brightness % Amount == 0
    && 0 <= s.brightness <= Max
    && (s.fadeAmount == Amount || s.fadeAmount == -Amount)
    && (s.brightness == 0 ==> s.fadeAmount == Amount)
    && (s.brightness == Max ==> s.fadeAmount == -Amount)
  }

  /** A pass keeps the brightness in [0, 255] provided the button is not
      held while the LEDs are dimming. */
  lemma NextInRange(s: State, input: Input)
    requires InRange(s)
    requires input.buttonLow ==> s.fadeAmount > 0
    ensures InRange(Next(s, input))
    ensures forall e | e in Output(s, input) :: e.AnalogWrite? && 0 <= e.value <= Max
  {
  }

  /** The globals after a sequence of passes of `loop()`. */
  function Run(s: State, inputs: seq<Input>): State
    decreases |inputs|
  {
    if inputs == [] then s else Run(Next(s, inputs[0]), inputs[1..])
  }

  /** The `analogWrite` calls of a sequence of passes, in order. */
  function RunOutput(s: State, inputs: seq<Input>): seq<Event>
    decreases |inputs|
  {
    if inputs == [] then [] else Output(s, inputs[0]) + RunOutput(Next(s, inputs[0]), inputs[1..])
  }

  /** In a run from `s`, the button is held only in passes that start with
      the LEDs brightening. */
  predicate ResetsWhileRising(s: State, inputs: seq<Input>)
    decreases |inputs|
  {
    inputs == [] || ((inputs[0].buttonLow ==> s.fadeAmount > 0) && ResetsWhileRising(Next(s, inputs[0]), inputs[1..]))
  }

  /** No pass of the run has the button held. */
  predicate NoPress(inputs: seq<Input>)
  {
    forall i | 0 <= i < |inputs| :: !inputs[i].buttonLow
  }

  /** A run without presses meets the condition of `RunInRange`. */
  lemma {:induction false} NoPressResetsWhileRising(s: State, inputs: seq<Input>)
    requires NoPress(inputs)
    ensures ResetsWhileRising(s, inputs)
    decreases |inputs|
  {
    if inputs != [] {
      assert !inputs[0].buttonLow;
      assert NoPress(inputs[1..]) by {
        forall i | 0 <= i < |inputs[1..]| ensures !inputs[1..][i].buttonLow {
          assert inputs[1..][i] == inputs[i + 1];
        }
      }
      NoPressResetsWhileRising(Next(s, inputs[0]), inputs[1..]);
    }
  }

  /** From a state in range, a run whose resets all happen while the LEDs
      brighten stays in range and writes only values in [0, 255]. */
  lemma {:induction false} RunInRange(s: State, inputs: seq<Input>)
    requires InRange(s)
    requires ResetsWhileRising(s, inputs)
    ensures InRange(Run(s, inputs))
    ensures forall e | e in RunOutput(s, inputs) :: e.AnalogWrite? && 0 <= e.value <= Max
    decreases |inputs|
  {
    if inputs != [] {
      NextInRange(s, inputs[0]);
      RunInRange(Next(s, inputs[0]), inputs[1..]);
    }
  }

  /** With no button presses at all, the sketch started from its initial
      values only ever writes values in [0, 255]. */
  lemma NoPressInRange(inputs: seq<Input>)
    requires NoPress(inputs)
    ensures InRange(Run(Initial, inputs))
    ensures forall e | e in RunOutput(Initial, inputs) :: e.AnalogWrite? && 0 <= e.value <= Max
  {
    NoPressResetsWhileRising(Initial, inputs);
    RunInRange(Initial, inputs);
  }

  /** The two states between which the brightness is trapped after a reset
      while dimming: 0 dimming, and -5 brightening. */
  predicate Trapped(s: State)
  {
    (s.brightness == 0 && s.fadeAmount == -Amount) || (s.brightness == -Amount && s.fadeAmount == Amount)
  }

  /** A reset while dimming leaves the fader trapped. */
  lemma ResetWhileDimming(s: State, now: U32)
    requires s.fadeAmount == -Amount
    ensures Trapped(Next(s, Input(now, true)))
  {
  }

  /** Once trapped, and with no further presses, the fader stays trapped for
      ever and only ever writes -5 or 0. */
  lemma {:induction false} TrappedForever(s: State, inputs: seq<Input>)
    requires Trapped(s)
    requires NoPress(inputs)
    ensures Trapped(Run(s, inputs))
    ensures forall e | e in RunOutput(s, inputs) :: e == AnalogWrite(Led1Pin, -Amount) || e == AnalogWrite(Led2Pin, -Amount)
                                                  || e == AnalogWrite(Led1Pin, 0) || e == AnalogWrite(Led2Pin, 0)
    decreases |inputs|
  {
    if inputs != [] {
      assert !inputs[0].buttonLow;
      assert NoPress(inputs[1..]) by {
        forall i | 0 <= i < |inputs[1..]| ensures !inputs[1..][i].buttonLow {
          assert inputs[1..][i] == inputs[i + 1];
        }
      }
      TrappedForever(Next(s, inputs[0]), inputs[1..]);
    }
  }

  /** The defect as a concrete trace: a press at time `t` while dimming,
      then passes 1, 2 and 3 seconds later, write -5, 0 and -5. */
  lemma DimmingResetTrace(s: State, t: U32)
    requires s.fadeAmount == -Amount
    ensures RunOutput(s, [Input(t, true), Input((t + 1000) % Wrap, false), Input((t + 2000) % Wrap, false), Input((t + 3000) % Wrap, false)])
            == [AnalogWrite(Led1Pin, -5), AnalogWrite(Led2Pin, -5),
                AnalogWrite(Led1Pin, 0), AnalogWrite(Led2Pin, 0),
                AnalogWrite(Led1Pin, -5), AnalogWrite(Led2Pin, -5)]
  {
    var t1, t2, t3 := (t + 1000) % Wrap, (t + 2000) % Wrap, (t + 3000) % Wrap;
    ElapsedAcrossWrap(t, 1000);
    ElapsedAcrossWrap(t1, 1000);
    assert (t1 + 1000) % Wrap == t2;
    ElapsedAcrossWrap(t2, 1000);
    assert (t2 + 1000) % Wrap == t3;
    var inputs := [Input(t, true), Input(t1, false), Input(t2, false), Input(t3, false)];
    var s1 := Next(s, inputs[0]);
    assert s1 == State(0, -Amount, t);
    var s2 := Next(s1, inputs[1]);
    assert s2 == State(-Amount, Amount, t1);
    var s3 := Next(s2, inputs[2]);
    assert s3 == State(0, -Amount, t2);
    assert inputs[1..][1..][1..] == [inputs[3]];
    assert RunOutput(s3, [inputs[3]]) == [AnalogWrite(Led1Pin, -5), AnalogWrite(Led2Pin, -5)];
    assert RunOutput(s2, inputs[1..][1..]) == [AnalogWrite(Led1Pin, 0), AnalogWrite(Led2Pin, 0)] + RunOutput(s3, [inputs[3]]);
    assert RunOutput(s1, inputs[1..]) == [AnalogWrite(Led1Pin, -5), AnalogWrite(Led2Pin, -5)] + RunOutput(s2, inputs[1..][1..]);
    assert RunOutput(s, inputs) == [] + RunOutput(s1, inputs[1..]);
  }

  /** The evidently intended reset: back to 0 and brightening. A pass with
      the button held ends at brightness 0 with step +5; one without is the
      pass of the sketch. */
  function NextFixed(s: State, input: Input): (r: State)
    ensures input.buttonLow ==> r == State(0, Amount, input.currentMillis)
    ensures !input.buttonLow ==> r == Next(s, input)
  {
    var r := if input.buttonLow then State(0, Amount, input.currentMillis) else s;
    if Due(input.currentMillis, r.previousMillis, Interval) then
      var l := Step(Level(r.brightness, r.fadeAmount));
      State(l.brightness, l.fadeAmount, input.currentMillis)
    else
      r
  }

  /** With the intended reset the brightness stays in [0, 255] whatever
      the button does. */
  lemma NextFixedInRange(s: State, input: Input)
    requires InRange(s)
    ensures InRange(NextFixed(s, input))
  {
  }

  /** The globals of the sketch and its `loop()`. */
  class Sketch {
    var previousMillis: U32
    var brightness: int
    var fadeAmount: int

    ghost function Current(): State reads this { State(brightness, fadeAmount, previousMillis) }

    ghost predicate Valid()
      reads this
    {
      Reachable(Current())
    }

    /** The initial values of the globals. */
    constructor ()
      ensures Valid() && Current() == Initial
    {
      previousMillis := 0;
      brightness := 0;
      fadeAmount := 5;
    }

    /** One pass of `loop()` at clock reading `currentMillis`, with the
        button read LOW when `buttonLow`; `writes` are its `analogWrite` calls. */
    method Loop(currentMillis: U32, buttonLow: bool) returns (writes: seq<Event>)
      requires Valid()
      modifies this
      ensures Valid()
      ensures Current() == Next(old(Current()), Input(currentMillis, buttonLow))
      ensures writes == Output(old(Current()), Input(currentMillis, buttonLow))
      ensures brightness % Amount == 0 && -Amount <= brightness <= Max
      ensures fadeAmount == Amount || fadeAmount == -Amount
    {
      NextReachable(Current(), Input(currentMillis, buttonLow));
      writes := [];

      if buttonLow {
        brightness := 0;
        previousMillis := currentMillis;
      }

      if Elapsed(currentMillis, previousMillis) >= Interval {
        previousMillis := currentMillis;
        brightness := brightness + fadeAmount;
        if brightness <= 0 || brightness >= 255 {
          fadeAmount := -fadeAmount;
        }
        writes := [AnalogWrite(Led1Pin, brightness), AnalogWrite(Led2Pin, brightness)];
      }
    }
  }
}
