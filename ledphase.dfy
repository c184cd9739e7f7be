/** The three-LED phase fader: three copies of the triangle-wave fader,
    LEDs 2 and 3 started 85 and 170 phases (a sixth and a third of the
    510-tick cycle) ahead of LED 1, all stepped every 30 ms. */
module LedPhase {
  import opened Arduino
  import opened Fade

  const Led1Pin: int := 9
  const Led2Pin: int := 10
  const Led3Pin: int := 11

  /** Milliseconds between two steps of a fader. */
  const Interval: U32 := 30

  /** Ticks in one full cycle 0 -> 255 -> 0 with a step of magnitude 1. */
  const Period: nat := 2 * Max

  /** Starting phases of the three LEDs (brightness 0, 85 and 170, rising). */
  const Offset1: nat := 0
  const Offset2: nat := 85
  const Offset3: nat := 170

  /** The fader state `p` ticks into a cycle that starts at brightness 0, rising. */
  function AtPhase(p: nat): (l: Level)
    requires p < Period
    ensures 0 <= l.brightness <= Max
    ensures l.fadeAmount == (if p < Max then 1 else -1)
    ensures l.brightness == (if p <= Max then p else Period - p)
  {
    if p < Max then Level(p, 1) else Level(Period - p, -1)
  }

  /** The fader states that occur in a cycle: in range, unit step, and
      the step already pointing inwards at either end. */
  predicate Cycling(l: Level)
  {
    0 <= l.brightness <= Max
    && (l.fadeAmount == 1 || l.fadeAmount == -1)
    && (l.brightness == 0 ==> l.fadeAmount == 1)
    && (l.brightness == Max ==> l.fadeAmount == -1)
  }

  /** The position in the cycle of a state that occurs in it. */
  function PhaseOf(l: Level): (p: nat)
    requires Cycling(l)
    ensures p < Period && AtPhase(p) == l
  {
    if l.fadeAmount == 1 then l.brightness else Period - l.brightness
  }

  /** The states of the cycle are exactly the `Cycling` ones, and each
      occurs at one phase only. */
  lemma PhaseRoundTrip(p: nat)
    requires p < Period
    ensures Cycling(AtPhase(p)) && PhaseOf(AtPhase(p)) == p
  {
  }

  /** A tick keeps a cycling state in range with a unit step, and reverses
      the step exactly when the new brightness is 0 or 255. */
  lemma StepCycling(l: Level)
    requires Cycling(l)
    ensures Cycling(Step(l))
    ensures Step(l).fadeAmount == -l.fadeAmount <==> (Step(l).brightness == 0 || Step(l).brightness == Max)
    ensures Step(l).fadeAmount == l.fadeAmount <==> 0 < Step(l).brightness < Max
  {
  }

  /** A tick advances the phase by one, modulo the period. */
  lemma StepAdvancesPhase(p: nat)
    requires p < Period
    ensures Step(AtPhase(p)) == AtPhase((p + 1) % Period)
  {
  }

  /** Whole periods do not change a phase. */
  lemma {:induction false} PlusPeriods(x: nat, q: nat)
    ensures (x + q * Period) % Period == x % Period
  {
    if q > 0 {
      PlusPeriods(x, q - 1);
      assert x + q * Period == (x + (q - 1) * Period) + Period;
    }
  }

  /** Adding to a phase that is already reduced gives the same phase. */
  lemma PhaseAdd(a: nat, b: nat)
    ensures (a % Period + b) % Period == (a + b) % Period
  {
    var q := a / Period;
    assert a == a % Period + q * Period;
    PlusPeriods(a % Period + b, q);
  }

  /** `n` ticks of a fader. */
  function Steps(l: Level, n: nat): Level
    decreases n
  {
    if n == 0 then l else Steps(Step(l), n - 1)
  }

  /** `n` ticks advance the phase by `n`, modulo the period. */
  lemma {:induction false} StepsAdvancePhase(p: nat, n: nat)
    requires p < Period
    ensures Steps(AtPhase(p), n) == AtPhase((p + n) % Period)
    decreases n
  {
    if n > 0 {
      StepAdvancesPhase(p);
      StepsAdvancePhase((p + 1) % Period, n - 1);
      PhaseAdd(p + 1, n - 1);
    }
  }

  /** Every cycling state repeats with a period of 510 ticks. */
  lemma Periodic(l: Level, n: nat)
    requires Cycling(l)
    ensures Steps(l, n + Period) == Steps(l, n)
  {
    var p := PhaseOf(l);
    StepsAdvancePhase(p, n + Period);
    StepsAdvancePhase(p, n);
    PlusPeriods(p + n, 1);
  }

  /** Modular bookkeeping of the phase: one tick more moves every phase
      offset `off` one step on. */
  lemma TickPhase(t: nat, off: nat)
    ensures Step(AtPhase((t + off) % Period)) == AtPhase((t + 1 + off) % Period)
  {
    StepAdvancesPhase((t + off) % Period);
    PhaseAdd(t + off, 1);
  }

  /** Faders that tick together keep their phase difference: a fader
      started `d` phases ahead of one at phase `p` is still `d` phases
      ahead of it after `n` ticks, when that one is at phase `p + n`. */
  lemma PhaseDifferencePreserved(p: nat, d: nat, n: nat)
    requires p < Period
    ensures Steps(AtPhase((p + d) % Period), n) == AtPhase(((p + n) % Period + d) % Period)
  {
    StepsAdvancePhase((p + d) % Period, n);
    var x, y := ((p + d) % Period + n) % Period, ((p + n) % Period + d) % Period;
    PhaseAdd(p + d, n);
    PhaseAdd(p + n, d);
    assert x == y by {
      assert p + d + n == p + n + d;
    }
  }

  /** One LED's globals: its fader and the time of its last step. */
  datatype Led = Led(level: Level, previousMillis: U32)

  /** One of the three update blocks of `loop()`: either the LED is left
      alone, or it takes `now` as its timestamp; a cycling fader stays
      cycling. */
  function Update(led: Led, now: U32): (r: Led)
    ensures r == led || r.previousMillis == now
    ensures Cycling(led.level) ==> Cycling(r.level)
  {
    if Due(now, led.previousMillis, Interval) then Led(Step(led.level), now) else led
  }

  /** Three LEDs with one common timestamp that, after `t` steps, sit at
      phases `t`, `t + 85` and `t + 170` of the cycle. */
  predicate InStep(t: nat, led1: Led, led2: Led, led3: Led)
  {
    led1.previousMillis == led2.previousMillis == led3.previousMillis
    && led1.level == AtPhase((t + Offset1) % Period)
    && led2.level == AtPhase((t + Offset2) % Period)
    && led3.level == AtPhase((t + Offset3) % Period)
  }

  /** A pass of `loop()` keeps the three LEDs in step: either all three
      step, one phase on, or none does. */
  lemma UpdateInStep(t: nat, led1: Led, led2: Led, led3: Led, now: U32)
    requires InStep(t, led1, led2, led3)
    ensures Due(now, led1.previousMillis, Interval) ==>
              InStep(t + 1, Update(led1, now), Update(led2, now), Update(led3, now))
    ensures !Due(now, led1.previousMillis, Interval) ==>
              Update(led1, now) == led1 && Update(led2, now) == led2 && Update(led3, now) == led3
  {
    TickPhase(t, Offset1);
    TickPhase(t, Offset2);
    TickPhase(t, Offset3);
  }

  /** The `analogWrite` call of one update block, if it steps: at most one
      call, to the block's pin, with the brightness the block leaves. */
  function Output(led: Led, now: U32, pin: int): (o: seq<Event>)
    ensures |o| <= 1
    ensures o == [] <==> !Due(now, led.previousMillis, Interval)
    ensures forall e | e in o :: e == AnalogWrite(pin, Update(led, now).level.brightness)
  {
    if Due(now, led.previousMillis, Interval) then [AnalogWrite(pin, Update(led, now).level.brightness)] else []
  }

  /** The globals of the sketch and its `loop()`. */
  class Sketch {
    var previousMillis1: U32
    var previousMillis2: U32
    var previousMillis3: U32
    var brightness1: int
    var brightness2: int
    var brightness3: int
    var fadeAmount1: int
    var fadeAmount2: int
    var fadeAmount3: int

    /** Number of steps taken so far (each LED takes the same steps). */
    ghost var ticks: nat

    ghost function Led1(): Led reads this`brightness1, this`fadeAmount1, this`previousMillis1 { Led(Level(brightness1, fadeAmount1), previousMillis1) }
    ghost function Led2(): Led reads this`brightness2, this`fadeAmount2, this`previousMillis2 { Led(Level(brightness2, fadeAmount2), previousMillis2) }
    ghost function Led3(): Led reads this`brightness3, this`fadeAmount3, this`previousMillis3 { Led(Level(brightness3, fadeAmount3), previousMillis3) }

    /** The three timestamps agree, and after `ticks` steps the LEDs sit at
        phases `ticks`, `ticks + 85` and `ticks + 170` of the cycle. */
    ghost predicate Valid()
      reads this
    {
      InStep(ticks, Led1(), Led2(), Led3())
    }

    /** The initial values of the globals. */
    constructor ()
      ensures Valid() && ticks == 0
      ensures Led1() == Led(Level(0, 1), 0)
      ensures Led2() == Led(Level(85, 1), 0)
      ensures Led3() == Led(Level(170, 1), 0)
    {
      previousMillis1, previousMillis2, previousMillis3 := 0, 0, 0;
      brightness1, brightness2, brightness3 := 0, 85, 170;
      fadeAmount1, fadeAmount2, fadeAmount3 := 1, 1, 1;
      ticks := 0;
    }

    /** The "Update LED 1" block of `loop()`; `written` is its `analogWrite` call, if any. */
    method UpdateLed1(currentMillis: U32) returns (written: seq<Event>)
      modifies this`previousMillis1, this`brightness1, this`fadeAmount1
      ensures Led1() == Update(old(Led1()), currentMillis)
      ensures written == Output(old(Led1()), currentMillis, Led1Pin)
    {
      written := [];
      if Elapsed(currentMillis, previousMillis1) >= Interval {
        previousMillis1 := currentMillis;
        brightness1 := brightness1 + fadeAmount1;
        if brightness1 <= 0 || brightness1 >= 255 {
          fadeAmount1 := -fadeAmount1;
        }
        written := [AnalogWrite(Led1Pin, brightness1)];
      }
    }

    /** The "Update LED 2" block of `loop()`; `written` is its `analogWrite` call, if any. */
    method UpdateLed2(currentMillis: U32) returns (written: seq<Event>)
      modifies this`previousMillis2, this`brightness2, this`fadeAmount2
      ensures Led2() == Update(old(Led2()), currentMillis)
      ensures written == Output(old(Led2()), currentMillis, Led2Pin)
    {
      written := [];
      if Elapsed(currentMillis, previousMillis2) >= Interval {
        previousMillis2 := currentMillis;
        brightness2 := brightness2 + fadeAmount2;
        if brightness2 <= 0 || brightness2 >= 255 {
          fadeAmount2 := -fadeAmount2;
        }
        written := [AnalogWrite(Led2Pin, brightness2)];
      }
    }

    /** The "Update LED 3" block of `loop()`; `written` is its `analogWrite` call, if any. */
    method UpdateLed3(currentMillis: U32) returns (written: seq<Event>)
      modifies this`previousMillis3, this`brightness3, this`fadeAmount3
      ensures Led3() == Update(old(Led3()), currentMillis)
      ensures written == Output(old(Led3()), currentMillis, Led3Pin)
    {
      written := [];
      if Elapsed(currentMillis, previousMillis3) >= Interval {
        previousMillis3 := currentMillis;
        brightness3 := brightness3 + fadeAmount3;
        if brightness3 <= 0 || brightness3 >= 255 {
          fadeAmount3 := -fadeAmount3;
        }
        written := [AnalogWrite(Led3Pin, brightness3)];
      }
    }

    /** One pass of `loop()` at clock reading `currentMillis`; `writes`
        are the `analogWrite` calls it makes. */
    method Loop(currentMillis: U32) returns (writes: seq<Event>)
      requires Valid()
      modifies this
      ensures Valid()
      ensures Led1() == Update(old(Led1()), currentMillis)
      ensures Led2() == Update(old(Led2()), currentMillis)
      ensures Led3() == Update(old(Led3()), currentMillis)
      ensures old(Due(currentMillis, previousMillis1, Interval)) <==> ticks == old(ticks) + 1
      ensures !old(Due(currentMillis, previousMillis1, Interval)) ==> ticks == old(ticks) && writes == []
      ensures old(Due(currentMillis, previousMillis1, Interval)) ==>
                previousMillis1 == currentMillis
                && writes == [AnalogWrite(Led1Pin, brightness1), AnalogWrite(Led2Pin, brightness2), AnalogWrite(Led3Pin, brightness3)]
      ensures 0 <= brightness1 <= Max && 0 <= brightness2 <= Max && 0 <= brightness3 <= Max
    {
      UpdateInStep(ticks, Led1(), Led2(), Led3(), currentMillis);
      if Due(currentMillis, previousMillis1, Interval) {
        ticks := ticks + 1;
      }
      var written1 := UpdateLed1(currentMillis);
      var written2 := UpdateLed2(currentMillis);
      var written3 := UpdateLed3(currentMillis);
      writes := written1 + written2 + written3;
    }
  }
}
