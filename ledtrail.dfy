/** The ten-LED chase: each pass of `loop()` walks a pair of lit LEDs
    from the first pin to the last, pausing for a time read from a
    potentiometer. */
module LedTrail {
  import opened Arduino

  /** The `ledPins` array: ten consecutive digital pins. */
  const LedPins: seq<int> := [2, 3, 4, 5, 6, 7, 8, 9, 10, 11]

  /** Number of LEDs. */
  const Count: nat := 10

  /** A reading of `analogRead`, from the 10-bit converter. */
  type Reading = x: int | 0 <= x <= 1023

  /** `analogRead(potPin) / 4`: the delay in milliseconds, the reading
      scaled down to 8 bits. */
  function Speed(reading: Reading): (speed: int)
    ensures 0 <= speed <= 255
    ensures 4 * speed <= reading < 4 * speed + 4
  {
    reading / 4
  }

  /** A call of the chase: `delay(speed)`, or a `digitalWrite` addressed
      to one of `ledPins`. */
  predicate ChaseCall(speed: int, e: Event)
  {
    e == Delay(speed) || (e.DigitalWrite? && e.pin in LedPins)
  }

  /** Whether call `e` writes LED `j`, that is, pin `ledPins[j]`. */
  predicate Addresses(e: Event, j: nat)
    requires j < Count
  {
    e.DigitalWrite? && e.pin == LedPins[j]
  }

  /** The calls made by iteration `i` of the `for` loop: four calls, the
      third of them the delay, the others writes to `ledPins`. */
  function Iteration(speed: int, i: nat): (calls: seq<Event>)
    requires i < Count - 1
    ensures |calls| == 4 && calls[2] == Delay(speed)
    ensures forall e | e in calls :: ChaseCall(speed, e)
  {
    [DigitalWrite(LedPins[i], true), DigitalWrite(LedPins[i + 1], true), Delay(speed), DigitalWrite(LedPins[i], false)]
  }

  /** The calls made by the first `n` iterations of the `for` loop. */
  function Chase(speed: int, n: nat): (trace: seq<Event>)
    requires n <= Count - 1
    ensures |trace| == 4 * n
    ensures forall e | e in trace :: ChaseCall(speed, e)
  {
    if n == 0 then [] else Chase(speed, n - 1) + Iteration(speed, n - 1)
  }

  /** The calls made by one pass of `loop()`: 37 calls, all of them
      `delay(speed)` or writes to `ledPins`, the last clearing `ledPins[9]`. */
  function LoopTrace(speed: int): (trace: seq<Event>)
    ensures |trace| == 4 * (Count - 1) + 1
    ensures trace[4 * (Count - 1)] == DigitalWrite(LedPins[Count - 1], false)
    ensures forall e | e in trace :: ChaseCall(speed, e)
  {
    Chase(speed, Count - 1) + [DigitalWrite(LedPins[Count - 1], false)]
  }

  /** The pin levels after one call: a write to one of the LEDs sets its
      level, and every other LED keeps its level. */
  function Apply(levels: seq<bool>, e: Event): (r: seq<bool>)
    requires |levels| == Count
    ensures |r| == Count
    ensures forall j | 0 <= j < Count :: r[j] == if Addresses(e, j) then e.high else levels[j]
  {
    match e
    case DigitalWrite(pin, high) =>
      if LedPins[0] <= pin <= LedPins[Count - 1] then levels[pin - LedPins[0] := high] else levels
    case _ => levels
  }

  /** The pin levels after a sequence of calls, in order: an LED that no
      call writes keeps its level. */
  function Replay(levels: seq<bool>, trace: seq<Event>): (r: seq<bool>)
    requires |levels| == Count
    ensures |r| == Count
    ensures forall j | 0 <= j < Count && (forall k | 0 <= k < |trace| :: !Addresses(trace[k], j)) :: r[j] == levels[j]
    decreases |trace|
  {
    if trace == [] then levels else Apply(Replay(levels, trace[..|trace| - 1]), trace[|trace| - 1])
  }

  /** A write addressed to `ledPins[i]` sets the level of LED `i`. */
  lemma ApplyPin(levels: seq<bool>, i: nat, high: bool)
    requires |levels| == Count && i < Count
    ensures Apply(levels, DigitalWrite(LedPins[i], high)) == levels[i := high]
  {
    assert LedPins[i] - LedPins[0] == i;
  }

  lemma ReplayAppend(levels: seq<bool>, trace: seq<Event>, e: Event)
    requires |levels| == Count
    ensures Replay(levels, trace + [e]) == Apply(Replay(levels, trace), e)
  {
    assert (trace + [e])[..|trace|] == trace;
  }

  lemma {:induction false} ReplayConcat(levels: seq<bool>, a: seq<Event>, b: seq<Event>)
    requires |levels| == Count
    ensures Replay(levels, a + b) == Replay(Replay(levels, a), b)
    decreases |b|
  {
    if b == [] {
      assert a + b == a;
    } else {
      var b' := b[..|b| - 1];
      assert a + b == (a + b') + [b[|b| - 1]];
      assert b == b' + [b[|b| - 1]];
      ReplayAppend(levels, a + b', b[|b| - 1]);
      ReplayConcat(levels, a, b');
      ReplayAppend(Replay(levels, a), b', b[|b| - 1]);
    }
  }

  /** An iteration lights LEDs `i` and `i + 1`, then clears LED `i`. */
  lemma ReplayIteration(levels: seq<bool>, trace: seq<Event>, speed: int, i: nat)
    requires |levels| == Count && i < Count - 1
    ensures Replay(levels, trace + Iteration(speed, i)) == Replay(levels, trace)[i := true][i + 1 := true][i := false]
  {
    var it := Iteration(speed, i);
    var l := Replay(levels, trace);
    assert trace + it == trace + [it[0]] + [it[1]] + [it[2]] + [it[3]];
    ReplayAppend(levels, trace + [it[0]] + [it[1]] + [it[2]], it[3]);
    ReplayAppend(levels, trace + [it[0]] + [it[1]], it[2]);
    ReplayAppend(levels, trace + [it[0]], it[1]);
    ReplayAppend(levels, trace, it[0]);
    ApplyPin(l, i, true);
    ApplyPin(l[i := true], i + 1, true);
    ApplyPin(l[i := true][i + 1 := true], i, false);
  }

  /** All ten LEDs off. */
  function AllLow(): seq<bool>
  {
    seq(Count, j => false)
  }

  /** Exactly the LEDs `lo` to `hi` on. */
  function Lit(lo: int, hi: int): seq<bool>
  {
    seq(Count, j => lo <= j <= hi)
  }

  /** Lighting LEDs `i` and `i + 1` and then clearing LED `i` moves a single
      lit LED one place on. */
  lemma LitMoves(i: nat)
    requires i < Count - 1
    ensures (if i == 0 then AllLow() else Lit(i, i))[i := true][i + 1 := true] == Lit(i, i + 1)
    ensures Lit(i, i + 1)[i := false] == Lit(i + 1, i + 1)
  {
    var before := if i == 0 then AllLow() else Lit(i, i);
    var lit, moved := before[i := true][i + 1 := true], Lit(i, i + 1)[i := false];
    forall j | 0 <= j < Count
      ensures lit[j] == Lit(i, i + 1)[j] && moved[j] == Lit(i + 1, i + 1)[j]
    {
      assert before[j] == (i != 0 && j == i);
    }
  }

  /** The levels a pass of the chase leaves after each iteration, from all
      off: after iteration `i` only LED `i + 1` is lit. */
  lemma {:induction false} AfterIterations(speed: int, n: nat)
    requires n <= Count - 1
    ensures Replay(AllLow(), Chase(speed, n)) == if n == 0 then AllLow() else Lit(n, n)
  {
    if n > 0 {
      AfterIterations(speed, n - 1);
      ReplayIteration(AllLow(), Chase(speed, n - 1), speed, n - 1);
      LitMoves(n - 1);
    }
  }

  /** The first `n` iterations are a prefix of the first `m`. */
  lemma {:induction false} ChasePrefix(speed: int, n: nat, m: nat)
    requires n <= m <= Count - 1
    ensures Chase(speed, m)[..4 * n] == Chase(speed, n)
    decreases m
  {
    if n < m {
      ChasePrefix(speed, n, m - 1);
      assert Chase(speed, m)[..4 * (m - 1)] == Chase(speed, m - 1);
      assert Chase(speed, m)[..4 * n] == Chase(speed, m)[..4 * (m - 1)][..4 * n];
    }
  }

  /** The shape of the trace of one pass: 37 calls, iteration `i` occupying
      positions 4i to 4i + 3, and the final clear of the last LED. */
  lemma LoopTraceShape(speed: int, i: nat)
    requires i < Count - 1
    ensures LoopTrace(speed)[4 * i .. 4 * i + 4] == Iteration(speed, i)
  {
    ChasePrefix(speed, i + 1, Count - 1);
    var t := LoopTrace(speed);
    assert t[..4 * (i + 1)] == Chase(speed, i + 1);
    assert t[4 * i .. 4 * i + 4] == t[..4 * (i + 1)][4 * i ..];
  }

  /** While iteration `i` waits, from all off on entry, exactly LEDs `i`
      and `i + 1` are lit. */
  lemma DuringDelay(speed: int, i: nat)
    requires i < Count - 1
    ensures LoopTrace(speed)[4 * i + 2] == Delay(speed)
    ensures Replay(AllLow(), LoopTrace(speed)[..4 * i + 2]) == Lit(i, i + 1)
  {
    var t := LoopTrace(speed);
    var it := Iteration(speed, i);
    var chase := Chase(speed, i);
    LoopTraceShape(speed, i);
    ChasePrefix(speed, i, Count - 1);
    assert t[..4 * i] == chase;
    assert t[4 * i] == it[0] && t[4 * i + 1] == it[1] && t[4 * i + 2] == it[2];
    assert t[..4 * i + 2] == (chase + [it[0]]) + [it[1]];
    AfterIterations(speed, i);
    var before := if i == 0 then AllLow() else Lit(i, i);
    assert Replay(AllLow(), chase) == before;
    ReplayAppend(AllLow(), chase, it[0]);
    ReplayAppend(AllLow(), chase + [it[0]], it[1]);
    ApplyPin(before, i, true);
    ApplyPin(before[i := true], i + 1, true);
    LitMoves(i);
  }

  /** How many `delay` calls a trace makes. */
  function Delays(trace: seq<Event>): nat
    decreases |trace|
  {
    if trace == [] then 0 else Delays(trace[..|trace| - 1]) + (if trace[|trace| - 1].Delay? then 1 else 0)
  }

  /** The total time a trace spends in `delay`. */
  function Waited(trace: seq<Event>): int
    decreases |trace|
  {
    if trace == [] then 0 else Waited(trace[..|trace| - 1]) + (if trace[|trace| - 1].Delay? then trace[|trace| - 1].ms else 0)
  }

  /** How many `digitalWrite` calls a trace makes. */
  function Writes(trace: seq<Event>): nat
    decreases |trace|
  {
    if trace == [] then 0 else Writes(trace[..|trace| - 1]) + (if trace[|trace| - 1].DigitalWrite? then 1 else 0)
  }

  lemma {:induction false} TalliesConcat(a: seq<Event>, b: seq<Event>)
    ensures Delays(a + b) == Delays(a) + Delays(b)
    ensures Waited(a + b) == Waited(a) + Waited(b)
    ensures Writes(a + b) == Writes(a) + Writes(b)
    decreases |b|
  {
    if b == [] {
      assert a + b == a;
    } else {
      var b' := b[..|b| - 1];
      assert (a + b)[..|a + b| - 1] == a + b';
      TalliesConcat(a, b');
    }
  }

  lemma Singleton(e: Event)
    ensures Delays([e]) == (if e.Delay? then 1 else 0)
    ensures Waited([e]) == (if e.Delay? then e.ms else 0)
    ensures Writes([e]) == (if e.DigitalWrite? then 1 else 0)
  {
    assert [e][..0] == [];
  }

  /** The first `n` iterations delay `n` times, `speed` each, and write
      three times each. */
  lemma {:induction false} ChaseTallies(speed: int, n: nat)
    requires n <= Count - 1
    ensures Delays(Chase(speed, n)) == n
    ensures Waited(Chase(speed, n)) == n * speed
    ensures Writes(Chase(speed, n)) == 3 * n
  {
    if n > 0 {
      ChaseTallies(speed, n - 1);
      var it := Iteration(speed, n - 1);
      TalliesConcat(Chase(speed, n - 1), it);
      assert it == [it[0]] + [it[1]] + [it[2]] + [it[3]];
      TalliesConcat([it[0]] + [it[1]] + [it[2]], [it[3]]);
      TalliesConcat([it[0]] + [it[1]], [it[2]]);
      TalliesConcat([it[0]], [it[1]]);
      Singleton(it[0]);
      Singleton(it[1]);
      Singleton(it[2]);
      Singleton(it[3]);
    }
  }

  /** One pass of `loop()` makes nine `delay(speed)` calls, waiting
      9 * speed ms in all, and 28 `digitalWrite` calls. */
  lemma LoopTallies(speed: int)
    ensures Delays(LoopTrace(speed)) == Count - 1
    ensures Waited(LoopTrace(speed)) == (Count - 1) * speed
    ensures Writes(LoopTrace(speed)) == 3 * (Count - 1) + 1
  {
    ChaseTallies(speed, Count - 1);
    TalliesConcat(Chase(speed, Count - 1), [DigitalWrite(LedPins[Count - 1], false)]);
    Singleton(DigitalWrite(LedPins[Count - 1], false));
  }

  /** One pass of `loop()`, with `levels` the LED levels and `reading` the
      potentiometer reading; `trace` is the sequence of calls it makes. */
  method Loop(levels: array<bool>, reading: Reading) returns (trace: seq<Event>)
    requires levels.Length == Count
    modifies levels
    ensures trace == LoopTrace(Speed(reading))
    ensures levels[..] == Replay(old(levels[..]), trace)
    ensures forall j | 0 <= j < Count :: !levels[j]
  {
    var speed := reading / 4;
    trace := [];
    for i := 0 to Count - 1
      invariant trace == Chase(speed, i)
      invariant levels[..] == Replay(old(levels[..]), trace)
      invariant forall j | 0 <= j < i :: !levels[j]
    {
      ghost var t0, l0 := trace, levels[..];
      levels[i] := true;
      trace := trace + [DigitalWrite(LedPins[i], true)];
      levels[i + 1] := true;
      trace := trace + [DigitalWrite(LedPins[i + 1], true)];
      trace := trace + [Delay(speed)];
      levels[i] := false;
      trace := trace + [DigitalWrite(LedPins[i], false)];
      assert trace == t0 + Iteration(speed, i);
      ReplayIteration(old(levels[..]), t0, speed, i);
    }
    ghost var t9 := trace;
    levels[Count - 1] := false;
    trace := trace + [DigitalWrite(LedPins[Count - 1], false)];
    ApplyPin(Replay(old(levels[..]), t9), Count - 1, false);
    ReplayAppend(old(levels[..]), t9, DigitalWrite(LedPins[Count - 1], false));
  }
}
