/** The triangle-wave step shared by the fading sketches: add the signed
    step to the brightness, and reverse the step once the new brightness
    is at or beyond either end of the 8-bit range. */
module Fade {

  /** Largest PWM duty value. */
  const Max: int := 255

  /** A brightness together with the signed step applied on each tick. */
  datatype Level = Level(brightness: int, fadeAmount: int)

  /** The reflection test `brightness <= 0 || brightness >= 255`. */
  predicate AtEnd(brightness: int)
  {
    brightness <= 0 || brightness >= Max
  }

  /** One tick of a fader. */
  function Step(l: Level): (r: Level)
    ensures r.brightness - l.brightness == l.fadeAmount
    ensures r.fadeAmount == l.fadeAmount || r.fadeAmount == -l.fadeAmount
    ensures l.fadeAmount != 0 ==> (r.fadeAmount == -l.fadeAmount <==> AtEnd(r.brightness))
  {
    var b := l.brightness + l.fadeAmount;
    Level(b, if AtEnd(b) then -l.fadeAmount else l.fadeAmount)
  }
}
