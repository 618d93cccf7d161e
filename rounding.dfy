/** Rounding of data-point values to hundredths, as `Math.round(value * 100) / 100`
    does it. JavaScript numbers are modelled as mathematical reals. */
module Rounding {

  /** JavaScript's Math.round: the integer nearest to x, a tie going toward
      positive infinity. The ensures clause pins the result down uniquely. */
  function MathRound(x: real): (r: int)
    ensures x - 0.5 < r as real <= x + 0.5
  {
    (x + 0.5).Floor
  }

  /** A value that is a whole number of hundredths. */
  predicate IsCents(r: real) {
    (r * 100.0).Floor as real == r * 100.0
  }

  /** The value stored for a data point. */
  function Round2(v: real): (r: real)
    ensures IsCents(r)
    ensures v - 0.005 < r <= v + 0.005
  {
    MathRound(v * 100.0) as real / 100.0
  }

  /** Any whole number of hundredths within the rounding window of v is the
      rounded value: Round2 is the reference rounding, not merely some
      nearby value. */
  lemma Round2Unique(v: real, c: real)
    requires IsCents(c)
    requires v - 0.005 < c <= v + 0.005
    ensures c == Round2(v)
  {
    var k := (c * 100.0).Floor;
    var m := MathRound(v * 100.0);
    assert v * 100.0 - 0.5 < k as real <= v * 100.0 + 0.5;
    assert k == m;
  }

  /** Rounding a value that is already rounded changes nothing. */
  lemma Round2Idempotent(v: real)
    ensures Round2(Round2(v)) == Round2(v)
  {
    Round2Unique(Round2(v), Round2(v));
  }

  /** A value exactly halfway between two hundredths rounds upward. */
  lemma Round2TieUp(k: int)
    ensures Round2((k as real + 0.5) / 100.0) == (k + 1) as real / 100.0
  {
    var v := (k as real + 0.5) / 100.0;
    assert v * 100.0 == k as real + 0.5;
    assert MathRound(v * 100.0) == ((k + 1) as real).Floor == k + 1;
  }

  /** Rounding preserves order. */
  lemma Round2Monotone(v: real, w: real)
    requires v <= w
    ensures Round2(v) <= Round2(w)
  {
    var a, b := (v * 100.0 + 0.5).Floor, (w * 100.0 + 0.5).Floor;
    assert a <= b;
  }

  /** Ties go toward positive infinity, also for negative values: -0.005
      becomes 0, where rounding half away from zero would give -0.01. */
  lemma Round2NegativeTie()
    ensures Round2(-0.005) == 0.0
    ensures Round2(-1.005) == -1.0
  {
    Round2TieUp(-1);
    Round2TieUp(-101);
  }

  lemma Round2Example()
    ensures Round2(21.255) == 21.26
  {
    Round2TieUp(2125);
  }
}
