/** Small value types shared by the entities and systems of the boat game. */
module Basics {

  datatype Option<+T> = None | Some(value: T)

  /** A point or a velocity on the canvas, like the game's `Position` record. */
  datatype Vec2 = Vec2(x: real, y: real)

  function Abs(r: real): real {
    if r < 0.0 then -r else r
  }

  function Max(a: int, b: int): int {
    if a < b then b else a
  }

  /**
   * The value of the JavaScript expression `Math.min(num / den, 1)` for whole numbers
   * `num` and `den`. A zero divisor yields +Infinity (so the minimum is 1), NaN (for
   * 0 / 0) or -Infinity; `Num` records the two results that are not a finite number.
   */
  datatype Num = Finite(value: real) | NaN | NegInfinity

  function MinRatioOne(num: int, den: int): (p: Num)
    ensures p.NaN? <==> num == 0 && den == 0
    ensures p.NegInfinity? <==> num < 0 && den == 0
    ensures p.Finite? ==> p.value <= 1.0
    ensures p.Finite? ==> (p.value == 1.0 <==> (den > 0 && num >= den) || (den < 0 && num <= den) || (den == 0 && num > 0))
    ensures den > 0 && num >= 0 ==> p.Finite? && 0.0 <= p.value
    ensures den > 0 && num < den ==> p.Finite? && p.value * den as real == num as real
  {
    if den == 0 then
      if num > 0 then Finite(1.0) else if num == 0 then NaN else NegInfinity
    else
      var q := num as real / den as real;
      Finite(if q <= 1.0 then q else 1.0)
  }

  /** With a positive divisor the capped ratio never falls as the numerator grows: a progress bar only fills. */
  lemma MinRatioOneMonotone(earlier: int, later: int, den: int)
    requires earlier <= later && den > 0
    ensures MinRatioOne(earlier, den).Finite? && MinRatioOne(later, den).Finite?
    ensures MinRatioOne(earlier, den).value <= MinRatioOne(later, den).value
  {
    assert earlier as real / den as real <= later as real / den as real by {
      DivideMonotone(earlier as real, later as real, den as real);
    }
  }

  lemma DivideMonotone(a: real, b: real, d: real)
    requires a <= b && d > 0.0
    ensures a / d <= b / d
  {
  }
}
