/** Small facts about scaling and capping amounts, each over plain reals so
    that the solver meets products of two unknowns only in a tiny context. */
module FeeArith {
  import opened FeeLogic

  /** Adding a non-negative multiple never lowers an amount, and a larger
      multiple never gives less. */
  lemma AddScaledMonotone(base: real, a: real, b: real, c: real)
    requires 0.0 <= a <= b && 0.0 <= c
    ensures base <= base + a * c <= base + b * c
  {
    assert a * c <= b * c;
  }

  /** With a positive factor a larger multiple gives strictly more. */
  lemma AddScaledStrict(base: real, a: real, b: real, c: real)
    requires a < b && 0.0 < c
    ensures base + a * c < base + b * c
  {
    assert a * c < b * c;
  }

  lemma ApplyCapMonotone(a: real, b: real, cap: Cap)
    requires a <= b
    ensures ApplyCap(a, cap) <= ApplyCap(b, cap)
  {
  }

  /** Amounts of `a` and `b` non-negative multiples of a non-negative factor
      on the same base, a <= b <= top, lie in order between the base and `top`
      multiples. */
  lemma ScaledBetween(base: real, a: real, b: real, top: real, c: real, fa: real, fb: real)
    requires 0.0 <= a <= b <= top && 0.0 <= c
    requires fa == base + a * c && fb == base + b * c
    ensures base <= fa <= fb <= base + top * c
  {
    AddScaledMonotone(base, a, b, c);
    AddScaledMonotone(base, b, top, c);
  }

  /** Amounts of `a` and `b` multiples of a positive factor on the same base,
      a < b, are strictly ordered. */
  lemma StrictlyAbove(base: real, a: real, b: real, c: real, fa: real, fb: real)
    requires a < b && 0.0 < c
    requires fa == base + a * c && fb == base + b * c
    ensures fa < fb
  {
    assert a * c < b * c by {
      AddScaledStrict(0.0, a, b, c);
    }
  }

  /** Cutting down to a cap no lower than a floor keeps an amount above that
      floor at or above it. */
  lemma CapKeepsFloor(floor: real, x: real, cap: Cap)
    requires floor <= x
    requires cap.NoCap? || floor <= cap.amount
    ensures floor <= ApplyCap(x, cap)
  {
  }
}
