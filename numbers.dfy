/**
 * What the pages' `parseInt` makes of a number typed into, or written out
 * from, a number field.
 */
module Numbers {
  /** `parseInt` of a number's decimal text: the integer part, dropping the
      fraction towards zero. */
  function Trunc(x: real): (n: int)
    ensures x >= 0.0 ==> n >= 0 && n as real <= x < n as real + 1.0
    ensures x < 0.0 ==> n <= 0 && n as real - 1.0 < x <= n as real
  {
    if x >= 0.0 then x.Floor else -((-x).Floor)
  }

  predicate IsWhole(x: real) {
    x == x.Floor as real
  }

  /** Truncation keeps exactly the whole numbers. */
  lemma TruncKeepsWholeNumbers(x: real)
    ensures Trunc(x) as real == x <==> IsWhole(x)
  {
    if x < 0.0 {
      if IsWhole(x) {
        assert (-x).Floor == -(x.Floor);
      }
    }
  }
}
