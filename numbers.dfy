/** Rounding on exact reals. JavaScript's `Math.round(x)` is `floor(x + 1/2)`;
    Python's `round(x, 4)` is approximated by the same rule at four decimals. */
module Numbers {

  /** The integer nearest to `x`, halves rounded up (`Math.round`). */
  function Round(x: real): (n: int)
    ensures x - 0.5 < n as real <= x + 0.5
  {
    (x + 0.5).Floor
  }

  lemma RoundMonotone(x: real, y: real)
    requires x <= y
    ensures Round(x) <= Round(y)
  {
  }

  /** Rounding never leaves an integer interval that holds `x`. */
  lemma RoundWithin(x: real, lo: int, hi: int)
    requires lo as real <= x <= hi as real
    ensures lo <= Round(x) <= hi
  {
  }

  /** `round(x, 4)`: `x` to four decimal places. */
  function Round4(x: real): (r: real)
    ensures x - 0.00005 < r <= x + 0.00005
  {
    Round(x * 10000.0) as real / 10000.0
  }
}
