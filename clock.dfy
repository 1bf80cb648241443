/**
 * Wall-clock arithmetic shared by the CPU burner and the power sampler:
 * a `struct timespec` and `usecdiff`, the elapsed time between two
 * readings in whole microseconds.
 */
module Clock {
  /** A `struct timespec` reading: whole seconds and nanoseconds. */
  datatype Timespec = Timespec(sec: int, nsec: int)

  /**
   * C integer division, which truncates toward zero (section 6.5.5 of
   * ISO/IEC 9899:1999): the remainder has the sign of the dividend and is
   * smaller than the divisor in magnitude.
   */
  function TruncDiv(a: int, b: int): (q: int)
    requires b > 0
    ensures a >= 0 ==> 0 <= a - q * b < b
    ensures a < 0 ==> -b < a - q * b <= 0
  {
    if a >= 0 then a / b else -((-a) / b)
  }

  /** Truncating division is odd: negating the dividend negates the quotient. */
  lemma TruncDivOdd(a: int, b: int)
    requires b > 0
    ensures TruncDiv(-a, b) == -TruncDiv(a, b)
  {
    if a == 0 {
    } else if a > 0 {
      assert -a < 0;
    } else {
      assert -(-a) == a;
    }
  }

  /** The exact time from a to b in nanoseconds. */
  function NanosBetween(a: Timespec, b: Timespec): int
  {
    (b.sec - a.sec) * 1_000_000_000 + (b.nsec - a.nsec)
  }

  /**
   * `usecdiff(a, b)`: the time from a to b in microseconds, less than one
   * microsecond from the exact value, rounded toward zero in the nanosecond part.
   */
  function UsecDiff(a: Timespec, b: Timespec): (d: int)
    ensures -1000 < NanosBetween(a, b) - d * 1000 < 1000
  {
    (b.sec - a.sec) * 1_000_000 + TruncDiv(b.nsec - a.nsec, 1000)
  }

  /** Two equal readings are zero microseconds apart. */
  lemma {:induction false} UsecDiffSame(a: Timespec)
    ensures UsecDiff(a, a) == 0
  {
  }

  /** Readings with the same nanosecond field are a whole number of seconds apart. */
  lemma {:induction false} UsecDiffWholeSeconds(a: Timespec, b: Timespec)
    requires a.nsec == b.nsec
    ensures UsecDiff(a, b) == (b.sec - a.sec) * 1_000_000
  {
  }

  /**
   * Swapping the readings negates the difference, because the nanosecond
   * part truncates toward zero (a flooring division would be off by one).
   */
  lemma {:induction false} UsecDiffSwap(a: Timespec, b: Timespec)
    ensures UsecDiff(b, a) == -UsecDiff(a, b)
  {
    TruncDivOdd(b.nsec - a.nsec, 1000);
    assert a.nsec - b.nsec == -(b.nsec - a.nsec);
  }
}
