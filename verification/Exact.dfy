/** Exact products and quotients. Every non-linear step of the other modules goes through these
    two functions and the laws below, so that no proof mixes two non-linear facts. */
module Exact {
  function Times(a: real, b: real): real {
    a * b
  }

  function Over(a: real, b: real): real
    requires b != 0.0
  {
    a / b
  }

  lemma TimesMono(a: real, b: real, c: real)
    requires a <= b && 0.0 <= c
    ensures Times(a, c) <= Times(b, c)
  {}

  lemma TimesMonoStrict(a: real, b: real, c: real)
    requires a < b && 0.0 < c
    ensures Times(a, c) < Times(b, c)
  {}

  lemma TimesComm(a: real, b: real)
    ensures Times(a, b) == Times(b, a)
  {}

  lemma TimesZero(c: real)
    ensures Times(0.0, c) == 0.0
  {}

  lemma TimesOne(c: real)
    ensures Times(1.0, c) == c
  {}

  lemma TimesPlus(a: real, b: real, c: real)
    ensures Times(a + b, c) == Times(a, c) + Times(b, c)
  {}

  lemma TimesMinus(a: real, b: real, c: real)
    ensures Times(c, a - b) == Times(c, a) - Times(c, b)
  {}

  lemma TimesAssoc(a: real, b: real, c: real)
    ensures Times(Times(a, b), c) == Times(a, Times(b, c))
  {}

  lemma TimesWhole(a: int, b: int)
    ensures Times(a as real, b as real) == (a * b) as real
  {}

  lemma OverTimes(a: real, b: real)
    requires b != 0.0
    ensures Times(Over(a, b), b) == a
  {}

  lemma TimesOver(a: real, b: real)
    requires b != 0.0
    ensures Over(Times(a, b), b) == a
  {}

  lemma OverPlus(a: real, b: real, c: real)
    requires c != 0.0
    ensures Over(a + b, c) == Over(a, c) + Over(b, c)
  {}

  lemma TimesNonNegative(a: real, b: real)
    requires 0.0 <= a && 0.0 <= b
    ensures 0.0 <= Times(a, b)
  {}

  lemma TimesPositive(a: real, b: real)
    requires 0.0 < a && 0.0 < b
    ensures 0.0 < Times(a, b)
  {}

  lemma OverMono(a: real, b: real, c: real)
    requires a <= b && 0.0 < c
    ensures Over(a, c) <= Over(b, c)
  {
    hide Times, Over;
    OverTimes(a, c);
    OverTimes(b, c);
    var lo, hi := Over(a, c), Over(b, c);
    if hi < lo { TimesMonoStrict(hi, lo, c); assert false; }
  }

  lemma OverMonoStrict(a: real, b: real, c: real)
    requires a < b && 0.0 < c
    ensures Over(a, c) < Over(b, c)
  {
    hide Times, Over;
    OverTimes(a, c);
    OverTimes(b, c);
    var lo, hi := Over(a, c), Over(b, c);
    if hi <= lo { TimesMono(hi, lo, c); assert false; }
  }

  lemma OverZero(c: real)
    requires c != 0.0
    ensures Over(0.0, c) == 0.0
  {}

  lemma OverSelf(c: real)
    requires c != 0.0
    ensures Over(c, c) == 1.0
  {
    hide Times, Over;
    TimesOne(c);
    TimesOver(1.0, c);
  }

  /** A larger positive divisor gives a smaller quotient. */
  lemma OverAntitone(a: real, b: real, c: real)
    requires 0.0 <= a && 0.0 < b <= c
    ensures Over(a, c) <= Over(a, b)
  {
    hide Times, Over;
    OverZero(b);
    OverMono(0.0, a, b);
    TimesMono(b, c, Over(a, b));
    TimesComm(b, Over(a, b));
    OverTimes(a, b);
    OverMono(a, Times(c, Over(a, b)), c);
    TimesComm(c, Over(a, b));
    TimesOver(Over(a, b), c);
  }

  lemma Reciprocal(x: real)
    requires 0.0 < x
    ensures 0.0 < Over(1.0, x) && Over(1.0, Over(1.0, x)) == x
  {
    hide Times, Over;
    var y := Over(1.0, x);
    OverZero(x);
    OverMonoStrict(0.0, 1.0, x);
    OverTimes(1.0, x);
    TimesComm(y, x);
    TimesOver(x, y);
  }

  /** Rounding toward zero, both `ROUND_DOWN` and `int(...)`. */
  function Truncate(x: real): int {
    if 0.0 <= x then x.Floor else -((-x).Floor)
  }

  predicate IsWhole(x: real) {
    x == x.Floor as real
  }

  lemma TruncateBounds(x: real)
    requires 0.0 <= x
    ensures 0 <= Truncate(x) && Truncate(x) as real <= x < Truncate(x) as real + 1.0
  {}
}
