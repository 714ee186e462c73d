/** Position sizing: how many shares an entry order asks for, in exact arithmetic. */
module Sizing {
  import opened Exact

  /** What the run manifest fixes for one run. */
  datatype Params = Params(initialCash: real, fraction: real, quantityIncrement: real, moneyScale: int,
                           eligibleAfterBars: int)

  /** The manifest's constructor guards on these values. */
  predicate ValidParams(p: Params) {
    && 0.0 < p.initialCash
    && 0.0 < p.fraction <= 1.0
    && 0.0 < p.quantityIncrement && 0 <= p.moneyScale
    && 1 <= p.eligibleAfterBars
  }

  function Pow10(n: nat): (r: real)
    ensures 1.0 <= r
  {
    if n == 0 then 1.0 else 10.0 * Pow10(n - 1)
  }

  function Quantize(x: real, scale: nat): real {
    Over(Truncate(Times(x, Pow10(scale))) as real, Pow10(scale))
  }

  function Budget(p: Params, cash: real): real
    requires ValidParams(p)
  {
    Quantize(Times(cash, p.fraction), p.moneyScale)
  }

  function Units(p: Params, cash: real, close: real): int
    requires ValidParams(p) && 0.0 < close
  {
    Truncate(Over(Over(Budget(p, cash), close), p.quantityIncrement))
  }

  function OrderQuantity(p: Params, cash: real, close: real): int
    requires ValidParams(p) && 0.0 < close
  {
    Truncate(Times(Units(p, cash, close) as real, p.quantityIncrement))
  }

  /** Truncating to the money scale never gains, and loses less than one unit of that scale. */
  lemma QuantizeBounds(x: real, scale: nat)
    requires 0.0 <= x
    ensures 0.0 <= Quantize(x, scale) <= x
    ensures x < Quantize(x, scale) + Over(1.0, Pow10(scale))
  {
    hide Times, Over;
    var t := Pow10(scale);
    TimesNonNegative(x, t);
    TimesOver(x, t);
    TruncateBounds(Times(x, t));
    var n := Truncate(Times(x, t)) as real;
    OverZero(t);
    OverMono(0.0, n, t);
    OverMono(n, Times(x, t), t);
    OverMonoStrict(Times(x, t), n + 1.0, t);
    OverPlus(n, 1.0, t);
  }

  lemma BudgetBounds(p: Params, cash: real)
    requires ValidParams(p) && 0.0 <= cash
    ensures 0.0 <= Budget(p, cash) <= Times(cash, p.fraction) <= cash
  {
    hide Times, Over;
    TimesNonNegative(cash, p.fraction);
    QuantizeBounds(Times(cash, p.fraction), p.moneyScale);
    TimesComm(cash, p.fraction);
    TimesMono(p.fraction, 1.0, cash);
    TimesOne(cash);
  }

  /** The whole money units within the allotted cash: less than one unit of the scale is left over. */
  predicate IsBudget(p: Params, cash: real, budget: real)
    requires ValidParams(p)
  {
    && IsWhole(Times(budget, Pow10(p.moneyScale)))
    && budget <= Times(cash, p.fraction) < budget + Over(1.0, Pow10(p.moneyScale))
  }

  lemma BudgetExactly(p: Params, cash: real, budget: real)
    requires ValidParams(p) && 0.0 <= cash
    ensures IsBudget(p, cash, budget) <==> budget == Budget(p, cash)
    ensures Pow10(0) == 1.0 && forall n: nat :: Pow10(n + 1) == 10.0 * Pow10(n)
  {
    hide Times, Over;
    var x, t := Times(cash, p.fraction), Pow10(p.moneyScale);
    BudgetBounds(p, cash);
    QuantizeBounds(x, p.moneyScale);
    OverTimes(Truncate(Times(x, t)) as real, t);
    if IsBudget(p, cash, budget) {
      OneWholeWithin(budget, Budget(p, cash), x, t);
    }
  }

  /** No two amounts that are whole in units of 1/t lie less than one unit below the same amount. */
  lemma OneWholeWithin(a: real, b: real, x: real, t: real)
    requires 0.0 < t && IsWhole(Times(a, t)) && IsWhole(Times(b, t))
    requires a <= x < a + Over(1.0, t) && b <= x < b + Over(1.0, t)
    ensures a == b
  {
    hide Times, Over;
    OverTimes(1.0, t);
    TimesPlus(a, Over(1.0, t), t);
    TimesPlus(b, Over(1.0, t), t);
    TimesMonoStrict(a, b + Over(1.0, t), t);
    TimesMonoStrict(b, a + Over(1.0, t), t);
    assert Times(a, t).Floor == Times(b, t).Floor;
    TimesOver(a, t);
    TimesOver(b, t);
  }

  /** The whole part of a quotient, multiplied back, brackets the dividend. */
  lemma WholePartBounds(x: real, c: real)
    requires 0.0 <= x && 0.0 < c
    ensures var u := Truncate(Over(x, c)); 0 <= u && Times(u as real, c) <= x < Times(u as real, c) + c
  {
    hide Times, Over;
    OverZero(c);
    OverMono(0.0, x, c);
    OverTimes(x, c);
    TruncateBounds(Over(x, c));
    var u := Truncate(Over(x, c)) as real;
    TimesMono(u, Over(x, c), c);
    TimesMonoStrict(Over(x, c), u + 1.0, c);
    TimesPlus(u, 1.0, c);
    TimesOne(c);
  }

  /** The units times the increment, at the close, fit the budget; one more increment would not. */
  lemma UnitsBounds(p: Params, cash: real, close: real)
    requires ValidParams(p) && 0.0 <= cash && 0.0 < close
    ensures 0 <= Units(p, cash, close)
    ensures var exact := Times(Units(p, cash, close) as real, p.quantityIncrement);
      0.0 <= exact && Times(exact, close) <= Budget(p, cash) < Times(exact + p.quantityIncrement, close)
  {
    hide Times, Over, Budget;
    BudgetBounds(p, cash);
    var b, inc := Budget(p, cash), p.quantityIncrement;
    OverZero(close);
    OverMono(0.0, b, close);
    WholePartBounds(Over(b, close), inc);
    TimesNonNegative(Units(p, cash, close) as real, inc);
    var exact := Times(Units(p, cash, close) as real, inc);
    OverTimes(b, close);
    TimesMono(exact, Over(b, close), close);
    TimesMonoStrict(Over(b, close), exact + inc, close);
  }

  /** The quantity is the whole part of the largest number of increments that the budget covers at the
      signal close. */
  lemma SizingExactly(p: Params, cash: real, close: real, budget: real) returns (u: int)
    requires ValidParams(p) && 0.0 <= cash && 0.0 < close && IsBudget(p, cash, budget)
    ensures 0 <= u
    ensures Times(Times(u as real, p.quantityIncrement), close) <= budget
    ensures budget < Times(Times(u as real + 1.0, p.quantityIncrement), close)
    ensures var q := OrderQuantity(p, cash, close) as real; q <= Times(u as real, p.quantityIncrement) < q + 1.0
  {
    hide Times, Over, Budget, Units, IsBudget;
    BudgetExactly(p, cash, budget);
    UnitsBounds(p, cash, close);
    u := Units(p, cash, close);
    TimesPlus(u as real, 1.0, p.quantityIncrement);
    TimesOne(p.quantityIncrement);
    TruncateBounds(Times(u as real, p.quantityIncrement));
  }

  /** The cost at the signal close never exceeds the budget, the budget never exceeds the allotted
      fraction of cash, and the fraction never exceeds cash. */
  lemma SizingFitsCash(p: Params, cash: real, close: real, budget: real)
    requires ValidParams(p) && 0.0 <= cash && 0.0 < close && IsBudget(p, cash, budget)
    ensures 0 <= OrderQuantity(p, cash, close)
    ensures Times(OrderQuantity(p, cash, close) as real, close) <= budget <= Times(cash, p.fraction) <= cash
  {
    hide Times, Over, Budget, Units, IsBudget;
    BudgetExactly(p, cash, budget);
    BudgetBounds(p, cash);
    UnitsBounds(p, cash, close);
    var exact := Times(Units(p, cash, close) as real, p.quantityIncrement);
    TruncateBounds(exact);
    TimesMono(OrderQuantity(p, cash, close) as real, exact, close);
  }

  /** With a whole-number increment the quantity is the largest multiple of it that fits the
      budget, and less than one increment's worth of the budget is left. */
  lemma WholeIncrementSizing(p: Params, cash: real, close: real, n: int, budget: real)
    requires ValidParams(p) && 0.0 <= cash && 0.0 < close && IsBudget(p, cash, budget)
    requires p.quantityIncrement == n as real
    ensures OrderQuantity(p, cash, close) == Units(p, cash, close) * n
    ensures MultipleFits(Units(p, cash, close), n, close, budget)
    ensures budget - Times(OrderQuantity(p, cash, close) as real, close) < Times(n as real, close)
    ensures forall m: int :: MultipleFits(m, n, close, budget) ==> m * n <= OrderQuantity(p, cash, close)
  {
    hide Times, Over, Budget, Units, IsBudget;
    BudgetExactly(p, cash, budget);
    UnitsBounds(p, cash, close);
    var u := Units(p, cash, close);
    TimesWhole(u, n);
    TimesPlus((u * n) as real, n as real, close);
    forall m: int | MultipleFits(m, n, close, budget)
      ensures m * n <= u * n
    {
      if u < m {
        NextMultiple(u, m, n);
        TimesMono((u * n) as real + n as real, (m * n) as real, close);
        assert false;
      } else {
        WholeMono(m, u, n);
      }
    }
  }

  predicate MultipleFits(m: int, n: int, close: real, budget: real) {
    Times((m * n) as real, close) <= budget
  }

  lemma WholeMono(a: int, b: int, c: int)
    requires a <= b && 0 <= c
    ensures a * c <= b * c
  {}

  lemma NextMultiple(u: int, m: int, n: int)
    requires u < m && 0 <= n
    ensures u * n + n <= m * n
  {
    WholeMono(u + 1, m, n);
  }

  predicate Multiplies(m: int, q: int, inc: real) {
    Times(m as real, inc) == q as real
  }

  ghost predicate IsMultiple(q: int, inc: real) {
    exists m: int :: Multiplies(m, q, inc)
  }

  /** Every order quantity is a multiple of the increment. */
  ghost predicate AlwaysMultiple(p: Params)
    requires ValidParams(p)
  {
    forall cash: real, close: real :: 0.0 <= cash && 0.0 < close ==>
        IsMultiple(OrderQuantity(p, cash, close), p.quantityIncrement)
  }

  /** Quantities are always multiples of the increment exactly when the increment is a whole number
      or a whole fraction 1/m: otherwise `int(...)` cuts into some exact multiple. */
  lemma IncrementMultipleIff(p: Params)
    requires ValidParams(p)
    ensures AlwaysMultiple(p) <==> IsWhole(p.quantityIncrement) || IsWhole(Over(1.0, p.quantityIncrement))
  {
    hide Times, Over, OrderQuantity;
    var inc := p.quantityIncrement;
    if IsWhole(inc) {
      forall cash: real, close: real | 0.0 <= cash && 0.0 < close
        ensures IsMultiple(OrderQuantity(p, cash, close), inc)
      {
        BudgetExactly(p, cash, Budget(p, cash));
        WholeIncrementSizing(p, cash, close, inc.Floor, Budget(p, cash));
        TimesWhole(Units(p, cash, close), inc.Floor);
        assert Multiplies(Units(p, cash, close), OrderQuantity(p, cash, close), inc);
      }
    } else if IsWhole(Over(1.0, inc)) {
      forall cash: real, close: real | 0.0 <= cash && 0.0 < close
        ensures IsMultiple(OrderQuantity(p, cash, close), inc)
      {
        WholeFraction(OrderQuantity(p, cash, close), inc);
      }
    } else {
      NotAlwaysMultiple(p);
    }
  }

  lemma WholeFraction(q: int, inc: real)
    requires inc != 0.0 && IsWhole(Over(1.0, inc))
    ensures IsMultiple(q, inc)
  {
    hide Times, Over;
    var m := Over(1.0, inc).Floor;
    OverTimes(1.0, inc);
    TimesWhole(q, m);
    TimesAssoc(q as real, m as real, inc);
    TimesComm(q as real, 1.0);
    TimesOne(q as real);
    assert Multiplies(q * m, q, inc);
  }

  /** A cash amount and a close for which sizing yields exactly `u` units: a budget of 1, split
      into `u` increments. */
  lemma UnitsReachable(p: Params, u: int) returns (cash: real, close: real)
    requires ValidParams(p) && 1 <= u
    ensures 0.0 <= cash && 0.0 < close
    ensures Units(p, cash, close) == u
  {
    hide Times, Over;
    cash := Over(1.0, p.fraction);
    OverTimes(1.0, p.fraction);
    Reciprocal(p.fraction);
    QuantizeOne(p.moneyScale);
    var lot := Times(u as real, p.quantityIncrement);
    TimesPositive(u as real, p.quantityIncrement);
    close := Over(1.0, lot);
    Reciprocal(lot);
    TimesOver(u as real, p.quantityIncrement);
  }

  lemma QuantizeOne(scale: nat)
    ensures Quantize(1.0, scale) == 1.0
  {
    hide Times, Over;
    Pow10Whole(scale);
    TimesOne(Pow10(scale));
    OverSelf(Pow10(scale));
  }

  lemma {:induction false} Pow10Whole(n: nat)
    ensures IsWhole(Pow10(n))
  {
    if n > 0 {
      Pow10Whole(n - 1);
      var m := Pow10(n - 1).Floor;
      assert Pow10(n) == (10 * m) as real;
    }
  }

  /** The failing family, with its witness: one increment when it exceeds 1, else as many as first
      reach a whole share. */
  lemma NotAlwaysMultiple(p: Params)
    requires ValidParams(p)
    requires !IsWhole(p.quantityIncrement) && !IsWhole(Over(1.0, p.quantityIncrement))
    ensures !AlwaysMultiple(p)
  {
    hide Times, Over, Units;
    var inc := p.quantityIncrement;
    Reciprocal(inc);
    var u := if 1.0 <= inc then 1 else Over(1.0, inc).Floor + 1;
    var cash, close := UnitsReachable(p, u);
    var q := OrderQuantity(p, cash, close);
    if 1.0 <= inc {
      TimesOne(inc);
    } else {
      FirstWholeShare(u, inc);
    }
    forall m: int
      ensures !Multiplies(m, q, inc)
    {
      if Multiplies(m, q, inc) {
        if 1.0 <= inc {
          NoMultipleBelow(m, q, inc);
        } else {
          TimesOver(m as real, inc);
          assert false;
        }
      }
    }
    assert !IsMultiple(q, inc);
  }

  lemma NoMultipleBelow(m: int, q: int, inc: real)
    requires 1.0 <= inc && !IsWhole(inc) && q == Truncate(inc)
    ensures !Multiplies(m, q, inc)
  {
    hide Times, Over;
    TruncateBounds(inc);
    TimesZero(inc);
    TimesOne(inc);
    TimesPlus(1.0, 1.0, inc);
    if m <= 0 {
      TimesMono(m as real, 0.0, inc);
    } else if 2 <= m {
      TimesMono(1.0 + 1.0, m as real, inc);
    }
  }

  lemma FirstWholeShare(u: int, inc: real)
    requires 0.0 < inc < 1.0 && u == Over(1.0, inc).Floor + 1
    ensures Truncate(Times(u as real, inc)) == 1
  {
    hide Times, Over;
    var inverse := Over(1.0, inc);
    OverTimes(1.0, inc);
    TimesMonoStrict(inverse, u as real, inc);
    TimesMono(u as real, inverse + 1.0, inc);
    TimesPlus(inverse, 1.0, inc);
    TimesOne(inc);
  }
}
