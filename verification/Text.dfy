/** The textual forms used in canonical documents: decimals in positional notation, dates and UTC
    timestamps in ISO form. */
module Text {
  import opened Wrappers
  import opened Sequences
  import opened Exact

  // ---- Digits ----

  function DigitChar(d: nat): char
    requires d < 10
  {
    ('0' as int + d) as char
  }

  predicate IsDigit(c: char) {
    '0' <= c <= '9'
  }

  predicate AllDigits(s: string) {
    forall i :: 0 <= i < |s| ==> IsDigit(s[i])
  }

  function Digits(n: nat): (s: string)
    ensures s != [] && AllDigits(s)
  {
    if n < 10 then [DigitChar(n)] else Digits(n / 10) + [DigitChar(n % 10)]
  }

  function ParseDigits(s: string): nat
    requires AllDigits(s)
  {
    if s == [] then 0 else ParseDigits(Init(s)) * 10 + (Last(s) as int - '0' as int)
  }

  function Zeros(n: nat): (s: string)
    ensures |s| == n && AllDigits(s)
  {
    seq(n, _ => '0')
  }

  function Pow10(n: nat): (r: nat)
    ensures 1 <= r
  {
    if n == 0 then 1 else 10 * Pow10(n - 1)
  }

  lemma {:induction false} ParseOfDigits(n: nat)
    ensures ParseDigits(Digits(n)) == n
  {
    if n >= 10 {
      ParseOfDigits(n / 10);
      assert Init(Digits(n)) == Digits(n / 10);
    } else {
      assert Init(Digits(n)) == [];
    }
  }

  /** The last digits of a numeral give way to the first as in the number. */
  lemma {:induction false} ParseConcat(a: string, b: string)
    requires AllDigits(a) && AllDigits(b)
    ensures AllDigits(a + b) && ParseDigits(a + b) == ParseDigits(a) * Pow10(|b|) + ParseDigits(b)
  {
    if b == [] {
      assert a + b == a;
    } else {
      ParseConcat(a, Init(b));
      assert Init(a + b) == a + Init(b);
      Shift(ParseDigits(a), Pow10(|b| - 1), ParseDigits(Init(b)));
    }
  }

  lemma Shift(x: nat, p: nat, y: nat)
    ensures (x * p + y) * 10 == x * (10 * p) + y * 10
  {}

  lemma {:induction false} ParseZeros(n: nat)
    ensures ParseDigits(Zeros(n)) == 0
  {
    if n > 0 {
      ParseZeros(n - 1);
      assert Init(Zeros(n)) == Zeros(n - 1);
    }
  }

  lemma {:induction false} DigitsScaled(n: nat, e: nat)
    requires 0 < n
    ensures Digits(n * Pow10(e)) == Digits(n) + Zeros(e)
  {
    if e == 0 {
      assert n * Pow10(0) == n;
      assert Digits(n) + Zeros(0) == Digits(n);
    } else {
      DigitsScaled(n, e - 1);
      var m := n * Pow10(e - 1);
      TimesTen(n, Pow10(e - 1));
      assert n * Pow10(e) == 10 * m;
      assert Digits(10 * m) == Digits(m) + ['0'];
      assert Zeros(e) == Zeros(e - 1) + ['0'];
      assert Digits(n) + Zeros(e) == Digits(n) + Zeros(e - 1) + ['0'];
    }
  }

  lemma TimesTen(n: nat, p: nat)
    requires 0 < n && 0 < p
    ensures n * (10 * p) == 10 * (n * p) && 0 < n * p
  {}

  // ---- Decimals ----

  /** A finite decimal, as it is represented: coefficient times ten to the exponent. */
  datatype Decimal = Decimal(negative: bool, coefficient: nat, exponent: int)

  function PrintUnsigned(coefficient: nat, exponent: int): string {
    var digits := Digits(coefficient);
    if exponent >= 0 then if coefficient == 0 then "0" else digits + Zeros(exponent)
    else
      var places := -exponent;
      if |digits| <= places then "0." + Zeros(places - |digits|) + digits
      else digits[..|digits| - places] + "." + digits[|digits| - places..]
  }

  /** Positional notation, never an exponent. */
  function PrintDecimal(d: Decimal): string {
    (if d.negative then "-" else "") + PrintUnsigned(d.coefficient, d.exponent)
  }

  function FindDot(s: string): (i: nat)
    ensures i <= |s| && (i < |s| ==> s[i] == '.') && forall j :: 0 <= j < i ==> s[j] != '.'
  {
    if s == [] || s[0] == '.' then 0 else FindDot(s[1..]) + 1
  }

  function Read(coefficient: nat, exponent: int): Option<(nat, int)> {
    Some((coefficient, exponent))
  }

  function ParseUnsigned(s: string): Option<(nat, int)> {
    var dot := FindDot(s);
    var whole, fraction := s[..dot], if dot < |s| then s[dot + 1..] else "";
    if AllDigits(whole) && AllDigits(fraction) && whole + fraction != ""
        then Read(ParseDigits(whole + fraction), -|fraction|)
    else None
  }

  function ParseDecimal(s: string): Option<Decimal> {
    var negative := s != "" && s[0] == '-';
    match ParseUnsigned(if negative then s[1..] else s)
    case None => None
    case Some((c, e)) => Some(Decimal(negative, c, e))
  }

  /** What is read back: the same decimal, with a positive exponent multiplied out. */
  function Plain(d: Decimal): Decimal {
    if d.exponent <= 0 then d else d.(coefficient := d.coefficient * Pow10(d.exponent), exponent := 0)
  }

  predicate SameNumber(a: Decimal, b: Decimal) {
    && a.negative == b.negative
    && if b.exponent <= a.exponent then a.coefficient * Pow10(a.exponent - b.exponent) == b.coefficient
       else a.coefficient == b.coefficient * Pow10(b.exponent - a.exponent)
  }

  lemma DotAt(a: string, b: string)
    requires AllDigits(a) && AllDigits(b) && a + b != ""
    ensures ParseUnsigned(a + "." + b) == Read(ParseDigits(a + b), -|b|)
  {
    var s := a + "." + b;
    var dot := FindDot(s);
    assert s[|a|] == '.';
    assert forall j :: 0 <= j < |a| ==> s[j] == a[j];
    assert dot == |a|;
    assert s[..dot] == a && s[dot + 1..] == b;
  }

  lemma NoDot(a: string)
    requires AllDigits(a) && a != ""
    ensures ParseUnsigned(a) == Read(ParseDigits(a), 0)
  {
    assert FindDot(a) == |a|;
    assert a[..|a|] == a && a + "" == a;
  }

  lemma ParsePrintUnsigned(c: nat, e: int)
    ensures ParseUnsigned(PrintUnsigned(c, e)) == if e <= 0 then Read(c, e) else Read(c * Pow10(e), 0)
    ensures PrintUnsigned(c, e) != "" && PrintUnsigned(c, e)[0] != '-'
  {
    hide ParseUnsigned, Pow10;
    ParseOfDigits(c);
    if e >= 0 {
      if c == 0 {
        ZeroReads();
        ZeroTimes(Pow10(e));
      } else {
        WholeReads(Digits(c), e);
        assert e == 0 ==> Pow10(e) == 1 by { Pow10Zero(); }
      }
    } else if |Digits(c)| <= -e {
      SmallReads(Digits(c), -e);
    } else {
      MixedReads(Digits(c), -e);
    }
  }

  lemma Pow10Zero()
    ensures Pow10(0) == 1
  {}

  /** Only a decimal reads as one: digits, at least one of them, with perhaps a sign before and a point
      among them; its coefficient is what the digits say, its exponent how many follow the point. */
  lemma {:induction false} OnlyDecimalsRead(s: string) returns (whole: string, fraction: string)
    requires ParseDecimal(s).Some?
    ensures AllDigits(whole) && AllDigits(fraction) && whole + fraction != ""
    ensures var d := ParseDecimal(s).value; var sign := if d.negative then "-" else "";
      && (s == sign + whole + "." + fraction || (s == sign + whole && fraction == ""))
      && d.coefficient == ParseDigits(whole + fraction) && d.exponent == -|fraction|
  {
    hide ParseDigits, ParseUnsigned;
    var negative := s != "" && s[0] == '-';
    var body := if negative then s[1..] else s;
    whole, fraction := OnlyDigitsRead(body);
    assert s == (if negative then "-" else "") + body;
  }

  lemma {:induction false} OnlyDigitsRead(s: string) returns (whole: string, fraction: string)
    requires ParseUnsigned(s).Some?
    ensures AllDigits(whole) && AllDigits(fraction) && whole + fraction != ""
    ensures s == whole + "." + fraction || (s == whole && fraction == "")
    ensures ParseUnsigned(s).value == (ParseDigits(whole + fraction), -|fraction|)
  {
    hide ParseDigits;
    var dot := FindDot(s);
    whole, fraction := s[..dot], if dot < |s| then s[dot + 1..] else "";
    hide FindDot;
    assert dot < |s| ==> s == whole + "." + fraction;
  }

  lemma ZeroReads()
    ensures ParseUnsigned("0") == Read(0, 0) && ParseDigits("0") == 0
  {
    NoDot("0");
    assert Init("0") == "";
  }

  lemma WholeReads(digits: string, e: nat)
    requires AllDigits(digits) && digits != ""
    ensures ParseUnsigned(digits + Zeros(e)) == Read(ParseDigits(digits) * Pow10(e), 0)
  {
    hide ParseUnsigned, ParseDigits, Pow10;
    NoDot(digits + Zeros(e));
    ParseConcat(digits, Zeros(e));
    ParseZeros(e);
  }

  lemma SmallReads(digits: string, places: int)
    requires AllDigits(digits) && digits != "" && |digits| <= places
    ensures ParseUnsigned("0." + Zeros(places - |digits|) + digits) == Read(ParseDigits(digits), -places)
  {
    hide ParseUnsigned, ParseDigits, Pow10;
    var tail := Zeros(places - |digits|) + digits;
    assert "0." + Zeros(places - |digits|) + digits == "0" + "." + tail;
    DotAt("0", tail);
    LeadingZeros(digits, places - |digits|);
  }

  lemma LeadingZeros(digits: string, zeros: nat)
    requires AllDigits(digits)
    ensures AllDigits("0" + (Zeros(zeros) + digits))
    ensures ParseDigits("0" + (Zeros(zeros) + digits)) == ParseDigits(digits)
  {
    hide ParseDigits, Pow10, Zeros;
    ZeroReads();
    ParseZeros(zeros);
    ParseConcat(Zeros(zeros), digits);
    ParseConcat("0", Zeros(zeros) + digits);
    ZeroTimes(Pow10(|digits|));
    ZeroTimes(Pow10(|Zeros(zeros) + digits|));
  }

  lemma MixedReads(digits: string, places: int)
    requires AllDigits(digits) && 0 <= places < |digits|
    ensures var cut := |digits| - places;
      ParseUnsigned(digits[..cut] + "." + digits[cut..]) == Read(ParseDigits(digits), -places)
  {
    hide ParseUnsigned, ParseDigits;
    var cut := |digits| - places;
    assert digits[..cut] + digits[cut..] == digits;
    DotAt(digits[..cut], digits[cut..]);
  }

  /** Reading what was printed gives the decimal back, exactly unless its exponent was positive, and
      then as the same number. */
  lemma DecimalRoundTrip(d: Decimal)
    ensures ParseDecimal(PrintDecimal(d)) == Some(Plain(d))
    ensures SameNumber(d, Plain(d))
    ensures Plain(d) == d <==> d.exponent <= 0
  {
    hide ParseUnsigned, PrintUnsigned;
    ParsePrintUnsigned(d.coefficient, d.exponent);
    var body := PrintUnsigned(d.coefficient, d.exponent);
    assert d.negative ==> PrintDecimal(d)[1..] == body;
    assert !d.negative ==> PrintDecimal(d) == body;
    assert d.coefficient * Pow10(0) == d.coefficient;
  }

  /** Printing what was read gives the same text, so the text is stable. */
  lemma DecimalTextStable(d: Decimal)
    ensures PrintDecimal(Plain(d)) == PrintDecimal(d)
  {
    if d.exponent > 0 {
      if d.coefficient > 0 {
        DigitsScaled(d.coefficient, d.exponent);
        var n := d.coefficient * Pow10(d.exponent);
        ScaledPositive(d.coefficient, Pow10(d.exponent));
        assert Digits(n) + Zeros(0) == Digits(n);
      } else {
        ZeroTimes(Pow10(d.exponent));
      }
    }
  }

  lemma ScaledPositive(a: nat, b: nat)
    requires 0 < a && 0 < b
    ensures 0 < a * b
  {}

  lemma ZeroTimes(b: nat)
    ensures 0 * b == 0
  {}

  /** A decimal's text, described: a sign if it is negative; at least one digit, with no zero in front
      of another; a point and exactly as many digits as the exponent asks for, if it is negative. The
      digits are those of the coefficient, multiplied out by a positive exponent. */
  predicate IsDecimalText(d: Decimal, s: string, whole: string, fraction: string) {
    && s == (if d.negative then "-" else "") + whole + (if d.exponent < 0 then "." + fraction else "")
    && whole != "" && AllDigits(whole) && (1 < |whole| ==> whole[0] != '0')
    && AllDigits(fraction) && |fraction| == (if d.exponent < 0 then -d.exponent else 0)
    && ParseDigits(whole + fraction) == d.coefficient * (if d.exponent < 0 then 1 else Pow10(d.exponent))
  }

  lemma {:induction false} NoLeadingZero(n: nat)
    ensures 1 < |Digits(n)| ==> Digits(n)[0] != '0'
    ensures n > 0 ==> Digits(n)[0] != '0'
  {
    if n >= 10 {
      NoLeadingZero(n / 10);
      assert Digits(n)[0] == Digits(n / 10)[0];
    }
  }

  lemma DecimalText(d: Decimal) returns (whole: string, fraction: string)
    ensures IsDecimalText(d, PrintDecimal(d), whole, fraction)
  {
    hide ParseDigits, Pow10;
    var digits, places := Digits(d.coefficient), -d.exponent;
    ParseOfDigits(d.coefficient);
    NoLeadingZero(d.coefficient);
    if d.exponent >= 0 {
      fraction := "";
      if d.coefficient == 0 {
        whole := "0";
        ZeroReads();
        ZeroTimes(Pow10(d.exponent));
      } else {
        whole := digits + Zeros(d.exponent);
        ParseConcat(digits, Zeros(d.exponent));
        ParseZeros(d.exponent);
      }
      assert whole + fraction == whole;
    } else if |digits| <= places {
      whole, fraction := "0", Zeros(places - |digits|) + digits;
      LeadingZeros(digits, places - |digits|);
      assert "0" + "." + fraction == "0." + Zeros(places - |digits|) + digits;
    } else {
      var cut := |digits| - places;
      whole, fraction := digits[..cut], digits[cut..];
      assert whole + fraction == digits;
    }
  }

  /** The digits count as they do in a numeral. */
  lemma DigitsCount(s: string, d: nat)
    requires AllDigits(s) && d < 10
    ensures ParseDigits("") == 0 && DigitChar(d) == "0123456789"[d]
    ensures ParseDigits(s + [DigitChar(d)]) == 10 * ParseDigits(s) + d
  {
    assert Init(s + [DigitChar(d)]) == s;
  }

  // ---- What a decimal is worth ----

  function Scale(exponent: int): (r: real)
    ensures 0.0 < r
  {
    if exponent >= 0 then Pow10(exponent) as real else 1.0 / Pow10(-exponent) as real
  }

  function Significand(d: Decimal): int {
    if d.negative then 0 - d.coefficient else d.coefficient
  }

  function ValueOf(d: Decimal): real {
    Times(Significand(d) as real, Scale(d.exponent))
  }

  lemma {:induction false} ScaleBy(exponent: int, k: nat)
    ensures Scale(exponent + k) == Times(Pow10(k) as real, Scale(exponent))
  {
    if k > 0 {
      ScaleBy(exponent, k - 1);
      var p, x := Pow10(k - 1), Scale(exponent);
      assert Scale(exponent + k) == Times(10.0, Scale(exponent + k - 1)) by { NextScale(exponent + k - 1); }
      TimesAssoc(10.0, p as real, x);
      TimesWhole(10, p);
    } else {
      TimesOne(Scale(exponent));
    }
  }

  lemma NextScale(exponent: int)
    ensures Scale(exponent + 1) == Times(10.0, Scale(exponent))
  {
    if exponent < 0 {
      var p := Pow10(-exponent - 1);
      assert Pow10(-exponent) == 10 * p;
      assert Pow10(0) == 1;
    }
  }

  /** The same number is the same value, under one sign. */
  lemma SameNumberIff(a: Decimal, b: Decimal)
    ensures SameNumber(a, b) <==> a.negative == b.negative && ValueOf(a) == ValueOf(b)
  {
    hide Times, Scale, Pow10;
    if a.exponent < b.exponent { SameScaled(b, a); } else { SameScaled(a, b); }
  }

  lemma SameScaled(a: Decimal, b: Decimal)
    requires b.exponent <= a.exponent
    ensures a.negative == b.negative ==>
      (a.coefficient * Pow10(a.exponent - b.exponent) == b.coefficient <==> ValueOf(a) == ValueOf(b))
  {
    hide Times, Scale, Pow10;
    var k := a.exponent - b.exponent;
    var x, y := Significand(a), Significand(b);
    ScaleBy(b.exponent, k);
    TimesAssoc(x as real, Pow10(k) as real, Scale(b.exponent));
    TimesWhole(x, Pow10(k));
    TimesOver((x * Pow10(k)) as real, Scale(b.exponent));
    TimesOver(y as real, Scale(b.exponent));
    assert ValueOf(a) == Times((x * Pow10(k)) as real, Scale(b.exponent));
    NegateProduct(a.coefficient, Pow10(k));
  }

  lemma NegateProduct(a: nat, p: nat)
    ensures (0 - a) * p == 0 - a * p
  {}

  // ---- Dates and timestamps ----

  datatype Date = Date(year: nat, month: nat, day: nat)

  function DaysIn(year: nat, month: nat): nat {
    if month == 2 then if year % 4 == 0 && (year % 100 != 0 || year % 400 == 0) then 29 else 28
    else if month in {4, 6, 9, 11} then 30 else 31
  }

  predicate ValidDate(d: Date) {
    1 <= d.year <= 9999 && 1 <= d.month <= 12 && 1 <= d.day <= DaysIn(d.year, d.month)
  }

  predicate DateBefore(a: Date, b: Date) {
    a.year < b.year || (a.year == b.year && (a.month < b.month || (a.month == b.month && a.day < b.day)))
  }

  function Pad(n: nat, width: nat): (s: string)
    requires n < Pow10(width) && 1 <= width
    ensures |s| == width && AllDigits(s)
  {
    DigitsFit(n, width);
    Zeros(width - |Digits(n)|) + Digits(n)
  }

  lemma {:induction false} DigitsFit(n: nat, width: nat)
    requires n < Pow10(width) && 1 <= width
    ensures |Digits(n)| <= width
  {
    assert Pow10(0) == 1;
    if n >= 10 {
      DigitsFit(n / 10, width - 1);
    }
  }

  lemma ParsePad(n: nat, width: nat)
    requires n < Pow10(width) && 1 <= width
    ensures ParseDigits(Pad(n, width)) == n
  {
    DigitsFit(n, width);
    ParseConcat(Zeros(width - |Digits(n)|), Digits(n));
    ParseZeros(width - |Digits(n)|);
    ParseOfDigits(n);
    ZeroTimes(Pow10(|Digits(n)|));
  }

  lemma Widths()
    ensures Pow10(2) == 100 && Pow10(4) == 10000 && Pow10(6) == 1000000
  {
    assert Pow10(0) == 1;
    assert Pow10(1) == 10 && Pow10(2) == 100 && Pow10(3) == 1000 && Pow10(4) == 10000 && Pow10(5) == 100000;
  }

  function PrintDate(d: Date): (s: string)
    requires ValidDate(d)
    ensures |s| == 10
  {
    Widths();
    Pad(d.year, 4) + "-" + Pad(d.month, 2) + "-" + Pad(d.day, 2)
  }

  function ParseDate(s: string): Option<Date> {
    if |s| == 10 && s[4] == '-' && s[7] == '-' && AllDigits(s[..4]) && AllDigits(s[5..7]) && AllDigits(s[8..]) then
      var d := Date(ParseDigits(s[..4]), ParseDigits(s[5..7]), ParseDigits(s[8..]));
      if ValidDate(d) then Some(d) else None
    else None
  }

  lemma DateRoundTrip(d: Date)
    requires ValidDate(d)
    ensures ParseDate(PrintDate(d)) == Some(d)
  {
    Widths();
    ParsePad(d.year, 4);
    ParsePad(d.month, 2);
    ParsePad(d.day, 2);
    var s := PrintDate(d);
    assert s[..4] == Pad(d.year, 4) && s[5..7] == Pad(d.month, 2) && s[8..] == Pad(d.day, 2);
  }

  /** Which months have how many days, and which years have a leap day. */
  lemma MonthsAndLeapYears(year: nat, month: nat)
    requires 1 <= month <= 12
    ensures DaysIn(year, month) == 31 <==> month in {1, 3, 5, 7, 8, 10, 12}
    ensures DaysIn(year, month) == 30 <==> month in {4, 6, 9, 11}
    ensures DaysIn(year, month) == 29 <==> month == 2 && (year % 400 == 0 || (year % 4 == 0 && year % 100 != 0))
    ensures DaysIn(year, month) == 28 <==> month == 2 && DaysIn(year, month) != 29
  {}

  /** Dates are ordered as the numbers that their digits make. */
  lemma DateOrder(a: Date, b: Date)
    requires ValidDate(a) && ValidDate(b)
    ensures DateBefore(a, b) <==>
      a.year * 10000 + a.month * 100 + a.day < b.year * 10000 + b.month * 100 + b.day
  {}

  /** Year, month and day, in this order. */
  lemma DateText(d: Date)
    requires ValidDate(d)
    ensures var s := PrintDate(d);
      && s[4] == '-' && s[7] == '-' && AllDigits(s[..4]) && AllDigits(s[5..7]) && AllDigits(s[8..])
      && ParseDigits(s[..4]) == d.year && ParseDigits(s[5..7]) == d.month && ParseDigits(s[8..]) == d.day
  {
    hide ParseDigits, Pad;
    Widths();
    ParsePad(d.year, 4);
    ParsePad(d.month, 2);
    ParsePad(d.day, 2);
    var s := PrintDate(d);
    assert s[..4] == Pad(d.year, 4) && s[5..7] == Pad(d.month, 2) && s[8..] == Pad(d.day, 2);
  }

  predicate HasDateForm(s: string) {
    |s| == 10 && s[4] == '-' && s[7] == '-' && AllDigits(s[..4]) && AllDigits(s[5..7]) && AllDigits(s[8..])
  }

  /** A text reads as a date exactly when it has that form and there is such a day. */
  lemma DateReads(s: string)
    ensures !HasDateForm(s) ==> ParseDate(s) == None
    ensures HasDateForm(s) ==>
      var year, month, day := ParseDigits(s[..4]), ParseDigits(s[5..7]), ParseDigits(s[8..]);
      ParseDate(s) == if && 1 <= year && year <= 9999 && 1 <= month && month <= 12
                         && 1 <= day && day <= DaysIn(year, month)
                      then Some(Date(year, month, day)) else None
  {
    hide ParseDigits, DaysIn;
  }

  /** A moment to the microsecond, with its offset from UTC in microseconds. */
  datatype Instant = Instant(date: Date, hour: nat, minute: nat, second: nat, micro: nat, offset: int)

  const MICROS_PER_SECOND := 1000000
  const MICROS_PER_MINUTE := 60 * MICROS_PER_SECOND
  const MICROS_PER_DAY := 1440 * MICROS_PER_MINUTE

  predicate ValidOffset(offset: int) {
    -MICROS_PER_DAY < offset < MICROS_PER_DAY
  }

  predicate ValidInstant(t: Instant) {
    && ValidDate(t.date)
    && t.hour < 24 && t.minute < 60 && t.second < 60 && t.micro < 1000000
    && ValidOffset(t.offset)
  }

  /** What an offset has beyond whole minutes: seconds when there are any, microseconds likewise. */
  function PrintOffsetTail(micros: nat): (s: string)
    requires micros < MICROS_PER_MINUTE
    ensures |s| in {0, 3, 10}
  {
    Widths();
    if micros == 0 then ""
    else
      ":" + Pad(micros / MICROS_PER_SECOND, 2)
      + if micros % MICROS_PER_SECOND == 0 then "" else "." + Pad(micros % MICROS_PER_SECOND, 6)
  }

  /** Sign, hours and minutes; `+00:00` is replaced by `Z` wherever it occurs, so also in front of
      seconds. */
  function PrintOffset(offset: int): (s: string)
    requires ValidOffset(offset)
    ensures s != "" && s[0] != '.'
  {
    Widths();
    var size := if offset < 0 then -offset else offset;
    var minutes := size / MICROS_PER_MINUTE;
    (if 0 <= offset && minutes == 0 then "Z"
     else (if offset < 0 then "-" else "+") + Pad(minutes / 60, 2) + ":" + Pad(minutes % 60, 2))
    + PrintOffsetTail(size % MICROS_PER_MINUTE)
  }

  function ParseOffsetTail(s: string): Option<nat> {
    if s == "" then Some(0)
    else if |s| !in {3, 10} || s[0] != ':' || !AllDigits(s[1..3]) || 60 <= ParseDigits(s[1..3]) then None
    else if |s| == 3 then Some(ParseDigits(s[1..3]) * MICROS_PER_SECOND)
    else if s[3] != '.' || !AllDigits(s[4..]) then None
    else Some(ParseDigits(s[1..3]) * MICROS_PER_SECOND + ParseDigits(s[4..]))
  }

  /** Hours and minutes, with their sign. */
  function ParseMinutes(s: string): Option<(bool, nat)> {
    if |s| != 6 || s[0] !in "+-" || s[3] != ':' || !AllDigits(s[1..3]) || !AllDigits(s[4..]) then None
    else
      var hours, minutes := ParseDigits(s[1..3]), ParseDigits(s[4..]);
      if hours >= 24 || minutes >= 60 then None else Some((s[0] == '-', hours * 60 + minutes))
  }

  function ParseOffset(s: string): Option<int> {
    var cut := if s != "" && s[0] == 'Z' then 1 else 6;
    if |s| < cut then None
    else
      match (if cut == 1 then Some((false, 0)) else ParseMinutes(s[..cut]), ParseOffsetTail(s[cut..]))
      case (Some((negative, minutes)), Some(micros)) =>
        var size := minutes * MICROS_PER_MINUTE + micros;
        Some(if negative then -size else size)
      case _ => None
  }

  lemma OffsetTailRoundTrip(micros: nat)
    requires micros < MICROS_PER_MINUTE
    ensures ParseOffsetTail(PrintOffsetTail(micros)) == Some(micros)
  {
    hide Pad, ParseDigits, Pow10;
    Widths();
    var seconds, rest := micros / MICROS_PER_SECOND, micros % MICROS_PER_SECOND;
    ParsePad(seconds, 2);
    ParsePad(rest, 6);
    var s := PrintOffsetTail(micros);
    if micros != 0 {
      assert s[1..3] == Pad(seconds, 2);
      assert rest != 0 ==> s[4..] == Pad(rest, 6);
    }
  }

  lemma MinutesRoundTrip(negative: bool, minutes: nat)
    requires minutes < 1440
    ensures Pow10(2) == 100
    ensures ParseMinutes((if negative then "-" else "+") + Pad(minutes / 60, 2) + ":" + Pad(minutes % 60, 2))
            == Some((negative, minutes))
  {
    hide Pad, ParseDigits, Pow10;
    Widths();
    ParsePad(minutes / 60, 2);
    ParsePad(minutes % 60, 2);
    var s := (if negative then "-" else "+") + Pad(minutes / 60, 2) + ":" + Pad(minutes % 60, 2);
    assert s[1..3] == Pad(minutes / 60, 2) && s[4..] == Pad(minutes % 60, 2);
    assert s[0] in "+-";
  }

  lemma OffsetRoundTrip(offset: int)
    requires ValidOffset(offset)
    ensures ParseOffset(PrintOffset(offset)) == Some(offset)
  {
    hide Pad, ParseMinutes, ParseOffsetTail, PrintOffsetTail, Pow10;
    var size := if offset < 0 then -offset else offset;
    var minutes, micros := size / MICROS_PER_MINUTE, size % MICROS_PER_MINUTE;
    MinutesRoundTrip(offset < 0, minutes);
    OffsetTailRoundTrip(micros);
    var tail := PrintOffsetTail(micros);
    var s := PrintOffset(offset);
    if 0 <= offset && minutes == 0 {
      assert s[1..] == tail;
    } else {
      var head := (if offset < 0 then "-" else "+") + Pad(minutes / 60, 2) + ":" + Pad(minutes % 60, 2);
      assert s == head + tail;
      assert s[..6] == head && s[6..] == tail;
    }
  }

  /** Seconds when there are any beyond whole minutes, and microseconds when there are any beyond whole
      seconds. */
  lemma OffsetTailText(micros: nat)
    requires micros < MICROS_PER_MINUTE
    ensures var s := PrintOffsetTail(micros);
      if micros == 0 then s == ""
      else
        && 3 <= |s| && s[0] == ':' && AllDigits(s[1..3]) && ParseDigits(s[1..3]) == micros / 1000000
        && if micros % 1000000 == 0 then |s| == 3
           else |s| == 10 && s[3] == '.' && AllDigits(s[4..]) && ParseDigits(s[4..]) == micros % 1000000
  {
    hide ParseDigits, Pad;
    Widths();
    var seconds, rest := micros / MICROS_PER_SECOND, micros % MICROS_PER_SECOND;
    ParsePad(seconds, 2);
    ParsePad(rest, 6);
    var s := PrintOffsetTail(micros);
    if micros != 0 {
      assert s[1..3] == Pad(seconds, 2);
      assert rest != 0 ==> s[4..] == Pad(rest, 6);
    }
  }

  /** UTC is `Z`; any other whole number of minutes is a sign, hours and minutes. */
  lemma OffsetText(offset: int)
    requires ValidOffset(offset)
    ensures offset == 0 ==> PrintOffset(offset) == "Z"
    ensures var s := PrintOffset(offset); var size := if offset < 0 then -offset else offset;
      if 0 <= offset < 60000000 then s == "Z" + PrintOffsetTail(size)
      else
        && 6 <= |s| && s[0] == (if offset < 0 then '-' else '+') && s[3] == ':'
        && AllDigits(s[1..3]) && ParseDigits(s[1..3]) == size / 3600000000
        && AllDigits(s[4..6]) && ParseDigits(s[4..6]) == size / 60000000 % 60
        && s[6..] == PrintOffsetTail(size % 60000000)
  {
    hide ParseDigits, Pad, PrintOffsetTail;
    Widths();
    var size := if offset < 0 then -offset else offset;
    var minutes := size / MICROS_PER_MINUTE;
    var s, tail := PrintOffset(offset), PrintOffsetTail(size % MICROS_PER_MINUTE);
    if offset == 0 {
      assert tail == "" by { OffsetTailText(0); }
    }
    if !(0 <= offset && minutes == 0) {
      ParsePad(minutes / 60, 2);
      ParsePad(minutes % 60, 2);
      assert s[1..3] == Pad(minutes / 60, 2) && s[4..6] == Pad(minutes % 60, 2) && s[6..] == tail;
    }
  }

  /** ISO form; microseconds only when there are any. */
  function PrintInstant(t: Instant): string
    requires ValidInstant(t)
  {
    Widths();
    PrintDate(t.date) + "T" + Pad(t.hour, 2) + ":" + Pad(t.minute, 2) + ":" + Pad(t.second, 2)
    + ((if t.micro == 0 then "" else "." + Pad(t.micro, 6)) + PrintOffset(t.offset))
  }

  /** What follows the seconds: perhaps microseconds, then the offset. */
  function ParseTail(s: string): Option<(nat, int)> {
    if s != "" && s[0] == '.' then
      if |s| < 7 || !AllDigits(s[1..7]) || ParseOffset(s[7..]).None? then None
      else Some((ParseDigits(s[1..7]), ParseOffset(s[7..]).value))
    else if ParseOffset(s).None? then None
    else Some((0, ParseOffset(s).value))
  }

  lemma TailRoundTrip(micro: nat, offset: int)
    requires micro < Pow10(6) && ValidOffset(offset)
    ensures ParseTail((if micro == 0 then "" else "." + Pad(micro, 6)) + PrintOffset(offset)) == Some((micro, offset))
  {
    hide ParseOffset, PrintOffset, ParseDigits, Pow10;
    OffsetRoundTrip(offset);
    ParsePad(micro, 6);
    var zone := PrintOffset(offset);
    if micro == 0 {
      assert "" + zone == zone;
      assert zone[0] != '.';
    } else {
      var s := "." + Pad(micro, 6) + zone;
      assert s[1..7] == Pad(micro, 6) && s[7..] == zone;
    }
  }

  function ParseInstant(s: string): Option<Instant> {
    if |s| < 19 || s[10] != 'T' || s[13] != ':' || s[16] != ':'
       || !AllDigits(s[11..13]) || !AllDigits(s[14..16]) || !AllDigits(s[17..19]) then None
    else
      match (ParseDate(s[..10]), ParseTail(s[19..]))
      case (Some(date), Some((micro, offset))) =>
        var t := Instant(date, ParseDigits(s[11..13]), ParseDigits(s[14..16]), ParseDigits(s[17..19]), micro, offset);
        if ValidInstant(t) then Some(t) else None
      case _ => None
  }

  lemma InstantRoundTrip(t: Instant)
    requires ValidInstant(t)
    ensures ParseInstant(PrintInstant(t)) == Some(t)
  {
    hide PrintDate, ParseDate, ParseDigits, Pad, Pow10, PrintOffset, ParseTail;
    Widths();
    DateRoundTrip(t.date);
    ParsePad(t.hour, 2);
    ParsePad(t.minute, 2);
    ParsePad(t.second, 2);
    TailRoundTrip(t.micro, t.offset);
    var s := PrintInstant(t);
    assert s[..10] == PrintDate(t.date);
    assert s[11..13] == Pad(t.hour, 2) && s[14..16] == Pad(t.minute, 2) && s[17..19] == Pad(t.second, 2);
    assert s[19..] == (if t.micro == 0 then "" else "." + Pad(t.micro, 6)) + PrintOffset(t.offset);
  }

  /** Date, `T`, hour, minute and second; a point and six digits when there are microseconds; the offset. */
  lemma InstantText(t: Instant)
    requires ValidInstant(t)
    ensures var s := PrintInstant(t);
      && 19 <= |s| && s[..10] == PrintDate(t.date) && s[10] == 'T' && s[13] == ':' && s[16] == ':'
      && AllDigits(s[11..13]) && AllDigits(s[14..16]) && AllDigits(s[17..19])
      && ParseDigits(s[11..13]) == t.hour && ParseDigits(s[14..16]) == t.minute && ParseDigits(s[17..19]) == t.second
      && if t.micro == 0 then s[19..] == PrintOffset(t.offset)
         else
           && 26 <= |s| && s[19] == '.' && AllDigits(s[20..26]) && ParseDigits(s[20..26]) == t.micro
           && s[26..] == PrintOffset(t.offset)
  {
    hide PrintDate, ParseDigits, Pad, PrintOffset;
    Widths();
    ParsePad(t.hour, 2);
    ParsePad(t.minute, 2);
    ParsePad(t.second, 2);
    ParsePad(t.micro, 6);
    var s, zone := PrintInstant(t), PrintOffset(t.offset);
    assert s[..10] == PrintDate(t.date);
    assert s[11..13] == Pad(t.hour, 2) && s[14..16] == Pad(t.minute, 2) && s[17..19] == Pad(t.second, 2);
    if t.micro == 0 {
      assert s[19..] == "" + zone == zone;
    } else {
      assert s[20..26] == Pad(t.micro, 6) && s[26..] == zone;
    }
  }

  /** What an offset may add to whole minutes: seconds, and six digits of microseconds. */
  lemma OnlyOffsetTailsRead(s: string)
    requires ParseOffsetTail(s).Some?
    ensures if s == "" then ParseOffsetTail(s).value == 0
      else
        && (|s| == 3 || (|s| == 10 && s[3] == '.' && AllDigits(s[4..])))
        && s[0] == ':' && AllDigits(s[1..3]) && ParseDigits(s[1..3]) <= 59
        && ParseOffsetTail(s).value
           == ParseDigits(s[1..3]) * 1000000 + if |s| == 3 then 0 else ParseDigits(s[4..])
  {
    hide ParseDigits;
  }

  /** An offset is `Z`, or a sign with hours and minutes; and what it adds to whole minutes. */
  lemma OnlyOffsetsRead(s: string)
    requires ParseOffset(s).Some?
    ensures s != ""
    ensures s[0] == 'Z' ==> Some(ParseOffset(s).value) == ParseOffsetTail(s[1..])
    ensures s[0] != 'Z' ==>
      && 6 <= |s| && (s[0] == '+' || s[0] == '-') && s[3] == ':' && AllDigits(s[1..3]) && AllDigits(s[4..6])
      && ParseDigits(s[1..3]) <= 23 && ParseDigits(s[4..6]) <= 59 && ParseOffsetTail(s[6..]).Some?
      && var size := ParseDigits(s[1..3]) * 3600000000 + ParseDigits(s[4..6]) * 60000000
                     + ParseOffsetTail(s[6..]).value;
         ParseOffset(s).value == if s[0] == '-' then -size else size
  {
    hide ParseDigits, ParseOffsetTail;
    if s != "" && s[0] != 'Z' {
      assert s[..6][1..3] == s[1..3] && s[..6][4..] == s[4..6];
    }
  }

  /** After the seconds come a point and six digits, or nothing, and then the offset. */
  lemma OnlyTailsRead(s: string)
    requires ParseTail(s).Some?
    ensures if s != "" && s[0] == '.' then
        && 7 <= |s| && AllDigits(s[1..7]) && ParseOffset(s[7..]).Some?
        && ParseTail(s).value == (ParseDigits(s[1..7]), ParseOffset(s[7..]).value)
      else ParseOffset(s).Some? && ParseTail(s).value == (0, ParseOffset(s).value)
  {
    hide ParseDigits, ParseOffset;
  }

  predicate HasInstantForm(s: string) {
    && 19 <= |s| && s[10] == 'T' && s[13] == ':' && s[16] == ':'
    && AllDigits(s[11..13]) && AllDigits(s[14..16]) && AllDigits(s[17..19])
  }

  /** A text reads as a timestamp exactly when it has that form, its date and tail read and it is a time of
      a day. */
  lemma InstantReads(s: string)
    ensures !HasInstantForm(s) ==> ParseInstant(s) == None
    ensures HasInstantForm(s) ==>
      var hour, minute, second := ParseDigits(s[11..13]), ParseDigits(s[14..16]), ParseDigits(s[17..19]);
      match (ParseDate(s[..10]), ParseTail(s[19..]))
      case (Some(date), Some((micro, offset))) =>
        ParseInstant(s) == if hour <= 23 && minute <= 59 && second <= 59 && micro <= 999999
                              && -86400000000 < offset && offset < 86400000000
                           then Some(Instant(date, hour, minute, second, micro, offset)) else None
      case _ => ParseInstant(s) == None
  {
    hide ParseDigits, ParseTail, DaysIn;
    if HasInstantForm(s) {
      OnlyDaysRead(s[..10]);
    }
  }

  lemma OnlyDaysRead(s: string)
    ensures ParseDate(s).Some? ==> ValidDate(ParseDate(s).value)
  {
    hide ParseDigits, ValidDate;
  }
}
