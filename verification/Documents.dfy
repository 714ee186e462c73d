/** The dictionaries that canonical forms are made of, and reading values out of them. */
module Documents {
  import opened Wrappers
  import opened Text

  /** The key names in use; any other key is `OtherField`. */
  datatype Field =
    | SchemaVersion | RunId | StrategyRef | DatasetRef | Universe | Period | Capital | SignalAndFill
    | CorporateActionTreatment | Execution | Benchmark | Metrics | EngineRef | CreatedAtUtc
    | StrategyId | Version | Checksum | DatasetId | ContentChecksum
    | InstrumentIds | UnresolvedIdentifierPolicy | StartDate | EndDate | BarInterval | Amount | Currency
    | SignalTime | FillTime | MissingNextBarPolicy
    | PositionSizing | Commission | Tax | Slippage | Liquidity | PriceLimit | Rounding
    | Kind | Fraction | QuantityIncrement | MoneyScale | AnnualizationBasis | RiskFreeRate
    | AdapterName | AdapterVersion
    | FastWindow | SlowWindow | PriceField | PeriodLength | OversoldThreshold | OverboughtThreshold
    | FastPeriod | SlowPeriod | SignalPeriod | NumStdDev | Conditions | Parameters
    | OtherField(name: string)

  datatype Json =
    | Text(text: string)
    | Number(number: int)
    | Real(value: real)
    | Truth(truth: bool)
    | Null
    | List(items: seq<Json>)
    | Object(fields: map<Field, Json>)

  /** `Absent`: the key is missing. `WrongKeys`: the keys are not those of the record. `WrongValue`:
      a value of another type, or text that does not read. `Refused`: a guard of the domain. */
  datatype Problem = Absent(field: Field) | WrongKeys | WrongValue | Refused(code: string)

  function Get(data: Json, field: Field): Result<Json, Problem> {
    if !data.Object? then Err(WrongValue)
    else if field !in data.fields then Err(Absent(field))
    else Ok(data.fields[field])
  }

  /** A dictionary unpacked as keyword arguments: its keys are exactly the parameters. */
  function RequireKeys(data: Json, expected: set<Field>): Result<(), Problem> {
    if !data.Object? then Err(WrongValue)
    else if data.fields.Keys != expected then Err(WrongKeys)
    else Ok(())
  }

  function GetText(data: Json, field: Field): Result<string, Problem> {
    var value :- Get(data, field);
    if value.Text? then Ok(value.text) else Err(WrongValue)
  }

  function GetNumber(data: Json, field: Field): Result<int, Problem> {
    var value :- Get(data, field);
    if value.Number? then Ok(value.number) else Err(WrongValue)
  }

  function GetDecimal(data: Json, field: Field): Result<Decimal, Problem> {
    var text :- GetText(data, field);
    match ParseDecimal(text)
    case None => Err(WrongValue)
    case Some(d) => Ok(d)
  }

  function GetDate(data: Json, field: Field): Result<Date, Problem> {
    var text :- GetText(data, field);
    match ParseDate(text)
    case None => Err(WrongValue)
    case Some(d) => Ok(d)
  }

  function GetInstant(data: Json, field: Field): Result<Instant, Problem> {
    var text :- GetText(data, field);
    match ParseInstant(text)
    case None => Err(WrongValue)
    case Some(t) => Ok(t)
  }

  function TextList(texts: seq<string>): Json {
    List(seq(|texts|, i requires 0 <= i < |texts| => Text(texts[i])))
  }

  function GetTexts(data: Json, field: Field): Result<seq<string>, Problem> {
    var value :- Get(data, field);
    if value.List? && (forall i :: 0 <= i < |value.items| ==> value.items[i].Text?)
    then Ok(seq(|value.items|, i requires 0 <= i < |value.items| => value.items[i].text))
    else Err(WrongValue)
  }

  lemma TextListReads(data: Json, field: Field, texts: seq<string>)
    requires data.Object? && field in data.fields && data.fields[field] == TextList(texts)
    ensures GetTexts(data, field) == Ok(texts)
  {
    var items := TextList(texts).items;
    assert seq(|items|, i requires 0 <= i < |items| => if items[i].Text? then items[i].text else "") == texts;
    assert GetTexts(data, field).value == texts;
  }

  /** What goes wrong with an entry: the data is no dictionary, the key is missing, the value is of another
      type or does not read; and with a dictionary, that its keys are others. */
  lemma EntryProblems(data: Json, field: Field, keys: set<Field>)
    ensures var missing :=
        if !data.Object? then Some(WrongValue) else if field !in data.fields then Some(Absent(field)) else None;
      && (missing.Some? ==>
            && GetText(data, field) == Err(missing.value) && GetNumber(data, field) == Err(missing.value)
            && GetDecimal(data, field) == Err(missing.value) && GetDate(data, field) == Err(missing.value)
            && GetInstant(data, field) == Err(missing.value) && GetTexts(data, field) == Err(missing.value))
      && (missing.None? ==> var value := data.fields[field];
            && GetText(data, field) == (if value.Text? then Ok(value.text) else Err(WrongValue))
            && GetNumber(data, field) == (if value.Number? then Ok(value.number) else Err(WrongValue))
            && (GetDecimal(data, field).Err? ==> GetDecimal(data, field).error == WrongValue)
            && (GetDate(data, field).Err? ==> GetDate(data, field).error == WrongValue)
            && (GetInstant(data, field).Err? ==> GetInstant(data, field).error == WrongValue)
            && (GetTexts(data, field).Err? ==> GetTexts(data, field).error == WrongValue))
    ensures RequireKeys(data, keys)
        == if !data.Object? then Err(WrongValue) else if data.fields.Keys == keys then Ok(()) else Err(WrongKeys)
  {
    hide ParseDecimal, ParseDate, ParseInstant;
  }

  /** White space as Unicode has it: what stripping a text removes. */
  predicate IsSpace(c: char) {
    var n := c as int;
    || 0x09 <= n <= 0x0D || 0x1C <= n <= 0x20 || n == 0x85 || n == 0xA0 || n == 0x1680
    || 0x2000 <= n <= 0x200A || n == 0x2028 || n == 0x2029 || n == 0x202F || n == 0x205F || n == 0x3000
  }

  /** Nothing is left when white space is stripped. */
  predicate Blank(s: string) {
    forall i :: 0 <= i < |s| ==> IsSpace(s[i])
  }

  /** A guard of the domain: the first that fails names the error. */
  function Require(condition: bool, code: string): Result<(), Problem> {
    if condition then Ok(()) else Err(Refused(code))
  }
}
