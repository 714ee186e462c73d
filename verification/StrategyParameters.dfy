/** Strategy parameters: four base kinds, and combinations of two or three of them. */
module StrategyParameters {
  import opened Wrappers
  import opened Documents
  import opened Sequences

  const SMA := "sma_crossover"
  const RSI := "rsi_threshold"
  const MACD := "macd_crossover"
  const BOLLINGER := "bollinger_breakout"
  const COMBO := "multi_indicator_combo"

  const INVALID := Refused("invalid_parameters")

  /** A parameter is any number the dictionary held: the guards compare, they do not ask for integers,
      and a truth value counts as 0 or 1. */
  datatype Num = Whole(whole: int) | Decimal(decimal: real) | Flag(flag: bool)

  function Amount(n: Num): real {
    match n
    case Whole(i) => i as real
    case Decimal(x) => x
    case Flag(b) => if b then 1.0 else 0.0
  }

  function NumJson(n: Num): Json {
    match n
    case Whole(i) => Number(i)
    case Decimal(x) => Real(x)
    case Flag(b) => Truth(b)
  }

  function GetNum(data: Json, field: Field): Result<Num, Problem> {
    var value :- Get(data, field);
    match value
    case Number(i) => Ok(Whole(i))
    case Real(x) => Ok(Decimal(x))
    case Truth(b) => Ok(Flag(b))
    case _ => Err(WrongValue)
  }

  datatype BaseParameters =
    | SmaCrossover(fastWindow: Num, slowWindow: Num, priceField: string)
    | RsiThreshold(period: Num, oversold: Num, overbought: Num, priceField: string)
    | MacdCrossover(fastPeriod: Num, slowPeriod: Num, signalPeriod: Num, priceField: string)
    | BollingerBreakout(period: Num, numStdDev: Num, priceField: string)

  datatype Condition = Condition(kind: string, parameters: BaseParameters)

  datatype StrategyParameters = Base(parameters: BaseParameters) | Combo(conditions: seq<Condition>)

  // ---- Valid parameters ----

  predicate ValidBase(p: BaseParameters) {
    && p.priceField == "close"
    && match p
       case SmaCrossover(fast, slow, _) => 1.0 <= Amount(fast) < Amount(slow)
       case RsiThreshold(period, oversold, overbought, _) =>
         2.0 <= Amount(period) && 0.0 < Amount(oversold) < Amount(overbought) < 100.0
       case MacdCrossover(fast, slow, signal, _) => 1.0 <= Amount(fast) < Amount(slow) && 1.0 <= Amount(signal)
       case BollingerBreakout(period, deviations, _) => 2.0 <= Amount(period) && 1.0 <= Amount(deviations) <= 4.0
  }

  function BaseKind(p: BaseParameters): string {
    match p
    case SmaCrossover(_, _, _) => SMA
    case RsiThreshold(_, _, _, _) => RSI
    case MacdCrossover(_, _, _, _) => MACD
    case BollingerBreakout(_, _, _) => BOLLINGER
  }

  predicate ValidCondition(c: Condition) {
    c.kind == BaseKind(c.parameters) && ValidBase(c.parameters)
  }

  predicate DistinctKinds(conditions: seq<Condition>) {
    forall i, j :: 0 <= i < j < |conditions| ==> conditions[i].kind != conditions[j].kind
  }

  predicate ValidParameters(p: StrategyParameters) {
    match p
    case Base(q) => ValidBase(q)
    case Combo(conditions) =>
      2 <= |conditions| <= 3 && DistinctKinds(conditions) && forall i :: 0 <= i < |conditions| ==>
          ValidCondition(conditions[i])
  }

  function KindOf(p: StrategyParameters): string {
    match p
    case Base(q) => BaseKind(q)
    case Combo(_) => COMBO
  }

  // ---- The canonical form ----

  function BaseJson(p: BaseParameters): Json {
    match p
    case SmaCrossover(fast, slow, price) =>
      Object(map[FastWindow := NumJson(fast), SlowWindow := NumJson(slow), PriceField := Text(price)])
    case RsiThreshold(period, oversold, overbought, price) =>
      Object(map[PeriodLength := NumJson(period), OversoldThreshold := NumJson(oversold),
                 OverboughtThreshold := NumJson(overbought), PriceField := Text(price)])
    case MacdCrossover(fast, slow, signal, price) =>
      Object(map[FastPeriod := NumJson(fast), SlowPeriod := NumJson(slow), SignalPeriod := NumJson(signal),
                 PriceField := Text(price)])
    case BollingerBreakout(period, deviations, price) =>
      Object(map[PeriodLength := NumJson(period), NumStdDev := NumJson(deviations), PriceField := Text(price)])
  }

  function ConditionJson(c: Condition): Json {
    Object(map[Kind := Text(c.kind), Documents.Parameters := BaseJson(c.parameters)])
  }

  function ToCanonical(p: StrategyParameters): Json {
    match p
    case Base(q) => BaseJson(q)
    case Combo(conditions) =>
      Object(map[Conditions :=
          List(seq(|conditions|, i requires 0 <= i < |conditions| => ConditionJson(conditions[i])))])
  }

  // ---- Building from a dictionary ----

  /** Keyword construction: the keys are exactly the parameters and the values have their types. */
  function Construct(kind: string, raw: Json): Result<BaseParameters, Problem> {
    if kind == SMA then
      var _ :- RequireKeys(raw, {FastWindow, SlowWindow, PriceField});
      var fast :- GetNum(raw, FastWindow);
      var slow :- GetNum(raw, SlowWindow);
      var price :- GetText(raw, PriceField);
      Ok(SmaCrossover(fast, slow, price))
    else if kind == RSI then
      var _ :- RequireKeys(raw, {PeriodLength, OversoldThreshold, OverboughtThreshold, PriceField});
      var period :- GetNum(raw, PeriodLength);
      var oversold :- GetNum(raw, OversoldThreshold);
      var overbought :- GetNum(raw, OverboughtThreshold);
      var price :- GetText(raw, PriceField);
      Ok(RsiThreshold(period, oversold, overbought, price))
    else if kind == MACD then
      var _ :- RequireKeys(raw, {FastPeriod, SlowPeriod, SignalPeriod, PriceField});
      var fast :- GetNum(raw, FastPeriod);
      var slow :- GetNum(raw, SlowPeriod);
      var signal :- GetNum(raw, SignalPeriod);
      var price :- GetText(raw, PriceField);
      Ok(MacdCrossover(fast, slow, signal, price))
    else
      var _ :- RequireKeys(raw, {PeriodLength, NumStdDev, PriceField});
      var period :- GetNum(raw, PeriodLength);
      var deviations :- GetNum(raw, NumStdDev);
      var price :- GetText(raw, PriceField);
      Ok(BollingerBreakout(period, deviations, price))
  }

  /** Every way that construction fails is reported under one code. */
  function BuildBase(kind: string, raw: Json): Result<BaseParameters, Problem> {
    match Construct(kind, raw)
    case Err(_) => Err(INVALID)
    case Ok(p) => if ValidBase(p) then Ok(p) else Err(INVALID)
  }

  function BuildCondition(raw: Json): Result<Condition, Problem> {
    if !raw.Object? || Kind !in raw.fields || Documents.Parameters !in raw.fields then Err(INVALID)
    else
      var kind := raw.fields[Kind];
      if kind.List? || kind.Object? then Err(WrongValue)
      else if !kind.Text? || kind.text !in {SMA, RSI, MACD, BOLLINGER} then Err(INVALID)
      else
        var parameters :- BuildBase(kind.text, raw.fields[Documents.Parameters]);
        Ok(Condition(kind.text, parameters))
  }

  /** The conditions in order; the first that fails decides the error. */
  function BuildConditions(raw: seq<Json>): Result<seq<Condition>, Problem> {
    if raw == [] then Ok([])
    else
      var head :- BuildCondition(raw[0]);
      var rest :- BuildConditions(raw[1..]);
      Ok([head] + rest)
  }

  function BuildCombo(raw: Json): Result<StrategyParameters, Problem> {
    if !raw.Object? || Conditions !in raw.fields || !raw.fields[Conditions].List? then Err(INVALID)
    else
      var conditions :- BuildConditions(raw.fields[Conditions].items);
      if 2 <= |conditions| <= 3 && DistinctKinds(conditions) then Ok(Combo(conditions)) else Err(INVALID)
  }

  function BuildParameters(kind: string, raw: Json): Result<StrategyParameters, Problem> {
    if kind !in {SMA, RSI, MACD, BOLLINGER, COMBO} then Err(Refused("unsupported_kind"))
    else if kind == COMBO then BuildCombo(raw)
    else
      var parameters :- BuildBase(kind, raw);
      Ok(Base(parameters))
  }

  /** The loop that collects the conditions, leaving at the first error. */
  method BuildComboParameters(raw: Json) returns (r: Result<StrategyParameters, Problem>)
    ensures r == BuildCombo(raw)
  {
    if !raw.Object? || Conditions !in raw.fields || !raw.fields[Conditions].List? {
      return Err(INVALID);
    }
    var items := raw.fields[Conditions].items;
    var conditions: seq<Condition> := [];
    ghost var all := BuildConditions(items);
    assert items[0..] == items && (all.Ok? ==> conditions + all.value == all.value);
    for i := 0 to |items|
      invariant BuildConditions(items) == match BuildConditions(items[i..])
        case Err(e) => Err(e)
        case Ok(rest) => Ok(conditions + rest)
    {
      assert items[i..][0] == items[i] && items[i..][1..] == items[i + 1..];
      var next := BuildCondition(items[i]);
      if next.Err? {
        return Err(next.error);
      }
      ghost var rest := BuildConditions(items[i + 1..]);
      assert rest.Ok? ==> (conditions + [next.value]) + rest.value == conditions + ([next.value] + rest.value);
      conditions := conditions + [next.value];
    }
    assert conditions + [] == conditions;
    r := if 2 <= |conditions| <= 3 && DistinctKinds(conditions) then Ok(Combo(conditions)) else Err(INVALID);
  }

  // ---- What is accepted ----

  lemma KindsDiffer()
    ensures SMA != RSI && SMA != MACD && SMA != BOLLINGER && SMA != COMBO
    ensures RSI != MACD && RSI != BOLLINGER && RSI != COMBO
    ensures MACD != BOLLINGER && MACD != COMBO && BOLLINGER != COMBO
  {
    assert SMA[0] == 's' && RSI[0] == 'r' && MACD[0] == 'm' && MACD[1] == 'a' && BOLLINGER[0] == 'b';
    assert COMBO[0] == 'm' && COMBO[1] == 'u';
  }

  predicate IsBaseKind(kind: string) {
    kind in {SMA, RSI, MACD, BOLLINGER}
  }

  lemma NumReads(data: Json, field: Field, n: Num)
    ensures GetNum(data, field) == Ok(n) <==> data.Object? && field in data.fields && data.fields[field] == NumJson(n)
    ensures data.Object? && field in data.fields && GetNum(data, field).Err? ==> GetNum(data, field).error == WrongValue
  {}

  lemma SmaReads(raw: Json, p: BaseParameters)
    ensures Construct(SMA, raw) == Ok(p) <==> p.SmaCrossover? && raw == BaseJson(p)
  {
    hide GetNum, NumJson;
    if p.SmaCrossover? {
      NumReads(raw, FastWindow, p.fastWindow);
      NumReads(raw, SlowWindow, p.slowWindow);
      assert raw.Object? ==> (raw == BaseJson(p) <==> raw.fields == BaseJson(p).fields);
    }
  }

  lemma RsiReads(raw: Json, p: BaseParameters)
    ensures Construct(RSI, raw) == Ok(p) <==> p.RsiThreshold? && raw == BaseJson(p)
  {
    hide GetNum, NumJson;
    KindsDiffer();
    if p.RsiThreshold? {
      NumReads(raw, PeriodLength, p.period);
      NumReads(raw, OversoldThreshold, p.oversold);
      NumReads(raw, OverboughtThreshold, p.overbought);
      assert raw.Object? ==> (raw == BaseJson(p) <==> raw.fields == BaseJson(p).fields);
    }
  }

  lemma MacdReads(raw: Json, p: BaseParameters)
    ensures Construct(MACD, raw) == Ok(p) <==> p.MacdCrossover? && raw == BaseJson(p)
  {
    hide GetNum, NumJson;
    KindsDiffer();
    if p.MacdCrossover? {
      NumReads(raw, FastPeriod, p.fastPeriod);
      NumReads(raw, SlowPeriod, p.slowPeriod);
      NumReads(raw, SignalPeriod, p.signalPeriod);
      assert raw.Object? ==> (raw == BaseJson(p) <==> raw.fields == BaseJson(p).fields);
    }
  }

  lemma BollingerReads(raw: Json, p: BaseParameters)
    ensures Construct(BOLLINGER, raw) == Ok(p) <==> p.BollingerBreakout? && raw == BaseJson(p)
  {
    hide GetNum, NumJson;
    KindsDiffer();
    if p.BollingerBreakout? {
      NumReads(raw, PeriodLength, p.period);
      NumReads(raw, NumStdDev, p.numStdDev);
      assert raw.Object? ==> (raw == BaseJson(p) <==> raw.fields == BaseJson(p).fields);
    }
  }

  /** The dictionary of parameters is exactly their canonical form. */
  lemma BaseBuiltIff(kind: string, raw: Json, p: BaseParameters)
    requires IsBaseKind(kind)
    ensures BuildBase(kind, raw) == Ok(p) <==> ValidBase(p) && kind == BaseKind(p) && raw == BaseJson(p)
  {
    hide Construct, BaseJson, ValidBase;
    KindsDiffer();
    SmaReads(raw, p);
    RsiReads(raw, p);
    MacdReads(raw, p);
    BollingerReads(raw, p);
  }

  /** A condition may hold other keys; its kind and parameters are read exactly. */
  predicate SaysCondition(raw: Json, c: Condition) {
    && raw.Object? && Kind in raw.fields && Documents.Parameters in raw.fields
    && raw.fields[Kind] == Text(c.kind) && raw.fields[Documents.Parameters] == BaseJson(c.parameters)
  }

  predicate SaysConditions(raw: seq<Json>, conditions: seq<Condition>) {
    |raw| == |conditions| && forall i :: 0 <= i < |raw| ==>
        SaysCondition(raw[i], conditions[i]) && ValidCondition(conditions[i])
  }

  predicate Says(raw: Json, p: StrategyParameters) {
    match p
    case Base(q) => raw == BaseJson(q)
    case Combo(conditions) =>
      && raw.Object? && Conditions in raw.fields && raw.fields[Conditions].List?
      && |raw.fields[Conditions].items| == |conditions|
      && forall i :: 0 <= i < |conditions| ==> SaysCondition(raw.fields[Conditions].items[i], conditions[i])
  }

  lemma ConditionBuiltIff(raw: Json, c: Condition)
    ensures BuildCondition(raw) == Ok(c) <==> SaysCondition(raw, c) && ValidCondition(c)
  {
    hide BuildBase, BaseJson, ValidBase;
    assert IsBaseKind(BaseKind(c.parameters));
    if raw.Object? && Kind in raw.fields && Documents.Parameters in raw.fields {
      var kind := raw.fields[Kind];
      if kind.Text? && IsBaseKind(kind.text) {
        BaseBuiltIff(kind.text, raw.fields[Documents.Parameters], c.parameters);
      }
    }
  }

  lemma {:induction false} ConditionsBuiltIff(raw: seq<Json>, conditions: seq<Condition>)
    ensures BuildConditions(raw) == Ok(conditions) <==> SaysConditions(raw, conditions)
    decreases |raw|
  {
    hide BuildCondition, SaysCondition, ValidCondition;
    if raw != [] && conditions != [] {
      ConditionBuiltIff(raw[0], conditions[0]);
      ConditionsBuiltIff(raw[1..], conditions[1..]);
      SaysSplits(raw, conditions);
      assert conditions == [conditions[0]] + conditions[1..];
    }
  }

  lemma SaysSplits(raw: seq<Json>, conditions: seq<Condition>)
    requires raw != [] && conditions != []
    ensures SaysConditions(raw, conditions) <==>
      SaysCondition(raw[0], conditions[0]) && ValidCondition(conditions[0]) && SaysConditions(raw[1..], conditions[1..])
  {
    hide SaysCondition, ValidCondition;
    if SaysConditions(raw[1..], conditions[1..]) {
      forall i | 1 <= i < |raw|
        ensures SaysCondition(raw[i], conditions[i]) && ValidCondition(conditions[i])
      {
        assert raw[i] == raw[1..][i - 1] && conditions[i] == conditions[1..][i - 1];
      }
    }
  }

  /** Building succeeds exactly on the dictionaries that say valid parameters of that kind. */
  lemma ParametersBuiltIff(kind: string, raw: Json, p: StrategyParameters)
    ensures BuildParameters(kind, raw) == Ok(p) <==> ValidParameters(p) && kind == KindOf(p) && Says(raw, p)
  {
    hide BuildBase, BuildConditions, SaysCondition, ValidCondition, BaseJson, ValidBase;
    KindsDiffer();
    match p
    case Base(q) =>
      assert IsBaseKind(BaseKind(q));
      if IsBaseKind(kind) { BaseBuiltIff(kind, raw, q); }
    case Combo(conditions) =>
      if raw.Object? && Conditions in raw.fields && raw.fields[Conditions].List? {
        ConditionsBuiltIff(raw.fields[Conditions].items, conditions);
      }
  }

  /** Parameters survive their canonical form. */
  lemma ParametersRoundTrip(p: StrategyParameters)
    requires ValidParameters(p)
    ensures BuildParameters(KindOf(p), ToCanonical(p)) == Ok(p)
  {
    ParametersBuiltIff(KindOf(p), ToCanonical(p), p);
  }

  // ---- The guards of each kind, on what the dictionary holds ----

  /** The number that a value is, if it is one. */
  function NumberIn(value: Json): Option<real> {
    match value
    case Number(i) => Some(i as real)
    case Real(x) => Some(x)
    case Truth(b) => Some(if b then 1.0 else 0.0)
    case _ => None
  }

  lemma SmaAccepted(fast: Json, slow: Json, price: Json)
    ensures var raw := Object(map[FastWindow := fast, SlowWindow := slow, PriceField := price]);
      BuildParameters("sma_crossover", raw).Ok? <==>
      && price == Text("close") && NumberIn(fast).Some? && NumberIn(slow).Some?
      && 1.0 <= NumberIn(fast).value && NumberIn(fast).value < NumberIn(slow).value
  {}

  lemma RsiAccepted(period: Json, oversold: Json, overbought: Json, price: Json)
    ensures var raw := Object(map[PeriodLength := period, OversoldThreshold := oversold,
                                  OverboughtThreshold := overbought, PriceField := price]);
      BuildParameters("rsi_threshold", raw).Ok? <==>
      && price == Text("close") && NumberIn(period).Some? && NumberIn(oversold).Some? && NumberIn(overbought).Some?
      && 2.0 <= NumberIn(period).value && 0.0 < NumberIn(oversold).value
      && NumberIn(oversold).value < NumberIn(overbought).value && NumberIn(overbought).value < 100.0
  {
    KindsDiffer();
  }

  lemma MacdAccepted(fast: Json, slow: Json, signal: Json, price: Json)
    ensures var raw := Object(map[FastPeriod := fast, SlowPeriod := slow, SignalPeriod := signal, PriceField := price]);
      BuildParameters("macd_crossover", raw).Ok? <==>
      && price == Text("close") && NumberIn(fast).Some? && NumberIn(slow).Some? && NumberIn(signal).Some?
      && 1.0 <= NumberIn(fast).value && NumberIn(fast).value < NumberIn(slow).value && 1.0 <= NumberIn(signal).value
  {
    KindsDiffer();
  }

  lemma BollingerAccepted(period: Json, deviations: Json, price: Json)
    ensures var raw := Object(map[PeriodLength := period, NumStdDev := deviations, PriceField := price]);
      BuildParameters("bollinger_breakout", raw).Ok? <==>
      && price == Text("close") && NumberIn(period).Some? && NumberIn(deviations).Some?
      && 2.0 <= NumberIn(period).value && 1.0 <= NumberIn(deviations).value && NumberIn(deviations).value <= 4.0
  {
    KindsDiffer();
  }

  function KindsOf(conditions: seq<Condition>): (kinds: seq<string>)
    ensures |kinds| == |conditions|
  {
    seq(|conditions|, i requires 0 <= i < |conditions| => conditions[i].kind)
  }

  /** Kinds are distinct when there are as many of them as conditions. */
  lemma DistinctIffCounted(conditions: seq<Condition>)
    ensures DistinctKinds(conditions) <==> |set k | k in KindsOf(conditions)| == |conditions|
  {
    DistinctCounted(KindsOf(conditions));
    assert forall i :: 0 <= i < |conditions| ==> KindsOf(conditions)[i] == conditions[i].kind;
  }

  /** How a refusal is reported: an unknown kind; invalid parameters; or, of a combination, a condition
      whose kind is a list or an object, on which the lookup raises. */
  lemma RefusedUnderOneCode(kind: string, raw: Json)
    ensures var r := BuildParameters(kind, raw);
      var base := {"sma_crossover", "rsi_threshold", "macd_crossover", "bollinger_breakout"};
      && (kind !in base && kind != "multi_indicator_combo" ==> r == Err(Refused("unsupported_kind")))
      && (kind in base && r.Err? ==> r == Err(Refused("invalid_parameters")))
      && (kind == "multi_indicator_combo" && r.Err? ==>
            r.error == if RaisesOverKind(raw) then WrongValue else Refused("invalid_parameters"))
  {
    hide Construct, ValidBase;
    KindsDiffer();
    if raw.Object? && Conditions in raw.fields && raw.fields[Conditions].List? {
      ConditionsRefused(raw.fields[Conditions].items);
    }
  }

  predicate KindIsNested(raw: Json) {
    && raw.Object? && Kind in raw.fields && Documents.Parameters in raw.fields
    && (raw.fields[Kind].List? || raw.fields[Kind].Object?)
  }

  /** The first condition that cannot be built has a nested kind. */
  predicate FirstIsNested(raw: seq<Json>) {
    exists i :: 0 <= i < |raw| && KindIsNested(raw[i]) && forall j :: 0 <= j < i ==> BuildCondition(raw[j]).Ok?
  }

  predicate RaisesOverKind(raw: Json) {
    && raw.Object? && Conditions in raw.fields && raw.fields[Conditions].List?
    && FirstIsNested(raw.fields[Conditions].items)
  }

  lemma ConditionRefused(raw: Json)
    ensures BuildCondition(raw).Err? ==> BuildCondition(raw).error == if KindIsNested(raw) then WrongValue else INVALID
    ensures KindIsNested(raw) ==> BuildCondition(raw).Err?
  {
    hide Construct, ValidBase;
  }

  lemma {:induction false} ConditionsRefused(raw: seq<Json>)
    ensures BuildConditions(raw).Err? ==>
      BuildConditions(raw).error == if FirstIsNested(raw) then WrongValue else INVALID
    ensures FirstIsNested(raw) ==> BuildConditions(raw).Err?
    decreases |raw|
  {
    hide BuildCondition, KindIsNested;
    if raw != [] {
      ConditionsRefused(raw[1..]);
      ConditionRefused(raw[0]);
      NestedSplits(raw);
    }
  }

  lemma NestedSplits(raw: seq<Json>)
    requires raw != []
    ensures FirstIsNested(raw) <==> KindIsNested(raw[0]) || (BuildCondition(raw[0]).Ok? && FirstIsNested(raw[1..]))
  {
    hide BuildCondition, KindIsNested;
    var rest := raw[1..];
    if i :| 0 <= i < |rest| && KindIsNested(rest[i]) && forall j :: 0 <= j < i ==> BuildCondition(rest[j]).Ok? {
      assert forall j :: 1 <= j <= i ==> raw[j] == rest[j - 1];
      if BuildCondition(raw[0]).Ok? {
        assert KindIsNested(raw[i + 1]);
      }
    }
    if i :| 1 <= i < |raw| && KindIsNested(raw[i]) && forall j :: 0 <= j < i ==> BuildCondition(raw[j]).Ok? {
      assert KindIsNested(rest[i - 1]);
      assert forall j :: 0 <= j < i - 1 ==> rest[j] == raw[j + 1];
    }
  }

  // ---- Warm-up ----

  function BaseWarmup(p: BaseParameters): real {
    match p
    case SmaCrossover(_, slow, _) => Amount(slow)
    case RsiThreshold(period, _, _, _) => Amount(period) + 1.0
    case MacdCrossover(_, slow, signal, _) => Amount(slow) + Amount(signal)
    case BollingerBreakout(period, _, _) => Amount(period)
  }

  function LongestWarmup(conditions: seq<Condition>): real
    requires conditions != []
  {
    var first := BaseWarmup(conditions[0].parameters);
    if |conditions| == 1 then first
    else
      var rest := LongestWarmup(conditions[1..]);
      if first < rest then rest else first
  }

  function RequiredWarmupBars(p: StrategyParameters): real
    requires ValidParameters(p)
  {
    match p
    case Base(q) => BaseWarmup(q)
    case Combo(conditions) => LongestWarmup(conditions)
  }

  lemma {:induction false} LongestWarmupIsMax(conditions: seq<Condition>)
    requires conditions != []
    ensures forall i :: 0 <= i < |conditions| ==> BaseWarmup(conditions[i].parameters) <= LongestWarmup(conditions)
    ensures exists i :: 0 <= i < |conditions| && BaseWarmup(conditions[i].parameters) == LongestWarmup(conditions)
  {
    if |conditions| > 1 {
      var rest := conditions[1..];
      LongestWarmupIsMax(rest);
      forall i | 0 <= i < |conditions| ensures BaseWarmup(conditions[i].parameters) <= LongestWarmup(conditions) {
        assert i > 0 ==> conditions[i] == rest[i - 1];
      }
      var j :| 0 <= j < |rest| && BaseWarmup(rest[j].parameters) == LongestWarmup(rest);
      assert conditions[j + 1] == rest[j];
      assert BaseWarmup(conditions[0].parameters) == LongestWarmup(conditions)
             || BaseWarmup(conditions[j + 1].parameters) == LongestWarmup(conditions);
    } else {
      assert BaseWarmup(conditions[0].parameters) == LongestWarmup(conditions);
    }
  }

  /** The bars an indicator takes to warm up: its slow window; its period and one more; its slow and its
      signal period; its period. */
  predicate WarmsUpIn(p: BaseParameters, bars: real) {
    match p
    case SmaCrossover(_, slow, _) => bars == Amount(slow)
    case RsiThreshold(period, _, _, _) => bars == Amount(period) + 1.0
    case MacdCrossover(_, slow, signal, _) => bars == Amount(slow) + Amount(signal)
    case BollingerBreakout(period, _, _) => bars == Amount(period)
  }

  /** A strategy's warm-up is more than one bar and that of its indicator; a combination's is that of its
      slowest condition. */
  lemma WarmupIsMax(p: StrategyParameters)
    requires ValidParameters(p)
    ensures 1.0 < RequiredWarmupBars(p)
    ensures p.Base? ==> WarmsUpIn(p.parameters, RequiredWarmupBars(p))
    ensures p.Combo? ==>
      && (forall c, bars :: c in p.conditions && WarmsUpIn(c.parameters, bars) ==> bars <= RequiredWarmupBars(p))
      && (exists c :: c in p.conditions && WarmsUpIn(c.parameters, RequiredWarmupBars(p)))
  {
    if p.Combo? {
      LongestWarmupIsMax(p.conditions);
      assert ValidCondition(p.conditions[0]);
      var i :| 0 <= i < |p.conditions| && BaseWarmup(p.conditions[i].parameters) == LongestWarmup(p.conditions);
      assert p.conditions[i] in p.conditions;
    }
  }
}
