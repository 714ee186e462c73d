/** Run manifests: the record of everything a run depends on, its canonical form, and reading that
    form back. */
module RunManifests {
  import opened Wrappers
  import opened Text
  import opened Documents

  const CORPORATE_ACTION_TREATMENT := "dataset_as_declared_no_event_adjustment"
  const UNRESOLVED_IDENTIFIER_POLICY := "reject"
  const SIGNAL_TIME := "bar_close"
  const FILL_TIME := "next_bar_open"
  const MISSING_NEXT_BAR_POLICY := "reject"
  const POSITION_SIZING_KIND := "fixed_fraction"
  const NONE_KIND := "none"
  const IGNORE_WITH_WARNING_KIND := "ignore_with_warning"

  const INVALID := "invalid_manifest"
  const UNSUPPORTED := "unsupported_feature"

  // ---- Records ----

  datatype StrategyReference = StrategyReference(strategyId: string, version: int, checksum: string)
  datatype DatasetReference = DatasetReference(datasetId: string, contentChecksum: string)
  datatype Instruments = Instruments(instrumentIds: seq<string>, unresolvedIdentifierPolicy: string)
  datatype TestPeriod = TestPeriod(startDate: Date, endDate: Date, barInterval: string)
  datatype Money = Money(amount: Decimal, currency: string)
  datatype Timing = Timing(signalTime: string, fillTime: string, missingNextBarPolicy: string)
  datatype Sizing = Sizing(fraction: Decimal, kind: string)
  datatype Scales = Scales(quantityIncrement: Decimal, moneyScale: int)
  datatype ExecutionRules = ExecutionRules(sizing: Sizing, rounding: Scales,
    commission: string, tax: string, slippage: string, liquidity: string, priceLimit: string)
  datatype MetricRules = MetricRules(annualizationBasis: int, riskFreeRate: Decimal)
  datatype Engine = Engine(adapterName: string, adapterVersion: string)

  datatype RunManifest = RunManifest(
    runId: string, schemaVersion: int, strategyRef: StrategyReference, datasetRef: DatasetReference,
    universe: Instruments, period: TestPeriod, capital: Money, signalAndFill: Timing,
    corporateActionTreatment: string, execution: ExecutionRules, benchmark: string,
    metrics: MetricRules, engineRef: Engine, createdAtUtc: Instant)

  // ---- What a valid manifest is ----

  predicate Positive(d: Decimal) {
    !d.negative && d.coefficient > 0
  }

  predicate AtMostOne(d: Decimal) {
    d.negative || if d.exponent >= 0 then d.coefficient * Pow10(d.exponent) <= 1
        else d.coefficient <= Pow10(-d.exponent)
  }

  predicate Below(d: Decimal) {
    d.negative && d.coefficient > 0
  }

  predicate Distinct<T(==)>(s: seq<T>) {
    forall i, j :: 0 <= i < j < |s| ==> s[i] != s[j]
  }

  predicate ValidPeriod(p: TestPeriod) {
    ValidDate(p.startDate) && ValidDate(p.endDate) && DateBefore(p.startDate, p.endDate) && !Blank(p.barInterval)
  }

  predicate ValidExecution(e: ExecutionRules) {
    && e.sizing.kind == POSITION_SIZING_KIND && Positive(e.sizing.fraction) && AtMostOne(e.sizing.fraction)
    && Positive(e.rounding.quantityIncrement) && e.rounding.moneyScale >= 0
    && e.commission == NONE_KIND && e.tax == NONE_KIND && e.slippage == NONE_KIND
    && e.liquidity == IGNORE_WITH_WARNING_KIND && e.priceLimit == IGNORE_WITH_WARNING_KIND
  }

  predicate ValidManifest(m: RunManifest) {
    && m.runId != "" && m.schemaVersion == 1
    && m.strategyRef.strategyId != "" && m.strategyRef.version >= 1 && m.strategyRef.checksum != ""
    && m.datasetRef.datasetId != "" && m.datasetRef.contentChecksum != ""
    && m.universe.instrumentIds != [] && Distinct(m.universe.instrumentIds)
    && m.universe.unresolvedIdentifierPolicy == UNRESOLVED_IDENTIFIER_POLICY
    && ValidPeriod(m.period)
    && Positive(m.capital.amount) && !Blank(m.capital.currency)
    && m.signalAndFill == Timing(SIGNAL_TIME, FILL_TIME, MISSING_NEXT_BAR_POLICY)
    && m.corporateActionTreatment == CORPORATE_ACTION_TREATMENT
    && ValidExecution(m.execution)
    && m.benchmark == NONE_KIND
    && m.metrics.annualizationBasis >= 1 && !Below(m.metrics.riskFreeRate)
    && !Blank(m.engineRef.adapterName) && !Blank(m.engineRef.adapterVersion)
    && ValidInstant(m.createdAtUtc)
  }

  // ---- The canonical form ----

  function KindJson(kind: string): Json {
    Object(map[Kind := Text(kind)])
  }

  function StrategyJson(r: StrategyReference): Json {
    Object(map[StrategyId := Text(r.strategyId), Version := Number(r.version), Checksum := Text(r.checksum)])
  }

  function DatasetJson(r: DatasetReference): Json {
    Object(map[DatasetId := Text(r.datasetId), ContentChecksum := Text(r.contentChecksum)])
  }

  function UniverseJson(u: Instruments): Json {
    Object(map[InstrumentIds := TextList(u.instrumentIds),
               UnresolvedIdentifierPolicy := Text(u.unresolvedIdentifierPolicy)])
  }

  function PeriodJson(p: TestPeriod): Json
    requires ValidPeriod(p)
  {
    Object(map[StartDate := Text(PrintDate(p.startDate)), EndDate := Text(PrintDate(p.endDate)),
               BarInterval := Text(p.barInterval)])
  }

  function CapitalJson(c: Money): Json {
    Object(map[Amount := Text(PrintDecimal(c.amount)), Currency := Text(c.currency)])
  }

  function TimingJson(t: Timing): Json {
    Object(map[SignalTime := Text(t.signalTime), FillTime := Text(t.fillTime),
               MissingNextBarPolicy := Text(t.missingNextBarPolicy)])
  }

  function ExecutionJson(e: ExecutionRules): Json {
    Object(map[
      PositionSizing := Object(map[Kind := Text(e.sizing.kind), Fraction := Text(PrintDecimal(e.sizing.fraction))]),
      Commission := KindJson(e.commission), Tax := KindJson(e.tax), Slippage := KindJson(e.slippage),
      Liquidity := KindJson(e.liquidity), PriceLimit := KindJson(e.priceLimit),
      Rounding := Object(map[QuantityIncrement := Text(PrintDecimal(e.rounding.quantityIncrement)),
                             MoneyScale := Number(e.rounding.moneyScale)])])
  }

  function MetricsJson(m: MetricRules): Json {
    Object(map[AnnualizationBasis := Number(m.annualizationBasis), RiskFreeRate := Text(PrintDecimal(m.riskFreeRate))])
  }

  function EngineJson(e: Engine): Json {
    Object(map[AdapterName := Text(e.adapterName), AdapterVersion := Text(e.adapterVersion)])
  }

  function ToCanonical(m: RunManifest): Json
    requires ValidManifest(m)
  {
    Object(map[
      SchemaVersion := Number(m.schemaVersion), RunId := Text(m.runId),
      StrategyRef := StrategyJson(m.strategyRef), DatasetRef := DatasetJson(m.datasetRef),
      Universe := UniverseJson(m.universe), Period := PeriodJson(m.period), Capital := CapitalJson(m.capital),
      SignalAndFill := TimingJson(m.signalAndFill),
      CorporateActionTreatment := Text(m.corporateActionTreatment),
      Execution := ExecutionJson(m.execution), Benchmark := KindJson(m.benchmark),
      Metrics := MetricsJson(m.metrics), Documents.EngineRef := EngineJson(m.engineRef),
      CreatedAtUtc := Text(PrintInstant(m.createdAtUtc))])
  }

  // ---- Reading it back: each record's constructor checks its guards in order ----

  function ReadStrategy(data: Json): Result<StrategyReference, Problem> {
    var _ :- RequireKeys(data, {StrategyId, Version, Checksum});
    var id :- GetText(data, StrategyId);
    var version :- GetNumber(data, Version);
    var checksum :- GetText(data, Checksum);
    var _ :- Require(id != "", INVALID);
    var _ :- Require(version >= 1, INVALID);
    var _ :- Require(checksum != "", INVALID);
    Ok(StrategyReference(id, version, checksum))
  }

  function ReadDataset(data: Json): Result<DatasetReference, Problem> {
    var _ :- RequireKeys(data, {DatasetId, ContentChecksum});
    var id :- GetText(data, DatasetId);
    var checksum :- GetText(data, ContentChecksum);
    var _ :- Require(id != "", INVALID);
    var _ :- Require(checksum != "", INVALID);
    Ok(DatasetReference(id, checksum))
  }

  function ReadUniverse(data: Json): Result<Instruments, Problem> {
    var ids :- GetTexts(data, InstrumentIds);
    var policy :- GetText(data, UnresolvedIdentifierPolicy);
    var _ :- Require(ids != [], "empty_universe");
    var _ :- Require(Distinct(ids), INVALID);
    var _ :- Require(policy == UNRESOLVED_IDENTIFIER_POLICY, UNSUPPORTED);
    Ok(Instruments(ids, policy))
  }

  function ReadPeriod(data: Json): Result<TestPeriod, Problem> {
    var first :- GetDate(data, StartDate);
    var end :- GetDate(data, EndDate);
    var interval :- GetText(data, BarInterval);
    var _ :- Require(DateBefore(first, end), "invalid_period");
    var _ :- Require(!Blank(interval), INVALID);
    Ok(TestPeriod(first, end, interval))
  }

  function ReadCapital(data: Json): Result<Money, Problem> {
    var amount :- GetDecimal(data, Amount);
    var currency :- GetText(data, Currency);
    var _ :- Require(Positive(amount), INVALID);
    var _ :- Require(!Blank(currency), INVALID);
    Ok(Money(amount, currency))
  }

  /** A keyword argument with a default may be absent. */
  function GetTextOr(data: Json, field: Field, default_: string): Result<string, Problem> {
    if data.Object? && field !in data.fields then Ok(default_) else GetText(data, field)
  }

  function ReadTiming(data: Json): Result<Timing, Problem> {
    if !data.Object? then Err(WrongValue)
    else if !(data.fields.Keys <= {SignalTime, FillTime, MissingNextBarPolicy}) then Err(WrongKeys)
    else
      var signal :- GetTextOr(data, SignalTime, SIGNAL_TIME);
      var fill :- GetTextOr(data, FillTime, FILL_TIME);
      var missing :- GetTextOr(data, MissingNextBarPolicy, MISSING_NEXT_BAR_POLICY);
      var _ :- Require(signal == SIGNAL_TIME, UNSUPPORTED);
      var _ :- Require(fill == FILL_TIME, UNSUPPORTED);
      var _ :- Require(missing == MISSING_NEXT_BAR_POLICY, UNSUPPORTED);
      Ok(Timing(signal, fill, missing))
  }

  function ReadKind(data: Json): Result<string, Problem> {
    var _ :- RequireKeys(data, {Kind});
    var kind :- GetText(data, Kind);
    var _ :- Require(!Blank(kind), INVALID);
    Ok(kind)
  }

  function ReadSizing(data: Json): Result<Sizing, Problem> {
    var fraction :- GetDecimal(data, Fraction);
    var kind :- GetText(data, Kind);
    var _ :- Require(kind == POSITION_SIZING_KIND, UNSUPPORTED);
    var _ :- Require(Positive(fraction) && AtMostOne(fraction), INVALID);
    Ok(Sizing(fraction, kind))
  }

  function ReadScales(data: Json): Result<Scales, Problem> {
    var increment :- GetDecimal(data, QuantityIncrement);
    var scale :- GetNumber(data, MoneyScale);
    var _ :- Require(Positive(increment), INVALID);
    var _ :- Require(scale >= 0, INVALID);
    Ok(Scales(increment, scale))
  }

  function ReadKindOf(data: Json, field: Field): Result<string, Problem> {
    var inner :- Get(data, field);
    ReadKind(inner)
  }

  function ReadExecution(data: Json, sizingData: Json, roundingData: Json): Result<ExecutionRules, Problem> {
    var sizing :- ReadSizing(sizingData);
    var commission :- ReadKindOf(data, Commission);
    var tax :- ReadKindOf(data, Tax);
    var slippage :- ReadKindOf(data, Slippage);
    var liquidity :- ReadKindOf(data, Liquidity);
    var priceLimit :- ReadKindOf(data, PriceLimit);
    var rounding :- ReadScales(roundingData);
    var _ :- Require(commission == NONE_KIND, UNSUPPORTED);
    var _ :- Require(tax == NONE_KIND, UNSUPPORTED);
    var _ :- Require(slippage == NONE_KIND, UNSUPPORTED);
    var _ :- Require(liquidity == IGNORE_WITH_WARNING_KIND, UNSUPPORTED);
    var _ :- Require(priceLimit == IGNORE_WITH_WARNING_KIND, UNSUPPORTED);
    Ok(ExecutionRules(sizing, rounding, commission, tax, slippage, liquidity, priceLimit))
  }

  function ReadMetrics(data: Json): Result<MetricRules, Problem> {
    var basis :- GetNumber(data, AnnualizationBasis);
    var rate :- GetDecimal(data, RiskFreeRate);
    var _ :- Require(basis >= 1, INVALID);
    var _ :- Require(!Below(rate), INVALID);
    Ok(MetricRules(basis, rate))
  }

  function ReadEngine(data: Json): Result<Engine, Problem> {
    var _ :- RequireKeys(data, {AdapterName, AdapterVersion});
    var name :- GetText(data, AdapterName);
    var version :- GetText(data, AdapterVersion);
    var _ :- Require(!Blank(name), INVALID);
    var _ :- Require(!Blank(version), INVALID);
    Ok(Engine(name, version))
  }

  /** The nested dictionaries, all fetched before any of them is read. */
  datatype Sections = Sections(strategy: Json, dataset: Json, universe: Json, period: Json, capital: Json,
    timing: Json, execution: Json, metrics: Json, engine: Json, sizing: Json, rounding: Json)

  function FetchSections(data: Json): Result<Sections, Problem> {
    var strategy :- Get(data, StrategyRef);
    var dataset :- Get(data, DatasetRef);
    var universe :- Get(data, Universe);
    var period :- Get(data, Period);
    var capital :- Get(data, Capital);
    var timing :- Get(data, SignalAndFill);
    var execution :- Get(data, Execution);
    var metrics :- Get(data, Metrics);
    var engine :- Get(data, Documents.EngineRef);
    var sizing :- Get(execution, PositionSizing);
    var rounding :- Get(execution, Rounding);
    Ok(Sections(strategy, dataset, universe, period, capital, timing, execution, metrics, engine, sizing, rounding))
  }

  function ParseRunManifest(data: Json): Result<RunManifest, Problem> {
    var sections :- FetchSections(data);
    var runId :- GetText(data, RunId);
    var schemaVersion :- GetNumber(data, SchemaVersion);
    var strategyRef :- ReadStrategy(sections.strategy);
    var datasetRef :- ReadDataset(sections.dataset);
    var universe :- ReadUniverse(sections.universe);
    var period :- ReadPeriod(sections.period);
    var capital :- ReadCapital(sections.capital);
    var timing :- ReadTiming(sections.timing);
    var treatment :- GetText(data, CorporateActionTreatment);
    var execution :- ReadExecution(sections.execution, sections.sizing, sections.rounding);
    var benchmark :- ReadKindOf(data, Benchmark);
    var metrics :- ReadMetrics(sections.metrics);
    var engineRef :- ReadEngine(sections.engine);
    var createdAt :- GetInstant(data, CreatedAtUtc);
    NewRunManifest(RunManifest(runId, schemaVersion, strategyRef, datasetRef, universe, period, capital, timing,
                               treatment, execution, benchmark, metrics, engineRef, createdAt))
  }

  /** The guards on the whole record, after its parts were built. */
  function NewRunManifest(m: RunManifest): Result<RunManifest, Problem> {
    var _ :- Require(m.runId != "", INVALID);
    var _ :- Require(m.schemaVersion == 1, "unsupported_schema_version");
    var _ :- Require(m.corporateActionTreatment == CORPORATE_ACTION_TREATMENT, UNSUPPORTED);
    var _ :- Require(m.benchmark == NONE_KIND, UNSUPPORTED);
    Ok(m)
  }

  // ---- The round trip ----

  /** The same manifest, with every decimal as it reads back. */
  function Plainly(m: RunManifest): RunManifest {
    m.(capital := m.capital.(amount := Plain(m.capital.amount)),
       execution := PlainExecution(m.execution),
       metrics := m.metrics.(riskFreeRate := Plain(m.metrics.riskFreeRate)))
  }

  function PlainExecution(e: ExecutionRules): ExecutionRules {
    e.(sizing := e.sizing.(fraction := Plain(e.sizing.fraction)),
       rounding := e.rounding.(quantityIncrement := Plain(e.rounding.quantityIncrement)))
  }

  /** Decimals compare by value; everything else must be the same. */
  predicate EqualManifests(a: RunManifest, b: RunManifest) {
    && SameNumber(a.capital.amount, b.capital.amount)
    && SameNumber(a.execution.sizing.fraction, b.execution.sizing.fraction)
    && SameNumber(a.execution.rounding.quantityIncrement, b.execution.rounding.quantityIncrement)
    && SameNumber(a.metrics.riskFreeRate, b.metrics.riskFreeRate)
    && a == b.(capital := b.capital.(amount := a.capital.amount),
               execution := b.execution.(
                 sizing := b.execution.sizing.(fraction := a.execution.sizing.fraction),
                 rounding := b.execution.rounding.(quantityIncrement := a.execution.rounding.quantityIncrement)),
               metrics := b.metrics.(riskFreeRate := a.metrics.riskFreeRate))
  }

  lemma PlainKeepsGuards(d: Decimal)
    ensures Positive(Plain(d)) == Positive(d) && AtMostOne(Plain(d)) == AtMostOne(d) && Below(Plain(d)) == Below(d)
  {
    assert Pow10(0) == 1;
    if d.exponent > 0 && d.coefficient > 0 {
      ScaledPositive(d.coefficient, Pow10(d.exponent));
    }
  }

  lemma GetDecimalReads(data: Json, field: Field, d: Decimal)
    requires data.Object? && field in data.fields && data.fields[field] == Text(PrintDecimal(d))
    ensures GetDecimal(data, field) == Ok(Plain(d))
  {
    hide PrintDecimal, ParseDecimal;
    DecimalRoundTrip(d);
  }

  lemma KindReads(data: Json, field: Field, kind: string)
    requires data.Object? && field in data.fields && data.fields[field] == KindJson(kind) && !Blank(kind)
    ensures ReadKindOf(data, field) == Ok(kind)
  {}

  lemma ExecutionReads(e: ExecutionRules)
    requires ValidExecution(e)
    ensures var data := ExecutionJson(e);
      ReadExecution(data, data.fields[PositionSizing], data.fields[Rounding]) == Ok(PlainExecution(e))
  {
    hide PrintDecimal, ParseDecimal, Plain, GetDecimal, Positive, AtMostOne, ReadKindOf;
    var data := ExecutionJson(e);
    NotBlank();
    KindReads(data, Commission, e.commission);
    KindReads(data, Tax, e.tax);
    KindReads(data, Slippage, e.slippage);
    KindReads(data, Liquidity, e.liquidity);
    KindReads(data, PriceLimit, e.priceLimit);
    PlainKeepsGuards(e.sizing.fraction);
    PlainKeepsGuards(e.rounding.quantityIncrement);
    GetDecimalReads(data.fields[PositionSizing], Fraction, e.sizing.fraction);
    GetDecimalReads(data.fields[Rounding], QuantityIncrement, e.rounding.quantityIncrement);
  }

  lemma NotBlank()
    ensures !Blank(NONE_KIND) && !Blank(IGNORE_WITH_WARNING_KIND)
  {
    assert NONE_KIND[0] == 'n' && IGNORE_WITH_WARNING_KIND[0] == 'i';
  }

  lemma PeriodReads(p: TestPeriod)
    requires ValidPeriod(p)
    ensures ReadPeriod(PeriodJson(p)) == Ok(p)
  {
    hide PrintDate, ParseDate;
    DateRoundTrip(p.startDate);
    DateRoundTrip(p.endDate);
  }

  lemma CapitalReads(c: Money)
    requires Positive(c.amount) && !Blank(c.currency)
    ensures ReadCapital(CapitalJson(c)) == Ok(c.(amount := Plain(c.amount)))
  {
    hide PrintDecimal, ParseDecimal, Plain, GetDecimal, Positive;
    PlainKeepsGuards(c.amount);
    GetDecimalReads(CapitalJson(c), Amount, c.amount);
  }

  lemma MetricsRead(m: MetricRules)
    requires m.annualizationBasis >= 1 && !Below(m.riskFreeRate)
    ensures ReadMetrics(MetricsJson(m)) == Ok(m.(riskFreeRate := Plain(m.riskFreeRate)))
  {
    hide PrintDecimal, ParseDecimal, Plain, GetDecimal, Below;
    PlainKeepsGuards(m.riskFreeRate);
    GetDecimalReads(MetricsJson(m), RiskFreeRate, m.riskFreeRate);
  }

  lemma UniverseReads(u: Instruments)
    requires u.instrumentIds != [] && Distinct(u.instrumentIds)
    requires u.unresolvedIdentifierPolicy == UNRESOLVED_IDENTIFIER_POLICY
    ensures ReadUniverse(UniverseJson(u)) == Ok(u)
  {
    TextListReads(UniverseJson(u), InstrumentIds, u.instrumentIds);
  }

  lemma PlainRecordsRead(m: RunManifest)
    requires ValidManifest(m)
    ensures ReadStrategy(StrategyJson(m.strategyRef)) == Ok(m.strategyRef)
    ensures ReadDataset(DatasetJson(m.datasetRef)) == Ok(m.datasetRef)
    ensures ReadTiming(TimingJson(m.signalAndFill)) == Ok(m.signalAndFill)
    ensures ReadEngine(EngineJson(m.engineRef)) == Ok(m.engineRef)
  {}

  lemma SectionsRead(m: RunManifest)
    requires ValidManifest(m)
    ensures FetchSections(ToCanonical(m)) == Ok(Sections(
      StrategyJson(m.strategyRef), DatasetJson(m.datasetRef), UniverseJson(m.universe), PeriodJson(m.period),
      CapitalJson(m.capital), TimingJson(m.signalAndFill), ExecutionJson(m.execution), MetricsJson(m.metrics),
      EngineJson(m.engineRef), ExecutionJson(m.execution).fields[PositionSizing],
          ExecutionJson(m.execution).fields[Rounding]))
  {
    hide ValidExecution, ValidInstant, Positive, Below, Distinct, Blank, KindJson, PrintInstant;
  }

  lemma EntriesRead(m: RunManifest)
    requires ValidManifest(m)
    ensures var data := ToCanonical(m);
      && GetText(data, RunId) == Ok(m.runId)
      && GetNumber(data, SchemaVersion) == Ok(m.schemaVersion)
      && GetText(data, CorporateActionTreatment) == Ok(m.corporateActionTreatment)
      && ReadKindOf(data, Benchmark) == Ok(m.benchmark)
      && GetInstant(data, CreatedAtUtc) == Ok(m.createdAtUtc)
  {
    hide PrintInstant, ParseInstant, ReadKindOf, KindJson;
    hide ValidExecution, ValidInstant, Positive, Below, Distinct;
    InstantRoundTrip(m.createdAtUtc);
    NotBlank();
    KindReads(ToCanonical(m), Benchmark, m.benchmark);
  }

  lemma PlainIsEqual(m: RunManifest)
    ensures EqualManifests(m, Plainly(m))
  {
    hide Plain, SameNumber;
    DecimalRoundTrip(m.capital.amount);
    DecimalRoundTrip(m.execution.sizing.fraction);
    DecimalRoundTrip(m.execution.rounding.quantityIncrement);
    DecimalRoundTrip(m.metrics.riskFreeRate);
  }

  /** Reading the canonical form of a valid manifest gives an equal manifest. */
  lemma ManifestRoundTrip(m: RunManifest)
    requires ValidManifest(m)
    ensures ParseRunManifest(ToCanonical(m)) == Ok(Plainly(m))
    ensures EqualManifests(m, Plainly(m))
  {
    hide ToCanonical, FetchSections, EqualManifests, PlainExecution, GetText, GetNumber, GetInstant;
    hide StrategyJson, DatasetJson, UniverseJson, PeriodJson, CapitalJson, TimingJson, ExecutionJson, MetricsJson,
        EngineJson;
    hide ReadStrategy, ReadDataset, ReadUniverse, ReadPeriod, ReadCapital, ReadTiming, ReadExecution, ReadMetrics,
         ReadEngine, ReadKindOf, Plain;
    SectionsRead(m);
    EntriesRead(m);
    PlainRecordsRead(m);
    UniverseReads(m.universe);
    PeriodReads(m.period);
    CapitalReads(m.capital);
    ExecutionReads(m.execution);
    MetricsRead(m.metrics);
    PlainIsEqual(m);
  }

  /** The canonical form of what was read is the form it was read from, so a checksum over it is stable. */
  lemma CanonicalFormStable(m: RunManifest)
    requires ValidManifest(m)
    ensures ValidManifest(Plainly(m)) && ToCanonical(Plainly(m)) == ToCanonical(m)
  {
    hide PrintDecimal, Plain, Positive, AtMostOne, Below;
    PlainKeepsGuards(m.capital.amount);
    PlainKeepsGuards(m.execution.sizing.fraction);
    PlainKeepsGuards(m.execution.rounding.quantityIncrement);
    PlainKeepsGuards(m.metrics.riskFreeRate);
    DecimalTextStable(m.capital.amount);
    DecimalTextStable(m.execution.sizing.fraction);
    DecimalTextStable(m.execution.rounding.quantityIncrement);
    DecimalTextStable(m.metrics.riskFreeRate);
  }

  lemma OnlyValidRecordsRead(data: Json)
    ensures var r := ReadStrategy(data); r.Ok? ==>
      r.value.strategyId != "" && r.value.version >= 1 && r.value.checksum != ""
    ensures var r := ReadDataset(data); r.Ok? ==> r.value.datasetId != "" && r.value.contentChecksum != ""
    ensures var r := ReadUniverse(data); r.Ok? ==>
      && r.value.instrumentIds != [] && Distinct(r.value.instrumentIds)
      && r.value.unresolvedIdentifierPolicy == UNRESOLVED_IDENTIFIER_POLICY
    ensures var r := ReadCapital(data); r.Ok? ==> Positive(r.value.amount) && !Blank(r.value.currency)
    ensures var r := ReadTiming(data); r.Ok? ==> r.value == Timing(SIGNAL_TIME, FILL_TIME, MISSING_NEXT_BAR_POLICY)
    ensures var r := ReadMetrics(data); r.Ok? ==> r.value.annualizationBasis >= 1 && !Below(r.value.riskFreeRate)
    ensures var r := ReadEngine(data); r.Ok? ==> !Blank(r.value.adapterName) && !Blank(r.value.adapterVersion)
  {
    hide GetText, GetTexts, GetNumber, GetDecimal, GetTextOr, RequireKeys, Positive, Below, Blank, Distinct;
  }

  lemma OnlyRealDatesRead(data: Json, field: Field)
    ensures GetDate(data, field).Ok? ==> ValidDate(GetDate(data, field).value)
    ensures GetInstant(data, field).Ok? ==> ValidInstant(GetInstant(data, field).value)
  {
    hide ParseOffset, ParseDigits, ParseTail;
  }

  lemma OnlyValidPeriodsRead(data: Json)
    ensures ReadPeriod(data).Ok? ==> ValidPeriod(ReadPeriod(data).value)
  {
    hide GetText, GetDate, DateBefore, Blank, ValidDate;
    OnlyRealDatesRead(data, StartDate);
    OnlyRealDatesRead(data, EndDate);
  }

  lemma OnlyValidExecutionRead(data: Json, sizing: Json, rounding: Json)
    ensures var r := ReadExecution(data, sizing, rounding); r.Ok? ==> ValidExecution(r.value)
  {
    hide GetText, GetNumber, GetDecimal, ReadKindOf, Positive, AtMostOne;
  }

  /** Whatever is read is a valid manifest. */
  lemma OnlyValidManifestsRead(data: Json)
    ensures ParseRunManifest(data).Ok? ==> ValidManifest(ParseRunManifest(data).value)
  {
    hide FetchSections, GetText, GetNumber, GetInstant, ReadStrategy, ReadDataset, ReadUniverse, ReadPeriod,
        ReadCapital,
         ReadTiming, ReadExecution, ReadMetrics, ReadEngine, ReadKindOf;
    hide ValidInstant, ValidPeriod, ValidExecution, Positive, Below, Blank, Distinct;
    var fetched := FetchSections(data);
    if fetched.Ok? {
      var s := fetched.value;
      OnlyValidRecordsRead(s.strategy);
      OnlyValidRecordsRead(s.dataset);
      OnlyValidRecordsRead(s.universe);
      OnlyValidRecordsRead(s.capital);
      OnlyValidRecordsRead(s.timing);
      OnlyValidRecordsRead(s.metrics);
      OnlyValidRecordsRead(s.engine);
      OnlyValidPeriodsRead(s.period);
      OnlyValidExecutionRead(s.execution, s.sizing, s.rounding);
      OnlyRealDatesRead(data, CreatedAtUtc);
    }
  }

  /** Two valid manifests have the same canonical form only if they are equal: the form leaves nothing out. */
  lemma CanonicalFormDetermines(a: RunManifest, b: RunManifest)
    requires ValidManifest(a) && ValidManifest(b)
    ensures ToCanonical(a) == ToCanonical(b) <==> Plainly(a) == Plainly(b)
  {
    hide ToCanonical, Plainly, ParseRunManifest;
    ManifestRoundTrip(a);
    ManifestRoundTrip(b);
    CanonicalFormStable(a);
    CanonicalFormStable(b);
  }
}
