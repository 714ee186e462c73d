/** Exactly which dictionaries read as which run manifest, entry by entry, and which code a refusal
    carries. */
module ManifestReading {
  import opened Wrappers
  import opened Exact
  import opened Sequences
  import opened Text
  import opened Documents
  import opened RunManifests

  // ---- The guards on decimals, by value ----

  lemma {:induction false} Pow10Grows(n: nat)
    ensures n > 0 ==> 10 <= Text.Pow10(n)
  {
    if n > 1 {
      Pow10Grows(n - 1);
    } else {
      assert Text.Pow10(0) == 1;
    }
  }

  /** The guards compare the decimal's value with 0 and 1. */
  lemma GuardsCompareValues(d: Text.Decimal)
    ensures Positive(d) <==> 0.0 < ValueOf(d)
    ensures Below(d) <==> ValueOf(d) < 0.0
    ensures AtMostOne(d) <==> ValueOf(d) <= 1.0
  {
    hide Times, Text.Pow10;
    var n, scale := Significand(d) as real, Scale(d.exponent);
    TimesZero(scale);
    if 0.0 < n { TimesMonoStrict(0.0, n, scale); }
    if n < 0.0 { TimesMonoStrict(n, 0.0, scale); }
    if !d.negative {
      if d.exponent >= 0 {
        TimesWhole(d.coefficient, Text.Pow10(d.exponent));
      } else {
        var p := Text.Pow10(-d.exponent) as real;
        OverTimes(1.0, p);
        TimesComm(Over(1.0, p), p);
        assert Scale(d.exponent) == Over(1.0, p);
        if n <= p { TimesMono(n, p, scale); } else { TimesMonoStrict(p, n, scale); }
      }
    }
  }

  // ---- What a dictionary says ----

  /** What is under the key, if anything is. */
  function At(data: Json, field: Field): Json {
    if data.Object? && field in data.fields then data.fields[field] else Null
  }

  predicate HasKeys(data: Json, keys: set<Field>) {
    data.Object? && data.fields.Keys == keys
  }

  predicate SaysDecimal(data: Json, d: Text.Decimal) {
    data.Text? && ParseDecimal(data.text) == Some(d)
  }

  predicate SaysDate(data: Json, d: Date) {
    data.Text? && ParseDate(data.text) == Some(d)
  }

  predicate SaysInstant(data: Json, t: Instant) {
    data.Text? && ParseInstant(data.text) == Some(t)
  }

  predicate SaysKind(data: Json, kind: string) {
    HasKeys(data, {Kind}) && At(data, Kind) == Json.Text(kind)
  }

  predicate SaysStrategy(data: Json, r: StrategyReference) {
    && HasKeys(data, {StrategyId, Version, Checksum}) && At(data, StrategyId) == Json.Text(r.strategyId)
    && At(data, Version) == Number(r.version) && At(data, Checksum) == Json.Text(r.checksum)
  }

  predicate SaysDataset(data: Json, r: DatasetReference) {
    && HasKeys(data, {DatasetId, ContentChecksum})
    && At(data, DatasetId) == Json.Text(r.datasetId) && At(data, ContentChecksum) == Json.Text(r.contentChecksum)
  }

  predicate SaysUniverse(data: Json, u: Instruments) {
    && At(data, InstrumentIds).List? && |At(data, InstrumentIds).items| == |u.instrumentIds|
    && (forall i :: 0 <= i < |u.instrumentIds| ==>
          At(data, InstrumentIds).items[i] == Json.Text(u.instrumentIds[i]))
    && At(data, UnresolvedIdentifierPolicy) == Json.Text(u.unresolvedIdentifierPolicy)
  }

  predicate SaysPeriod(data: Json, p: TestPeriod) {
    && SaysDate(At(data, StartDate), p.startDate) && SaysDate(At(data, EndDate), p.endDate)
    && At(data, BarInterval) == Json.Text(p.barInterval)
  }

  predicate SaysCapital(data: Json, c: Money) {
    SaysDecimal(At(data, Amount), c.amount) && At(data, Currency) == Json.Text(c.currency)
  }

  /** Each of the three policies may be left out, and is then the only one there is. */
  predicate SaysTiming(data: Json, t: Timing) {
    && data.Object? && data.fields.Keys <= {SignalTime, FillTime, MissingNextBarPolicy}
    && t == Timing("bar_close", "next_bar_open", "reject")
    && (SignalTime in data.fields ==> data.fields[SignalTime] == Json.Text(t.signalTime))
    && (FillTime in data.fields ==> data.fields[FillTime] == Json.Text(t.fillTime))
    && (MissingNextBarPolicy in data.fields ==>
          data.fields[MissingNextBarPolicy] == Json.Text(t.missingNextBarPolicy))
  }

  predicate SaysExecution(data: Json, e: ExecutionRules) {
    && SaysDecimal(At(At(data, PositionSizing), Fraction), e.sizing.fraction)
    && At(At(data, PositionSizing), Kind) == Json.Text(e.sizing.kind)
    && SaysKind(At(data, Commission), e.commission) && SaysKind(At(data, Tax), e.tax)
    && SaysKind(At(data, Slippage), e.slippage) && SaysKind(At(data, Liquidity), e.liquidity)
    && SaysKind(At(data, PriceLimit), e.priceLimit)
    && SaysDecimal(At(At(data, Rounding), QuantityIncrement), e.rounding.quantityIncrement)
    && At(At(data, Rounding), MoneyScale) == Number(e.rounding.moneyScale)
  }

  predicate SaysMetrics(data: Json, m: MetricRules) {
    At(data, AnnualizationBasis) == Number(m.annualizationBasis) && SaysDecimal(At(data, RiskFreeRate), m.riskFreeRate)
  }

  predicate SaysEngine(data: Json, e: RunManifests.Engine) {
    && HasKeys(data, {AdapterName, AdapterVersion})
    && At(data, AdapterName) == Json.Text(e.adapterName) && At(data, AdapterVersion) == Json.Text(e.adapterVersion)
  }

  /** The dictionary says this manifest, entry by entry. */
  predicate Says(data: Json, m: RunManifest) {
    && At(data, RunId) == Json.Text(m.runId) && At(data, SchemaVersion) == Number(m.schemaVersion)
    && SaysStrategy(At(data, StrategyRef), m.strategyRef) && SaysDataset(At(data, DatasetRef), m.datasetRef)
    && SaysUniverse(At(data, Universe), m.universe) && SaysPeriod(At(data, Period), m.period)
    && SaysCapital(At(data, Capital), m.capital) && SaysTiming(At(data, SignalAndFill), m.signalAndFill)
    && At(data, CorporateActionTreatment) == Json.Text(m.corporateActionTreatment)
    && SaysExecution(At(data, Execution), m.execution) && SaysKind(At(data, Benchmark), m.benchmark)
    && SaysMetrics(At(data, Documents.Metrics), m.metrics) && SaysEngine(At(data, EngineRef), m.engineRef)
    && SaysInstant(At(data, CreatedAtUtc), m.createdAtUtc)
  }

  // ---- Record by record ----

  lemma DecimalsRead(data: Json, field: Field, d: Text.Decimal)
    ensures GetDecimal(data, field) == Ok(d) <==> SaysDecimal(At(data, field), d)
  {
    hide ParseDecimal;
  }

  lemma DatesRead(data: Json, field: Field, d: Date)
    ensures GetDate(data, field) == Ok(d) <==> SaysDate(At(data, field), d)
  {
    hide ParseDate;
  }

  lemma InstantsRead(data: Json, field: Field, t: Instant)
    ensures GetInstant(data, field) == Ok(t) <==> SaysInstant(At(data, field), t)
  {
    hide ParseInstant;
  }

  lemma TextsRead(data: Json, field: Field, texts: seq<string>)
    ensures GetTexts(data, field) == Ok(texts) <==>
      At(data, field).List? && |At(data, field).items| == |texts|
      && forall i :: 0 <= i < |texts| ==> At(data, field).items[i] == Json.Text(texts[i])
  {
    var value := At(data, field);
    if value.List? && (forall i :: 0 <= i < |value.items| ==> value.items[i].Text?) {
      var read := GetTexts(data, field).value;
      assert |read| == |value.items| && forall i :: 0 <= i < |read| ==> read[i] == value.items[i].text;
      if |read| == |texts| && forall i :: 0 <= i < |texts| ==> value.items[i] == Json.Text(texts[i]) {
        assert read == texts;
      }
    }
  }

  lemma ReferencesReadIff(strategy: Json, s: StrategyReference, dataset: Json, d: DatasetReference)
    ensures ReadStrategy(strategy) == Ok(s) <==>
      SaysStrategy(strategy, s) && s.strategyId != "" && s.version >= 1 && s.checksum != ""
    ensures ReadDataset(dataset) == Ok(d) <==> SaysDataset(dataset, d) && d.datasetId != "" && d.contentChecksum != ""
  {}

  lemma UniverseReadIff(data: Json, u: Instruments)
    ensures ReadUniverse(data) == Ok(u) <==>
      && SaysUniverse(data, u) && u.instrumentIds != [] && Distinct(u.instrumentIds)
      && u.unresolvedIdentifierPolicy == "reject"
  {
    hide GetTexts, Distinct;
    TextsRead(data, InstrumentIds, u.instrumentIds);
  }

  lemma PeriodReadIff(data: Json, p: TestPeriod)
    ensures ReadPeriod(data) == Ok(p) <==> SaysPeriod(data, p) && ValidPeriod(p)
  {
    hide GetDate, DateBefore, Blank, ValidDate, SaysDate;
    DatesRead(data, StartDate, p.startDate);
    DatesRead(data, EndDate, p.endDate);
    OnlyRealDatesRead(data, StartDate);
    OnlyRealDatesRead(data, EndDate);
  }

  lemma CapitalReadIff(data: Json, c: Money)
    ensures ReadCapital(data) == Ok(c) <==> SaysCapital(data, c) && Positive(c.amount) && !Blank(c.currency)
  {
    hide GetDecimal, SaysDecimal, Positive, Blank;
    DecimalsRead(data, Amount, c.amount);
  }

  lemma TimingReadIff(data: Json, t: Timing)
    ensures ReadTiming(data) == Ok(t) <==> SaysTiming(data, t)
  {}

  lemma KindsReadIff(data: Json, field: Field, kind: string)
    ensures ReadKindOf(data, field) == Ok(kind) <==> SaysKind(At(data, field), kind) && !Blank(kind)
  {
    hide Blank;
  }

  lemma ExecutionReadIff(data: Json, e: ExecutionRules)
    ensures ReadExecution(data, At(data, PositionSizing), At(data, Rounding)) == Ok(e) <==>
      SaysExecution(data, e) && ValidExecution(e)
  {
    hide GetDecimal, SaysDecimal, Positive, AtMostOne, ReadKindOf, SaysKind, Blank;
    DecimalsRead(At(data, PositionSizing), Fraction, e.sizing.fraction);
    DecimalsRead(At(data, Rounding), QuantityIncrement, e.rounding.quantityIncrement);
    KindsReadIff(data, Commission, e.commission);
    KindsReadIff(data, Tax, e.tax);
    KindsReadIff(data, Slippage, e.slippage);
    KindsReadIff(data, Liquidity, e.liquidity);
    KindsReadIff(data, PriceLimit, e.priceLimit);
    NotBlank();
  }

  lemma MetricsReadIff(data: Json, m: MetricRules)
    ensures ReadMetrics(data) == Ok(m) <==> SaysMetrics(data, m) && m.annualizationBasis >= 1 && !Below(m.riskFreeRate)
  {
    hide GetDecimal, SaysDecimal, Below;
    DecimalsRead(data, RiskFreeRate, m.riskFreeRate);
  }

  lemma EngineReadIff(data: Json, e: RunManifests.Engine)
    ensures ReadEngine(data) == Ok(e) <==>
      SaysEngine(data, e) && !Blank(e.adapterName) && !Blank(e.adapterVersion)
  {
    hide Blank;
  }

  lemma SectionsFetchedIff(data: Json)
    ensures FetchSections(data).Ok? ==> FetchSections(data).value == Sections(
      At(data, StrategyRef), At(data, DatasetRef), At(data, Universe), At(data, Period), At(data, Capital),
      At(data, SignalAndFill), At(data, Execution), At(data, Documents.Metrics), At(data, EngineRef),
      At(At(data, Execution), PositionSizing), At(At(data, Execution), Rounding))
    ensures forall m :: Says(data, m) ==> FetchSections(data).Ok?
  {
    hide SaysDecimal, SaysDate, SaysInstant;
  }

  /** A dictionary reads as a manifest exactly when it says it, entry by entry, and the manifest is valid:
      what else the dictionary holds does not matter, except where the keys must be just these. */
  lemma ManifestReadIff(data: Json, m: RunManifest)
    ensures ParseRunManifest(data) == Ok(m) <==> Says(data, m) && ValidManifest(m)
  {
    hide FetchSections, ReadStrategy, ReadDataset, ReadUniverse, ReadPeriod, ReadCapital, ReadTiming, ReadExecution,
         ReadMetrics, ReadEngine, ReadKindOf, GetInstant, Positive, Below, Blank, Distinct, ValidInstant, ValidPeriod,
         ValidExecution, SaysStrategy, SaysDataset, SaysUniverse, SaysPeriod, SaysCapital, SaysTiming, SaysExecution,
         SaysMetrics, SaysEngine, SaysKind, SaysInstant;
    SectionsFetchedIff(data);
    ReferencesReadIff(At(data, StrategyRef), m.strategyRef, At(data, DatasetRef), m.datasetRef);
    UniverseReadIff(At(data, Universe), m.universe);
    PeriodReadIff(At(data, Period), m.period);
    CapitalReadIff(At(data, Capital), m.capital);
    TimingReadIff(At(data, SignalAndFill), m.signalAndFill);
    ExecutionReadIff(At(data, Execution), m.execution);
    KindsReadIff(data, Benchmark, m.benchmark);
    MetricsReadIff(At(data, Documents.Metrics), m.metrics);
    EngineReadIff(At(data, EngineRef), m.engineRef);
    InstantsRead(data, CreatedAtUtc, m.createdAtUtc);
    OnlyRealDatesRead(data, CreatedAtUtc);
    TimingSaid(At(data, SignalAndFill), m.signalAndFill);
    NotBlank();
  }

  lemma TimingSaid(data: Json, t: Timing)
    ensures SaysTiming(data, t) ==> t == Timing("bar_close", "next_bar_open", "reject")
  {}

  /** So the canonical form of a valid manifest says that manifest, its decimals as they read back. */
  lemma CanonicalFormSays(m: RunManifest)
    requires ValidManifest(m)
    ensures Says(RunManifests.ToCanonical(m), Plainly(m))
  {
    hide Says, ParseRunManifest, RunManifests.ToCanonical, Plainly;
    ManifestRoundTrip(m);
    ManifestReadIff(RunManifests.ToCanonical(m), Plainly(m));
  }

  /** And nothing is left out of it: every section has all of its keys, and no others. */
  lemma CanonicalFormIsComplete(m: RunManifest)
    requires ValidManifest(m)
    ensures var data := RunManifests.ToCanonical(m); var execution := At(data, Execution);
      && HasKeys(data, {SchemaVersion, RunId, StrategyRef, DatasetRef, Universe, Period, Capital, SignalAndFill,
                        CorporateActionTreatment, Execution, Benchmark, Documents.Metrics, EngineRef, CreatedAtUtc})
      && HasKeys(At(data, Universe), {InstrumentIds, UnresolvedIdentifierPolicy})
      && HasKeys(At(data, Period), {StartDate, EndDate, BarInterval})
      && HasKeys(At(data, Capital), {Amount, Currency})
      && HasKeys(At(data, SignalAndFill), {SignalTime, FillTime, MissingNextBarPolicy})
      && HasKeys(At(data, Documents.Metrics), {AnnualizationBasis, RiskFreeRate})
      && HasKeys(execution, {PositionSizing, Commission, Tax, Slippage, Liquidity, PriceLimit, Rounding})
      && HasKeys(At(execution, PositionSizing), {Kind, Fraction})
      && HasKeys(At(execution, Rounding), {QuantityIncrement, MoneyScale})
  {
    hide *;
    SectionsRead(m);
    SectionsFetchedIff(RunManifests.ToCanonical(m));
    TopLevelKeys(m);
    PeriodIsValid(m);
    SectionKeys(m);
  }

  lemma PeriodIsValid(m: RunManifest)
    requires ValidManifest(m)
    ensures ValidPeriod(m.period)
  {}

  lemma SectionKeys(m: RunManifest)
    requires ValidPeriod(m.period)
    ensures HasKeys(UniverseJson(m.universe), {InstrumentIds, UnresolvedIdentifierPolicy})
    ensures HasKeys(PeriodJson(m.period), {StartDate, EndDate, BarInterval})
    ensures HasKeys(CapitalJson(m.capital), {Amount, Currency})
    ensures HasKeys(TimingJson(m.signalAndFill), {SignalTime, FillTime, MissingNextBarPolicy})
    ensures HasKeys(MetricsJson(m.metrics), {AnnualizationBasis, RiskFreeRate})
    ensures HasKeys(ExecutionJson(m.execution),
                    {PositionSizing, Commission, Tax, Slippage, Liquidity, PriceLimit, Rounding})
    ensures HasKeys(At(ExecutionJson(m.execution), PositionSizing), {Kind, Fraction})
    ensures HasKeys(At(ExecutionJson(m.execution), Rounding), {QuantityIncrement, MoneyScale})
  {
    hide PrintDecimal, PrintDate, ValidPeriod, KindJson, TextList;
  }

  lemma TopLevelKeys(m: RunManifest)
    requires ValidManifest(m)
    ensures HasKeys(RunManifests.ToCanonical(m),
                    {SchemaVersion, RunId, StrategyRef, DatasetRef, Universe, Period, Capital, SignalAndFill,
                     CorporateActionTreatment, Execution, Benchmark, Documents.Metrics, EngineRef, CreatedAtUtc})
  {
    hide StrategyJson, DatasetJson, UniverseJson, PeriodJson, CapitalJson, TimingJson, ExecutionJson, MetricsJson,
         EngineJson, KindJson, PrintInstant, ValidExecution, ValidInstant, Positive, Below, Distinct, Blank;
  }

  // ---- Refusals ----

  /** Identifiers are distinct when there are as many of them as entries. */
  lemma DistinctIffCounted(ids: seq<string>)
    ensures Distinct(ids) <==> |set x | x in ids| == |ids|
  {
    DistinctCounted(ids);
  }

  predicate RefusedAs<T>(r: Result<T, Problem>, code: string) {
    r.Err? && r.error.Refused? ==> r.error.code == code
  }

  lemma RecordsRefused(data: Json)
    ensures RefusedAs(ReadStrategy(data), "invalid_manifest") && RefusedAs(ReadDataset(data), "invalid_manifest")
    ensures RefusedAs(ReadCapital(data), "invalid_manifest") && RefusedAs(ReadScales(data), "invalid_manifest")
    ensures RefusedAs(ReadMetrics(data), "invalid_manifest") && RefusedAs(ReadEngine(data), "invalid_manifest")
    ensures RefusedAs(ReadKind(data), "invalid_manifest") && RefusedAs(ReadTiming(data), "unsupported_feature")
    ensures !data.Object? ==> ReadTiming(data) == Err(WrongValue)
    ensures data.Object? && !(data.fields.Keys <= {SignalTime, FillTime, MissingNextBarPolicy}) ==>
      ReadTiming(data) == Err(WrongKeys)
  {
    hide ParseDecimal, Positive, AtMostOne, Below, Blank;
  }

  /** The code of a refusal says which kind of guard failed. */
  lemma RefusalCodes(data: Json, m: RunManifest)
    ensures var ids := GetTexts(data, InstrumentIds);
      RefusedAs(ReadUniverse(data), if ids == Ok([]) then "empty_universe"
                                    else if ids.Ok? && Distinct(ids.value) then "unsupported_feature"
                                    else "invalid_manifest")
    ensures var first, end := GetDate(data, StartDate), GetDate(data, EndDate);
      RefusedAs(ReadPeriod(data), if first.Ok? && end.Ok? && !DateBefore(first.value, end.value) then "invalid_period"
                                  else "invalid_manifest")
    ensures RefusedAs(ReadSizing(data), if GetText(data, Kind) == Ok("fixed_fraction") then "invalid_manifest"
                                        else "unsupported_feature")
    ensures RefusedAs(NewRunManifest(m), if m.runId == "" then "invalid_manifest"
                                         else if m.schemaVersion != 1 then "unsupported_schema_version"
                                         else "unsupported_feature")
  {
    hide ParseDecimal, ParseDate, Positive, AtMostOne, Below, Blank, DateBefore, Distinct;
  }
}
