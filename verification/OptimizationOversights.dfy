/** Requests that creation accepts although no run of some period can be created: what creation does
    not look at, with inputs. */
module OptimizationOversights {
  import opened Wrappers
  import opened Optimization
  import opened BarStore
  import opened OptimizationRun
  import opened OptimizationFeasibility
  import Domain

  /** Four ways to spoil an accepted request that creation does not notice: a dataset without coverage
      or without a checksum, a negative money scale, an empty currency. It is accepted all the same,
      and no run of it can be created. */
  lemma CreationOverlooks(env: Env, column: Column, db: Database, r: Request, nextId: Id, w: Windows,
                          start: int, end: int, id: Id)
    requires Create(column, db, r, nextId).Ok?
    ensures var bare := db.(datasets := db.datasets[r.datasetId := Dataset(None, None, None)]);
      && Create(column, bare, r, nextId) == Create(column, db, r, nextId)
      && RunPeriod(env, bare, Create(column, db, r, nextId).value.row.manifest, w, start, end, id).PeriodRaised?
    ensures var unsigned :=
        db.(datasets := db.datasets[r.datasetId := db.datasets[r.datasetId].(contentChecksum := None)]);
      && Create(column, unsigned, r, nextId) == Create(column, db, r, nextId)
      && RunPeriod(env, unsigned, Create(column, db, r, nextId).value.row.manifest, w, start, end, id).PeriodRaised?
    ensures var negative := r.(policy := r.policy.(moneyScale := -1));
      && Create(column, db, negative, nextId).Ok?
      && RunPeriod(env, db, Create(column, db, negative, nextId).value.row.manifest, w, start, end, id).PeriodRaised?
    ensures var nameless := r.(policy := r.policy.(currency := ""));
      && Create(column, db, nameless, nextId).Ok?
      && RunPeriod(env, db, Create(column, db, nameless, nextId).value.row.manifest, w, start, end, id).PeriodRaised?
  {
    hide CanonicalizeGrid, LargestSlow, GetSnapshot, ExecutePeriod;
    SameSnapshots(db, r.datasetId, Dataset(None, None, None), r);
    SameSnapshots(db, r.datasetId, db.datasets[r.datasetId].(contentChecksum := None), r);
  }

  lemma SameSnapshots(db: Database, datasetId: Id, d: Dataset, r: Request)
    ensures var other := db.(datasets := db.datasets[datasetId := d]);
      forall start: int, end: int, largest: int ::
        CheckCoverage(other, r, start, end, largest) == CheckCoverage(db, r, start, end, largest)
  {}

  // ---- A period outside the declared coverage ----

  /** A period that ends later resolves to the same mapping: what is added takes effect later. */
  lemma {:induction false} LongerResolvesAlike(mappings: seq<Mapping>, datasetId: Id, instrumentId: Id,
                                               start: int, end: int, later: int)
    requires end <= later
    ensures var first := FirstMapping(mappings, datasetId, instrumentId, start, end);
      var longer := FirstMapping(mappings, datasetId, instrumentId, start, later);
      if first.Some? then longer == first && first.value.effectiveFrom <= end
      else longer.Some? ==> end < longer.value.effectiveFrom
  {
    if mappings != [] {
      LongerResolvesAlike(mappings[1..], datasetId, instrumentId, start, end, later);
    }
  }

  lemma {:induction false} LongerSelectsMore(rows: seq<BarRow>, datasetId: Id, source: string,
                                             lo: int, hi: int, later: int)
    requires hi <= later
    ensures |Select(rows, datasetId, source, lo, hi)| <= |Select(rows, datasetId, source, lo, later)|
  {
    if rows != [] {
      LongerSelectsMore(rows[1..], datasetId, source, lo, hi, later);
    }
  }

  lemma {:induction false} OrderKeepsCount(bars: seq<Domain.Bar>)
    ensures |OrderByTime(bars)| == |bars|
  {
    if bars != [] {
      OrderKeepsCount(bars[1..]);
      InsertAddsOne(bars[0], OrderByTime(bars[1..]));
    }
  }

  lemma {:induction false} InsertAddsOne(b: Domain.Bar, sorted: seq<Domain.Bar>)
    ensures |Insert(b, sorted)| == |sorted| + 1
  {
    if sorted != [] && sorted[0].timestamp < b.timestamp {
      InsertAddsOne(b, sorted[1..]);
    }
  }

  lemma LongerHoldsMore(db: Database, datasetId: Id, instrumentId: Id, start: int, end: int, later: int)
    requires end <= later
    ensures var s := GetSnapshot(db, datasetId, instrumentId, start, end);
      var longer := GetSnapshot(db, datasetId, instrumentId, start, later);
      s.Some? ==> longer.Some? && |s.value| <= |longer.value|
  {
    LongerResolvesAlike(db.mappings, datasetId, instrumentId, start, end, later);
    var m := FirstMapping(db.mappings, datasetId, instrumentId, start, end);
    if m.Some? {
      var lo, hi, hiLater := Midnight(start), Midnight(end + 1), Midnight(later + 1);
      LongerSelectsMore(db.bars, datasetId, m.value.source, lo, hi, hiLater);
      OrderKeepsCount(Select(db.bars, datasetId, m.value.source, lo, hi));
      OrderKeepsCount(Select(db.bars, datasetId, m.value.source, lo, hiLater));
    }
  }

  /** The same request with a holdout that ends later. */
  function Prolonged(r: Request, later: int): Request {
    r.(partitions := r.partitions.(holdoutEnd := later))
  }

  /** An accepted request stays accepted however far its holdout is prolonged; but beyond the declared
      coverage no run of the holdout can be created. */
  lemma ProlongedHoldoutOverlooked(env: Env, column: Column, db: Database, r: Request, nextId: Id, later: int,
                                   w: Windows, id: Id)
    requires Create(column, db, r, nextId).Ok? && r.partitions.holdoutEnd <= later
    ensures Create(column, db, Prolonged(r, later), nextId).Ok?
    ensures var m := Create(column, db, Prolonged(r, later), nextId).value.row.manifest;
      var covered := db.datasets[r.datasetId].coverageEnd;
      covered.Some? && covered.value < later ==>
        RunPeriod(env, db, m, w, m.partitions.holdoutStart, m.partitions.holdoutEnd, id)
        == PeriodRaised(None, PeriodOutOfCoverage, id)
  {
    hide CanonicalizeGrid, LargestSlow, GetSnapshot, ExecutePeriod;
    LongerHoldsMore(db, r.datasetId, r.instrumentId, r.partitions.holdoutStart, r.partitions.holdoutEnd, later);
  }

  // ---- A period of one day ----

  /** One bar a second, from midnight on. */
  function Day(datasetId: Id, source: string, day: int, n: nat): seq<BarRow> {
    seq(n, i requires 0 <= i < n => BarRow(datasetId, source, Domain.Bar(Midnight(day) + i, 1.0, 1.0, 1.0, 1.0, 1)))
  }

  lemma {:induction false} SelectConcat(a: seq<BarRow>, b: seq<BarRow>, datasetId: Id, source: string, lo: int, hi: int)
    ensures Select(a + b, datasetId, source, lo, hi)
            == Select(a, datasetId, source, lo, hi) + Select(b, datasetId, source, lo, hi)
  {
    if a == [] {
      assert a + b == b;
    } else {
      SelectConcat(a[1..], b, datasetId, source, lo, hi);
      assert (a + b)[1..] == a[1..] + b;
    }
  }

  lemma {:induction false} SelectAll(rows: seq<BarRow>, datasetId: Id, source: string, lo: int, hi: int)
    requires forall i :: 0 <= i < |rows| ==> InRange(rows[i], datasetId, source, lo, hi)
    ensures |Select(rows, datasetId, source, lo, hi)| == |rows|
  {
    if rows != [] {
      SelectAll(rows[1..], datasetId, source, lo, hi);
    }
  }

  /** The database with three days of bars for one instrument. */
  function ThreeDays(db: Database, r: Request, source: string, n: nat): Database {
    db.(mappings := [Mapping(r.datasetId, source, r.instrumentId, 0, None, source)],
        bars := Day(r.datasetId, source, 0, n) + Day(r.datasetId, source, 1, n) + Day(r.datasetId, source, 2, n))
  }

  lemma DaySnapshot(db: Database, r: Request, source: string, n: nat, day: int)
    requires n <= SECONDS_PER_DAY && 0 <= day <= 2
    ensures var s := GetSnapshot(ThreeDays(db, r, source, n), r.datasetId, r.instrumentId, day, day);
      s.Some? && n <= |s.value|
  {
    var lo, hi := Midnight(day), Midnight(day + 1);
    var d0, d1, d2 := Day(r.datasetId, source, 0, n), Day(r.datasetId, source, 1, n), Day(r.datasetId, source, 2, n);
    SelectConcat(d0 + d1, d2, r.datasetId, source, lo, hi);
    SelectConcat(d0, d1, r.datasetId, source, lo, hi);
    SelectAll(Day(r.datasetId, source, day, n), r.datasetId, source, lo, hi);
    OrderKeepsCount(Select(d0 + d1 + d2, r.datasetId, source, lo, hi));
    OnlyMapping(ThreeDays(db, r, source, n), r, day);
  }

  lemma OnlyMapping(db: Database, r: Request, day: int)
    requires |db.mappings| == 1 && Applies(db.mappings[0], r.datasetId, r.instrumentId, day, day)
    ensures FirstMapping(db.mappings, r.datasetId, r.instrumentId, day, day) == Some(db.mappings[0])
  {
    assert FirstMapping([], r.datasetId, r.instrumentId, day, day) == None;
    assert db.mappings[1..] == [];
  }

  const ONE_DAY_EACH := Partitions(0, 0, 1, 1, 2, 2)

  /** Partitions of one day each are accepted when the days hold enough bars; but no run of a one-day
      period can be created. */
  lemma OneDayOverlooked(env: Env, column: Column, db: Database, r: Request, nextId: Id, source: string, w: Windows,
                         start: int, end: int, id: Id)
    requires Create(column, db, r, nextId).Ok?
    requires forall x :: x in r.slows ==> x + 2 <= SECONDS_PER_DAY
    requires IsPartition(ONE_DAY_EACH, start, end)
    ensures var busy, daily := ThreeDays(db, r, source, SECONDS_PER_DAY), r.(partitions := ONE_DAY_EACH);
      && Create(column, busy, daily, nextId).Ok?
      && RunPeriod(env, busy, Create(column, busy, daily, nextId).value.row.manifest, w, start, end, id).PeriodRaised?
  {
    hide CanonicalizeGrid, GetSnapshot, ExecutePeriod, ThreeDays, ValidPairs;
    var busy := ThreeDays(db, r, source, SECONDS_PER_DAY);
    SameBut(db, r, source, SECONDS_PER_DAY);
    DaySnapshot(db, r, source, SECONDS_PER_DAY, 0);
    DaySnapshot(db, r, source, SECONDS_PER_DAY, 1);
    DaySnapshot(db, r, source, SECONDS_PER_DAY, 2);
    LargestSlowIsDeclared(r.fasts, r.slows);
  }

  lemma SameBut(db: Database, r: Request, source: string, n: nat)
    ensures ThreeDays(db, r, source, n).datasets == db.datasets
    ensures ThreeDays(db, r, source, n).instruments == db.instruments
  {}

  lemma LargestSlowIsDeclared(fasts: seq<int>, slows: seq<int>)
    requires ValidGrid(fasts, slows)
    ensures LargestSlow(ValidPairs(CanonicalizeGrid(fasts, slows)), slows) in slows
  {
    hide CanonicalizeGrid, ValidPairs;
    var valid := ValidPairs(CanonicalizeGrid(fasts, slows));
    ValidPairsAreListed(CanonicalizeGrid(fasts, slows));
    GridIsSortedProduct(fasts, slows);
    if valid == [] {
      MaxOfIsMax(slows);
    } else {
      MaxOfIsMax(Slows(valid));
      var k :| 0 <= k < |valid| && Slows(valid)[k] == MaxOf(Slows(valid));
      assert valid[k] in valid;
    }
  }
}
