/** The market-data tables and the one query the engine is fed from. Dates are day numbers; a date
    stands for its midnight when it is compared with a timestamp. */
module BarStore {
  import opened Wrappers
  import opened Domain

  type Id = nat

  const SECONDS_PER_DAY := 86400

  function Midnight(day: int): int {
    day * SECONDS_PER_DAY
  }

  datatype Mapping = Mapping(datasetId: Id, source: string, instrumentId: Id,
                             effectiveFrom: int, effectiveTo: Option<int>, decisionSource: string)

  datatype BarRow = BarRow(datasetId: Id, source: string, bar: Bar)

  /** The coverage a dataset declares and the checksum of its content: all of them may be missing. */
  datatype Dataset = Dataset(coverageStart: Option<int>, coverageEnd: Option<int>, contentChecksum: Option<string>)

  /** The checksum is there and not empty. */
  predicate Signed(d: Dataset) {
    d.contentChecksum.Some? && d.contentChecksum.value != ""
  }

  datatype Database = Database(datasets: map<Id, Dataset>, instruments: set<Id>,
                               mappings: seq<Mapping>, bars: seq<BarRow>)

  predicate Applies(m: Mapping, datasetId: Id, instrumentId: Id, start: int, end: int) {
    && m.datasetId == datasetId && m.instrumentId == instrumentId
    && m.effectiveFrom <= end
    && (m.effectiveTo.None? || start <= m.effectiveTo.value)
  }

  /** The applicable mapping that takes effect first. */
  function FirstMapping(mappings: seq<Mapping>, datasetId: Id, instrumentId: Id, start: int, end: int)
    : Option<Mapping>
  {
    if mappings == [] then None
    else
      var rest := FirstMapping(mappings[1..], datasetId, instrumentId, start, end);
      if !Applies(mappings[0], datasetId, instrumentId, start, end) then rest
      else if rest.Some? && rest.value.effectiveFrom < mappings[0].effectiveFrom then rest
      else Some(mappings[0])
  }

  predicate InRange(r: BarRow, datasetId: Id, source: string, lo: int, hi: int) {
    r.datasetId == datasetId && r.source == source && lo <= r.bar.timestamp < hi
  }

  function Select(rows: seq<BarRow>, datasetId: Id, source: string, lo: int, hi: int): seq<Bar> {
    if rows == [] then []
    else if InRange(rows[0], datasetId, source, lo, hi)
        then [rows[0].bar] + Select(rows[1..], datasetId, source, lo, hi)
    else Select(rows[1..], datasetId, source, lo, hi)
  }

  function Insert(b: Bar, sorted: seq<Bar>): seq<Bar> {
    if sorted == [] || b.timestamp <= sorted[0].timestamp then [b] + sorted
    else [sorted[0]] + Insert(b, sorted[1..])
  }

  function OrderByTime(bars: seq<Bar>): seq<Bar> {
    if bars == [] then [] else Insert(bars[0], OrderByTime(bars[1..]))
  }

  /** The bars of an instrument from `start` to `end`, both days included, in time order; `None` when
      no mapping resolves the instrument. */
  function GetSnapshot(db: Database, datasetId: Id, instrumentId: Id, start: int, end: int): Option<seq<Bar>> {
    match FirstMapping(db.mappings, datasetId, instrumentId, start, end)
    case None => None
    case Some(m) => Some(OrderByTime(Select(db.bars, datasetId, m.source, Midnight(start), Midnight(end + 1))))
  }

  // ---- What the query returns ----

  lemma {:induction false} InsertKeeps(b: Bar, sorted: seq<Bar>)
    ensures multiset(Insert(b, sorted)) == multiset(sorted) + multiset{b}
  {
    if sorted != [] && sorted[0].timestamp < b.timestamp {
      InsertKeeps(b, sorted[1..]);
      assert sorted == [sorted[0]] + sorted[1..];
    }
  }

  lemma InsertMembers(b: Bar, sorted: seq<Bar>)
    ensures forall c :: c in Insert(b, sorted) <==> c == b || c in sorted
  {
    InsertKeeps(b, sorted);
    forall c ensures c in Insert(b, sorted) <==> c == b || c in sorted {
      assert c in Insert(b, sorted) <==> c in multiset(Insert(b, sorted));
      assert c in sorted <==> c in multiset(sorted);
    }
  }

  lemma {:induction false} InsertSorts(b: Bar, sorted: seq<Bar>)
    requires NonDecreasing(sorted)
    ensures NonDecreasing(Insert(b, sorted))
  {
    if sorted != [] && sorted[0].timestamp < b.timestamp {
      InsertSorts(b, sorted[1..]);
      InsertMembers(b, sorted[1..]);
      var rest := Insert(b, sorted[1..]);
      forall i | 0 <= i < |rest| ensures sorted[0].timestamp <= rest[i].timestamp {
        assert rest[i] in rest;
      }
    }
  }

  predicate NonDecreasing(bars: seq<Bar>) {
    forall i, j :: 0 <= i < j < |bars| ==> bars[i].timestamp <= bars[j].timestamp
  }

  lemma {:induction false} OrderByTimeSorts(bars: seq<Bar>)
    ensures multiset(OrderByTime(bars)) == multiset(bars) && NonDecreasing(OrderByTime(bars))
  {
    if bars != [] {
      OrderByTimeSorts(bars[1..]);
      InsertKeeps(bars[0], OrderByTime(bars[1..]));
      InsertSorts(bars[0], OrderByTime(bars[1..]));
      assert bars == [bars[0]] + bars[1..];
    }
  }

  /** The table's uniqueness constraint, for the one interval a dataset has. */
  predicate UniqueTimes(rows: seq<BarRow>) {
    forall i, j :: 0 <= i < j < |rows| && rows[i].datasetId == rows[j].datasetId && rows[i].source == rows[j].source ==>
      rows[i].bar.timestamp != rows[j].bar.timestamp
  }

  predicate DistinctTimes(bars: seq<Bar>) {
    forall i, j :: 0 <= i < j < |bars| ==> bars[i].timestamp != bars[j].timestamp
  }

  predicate Holds(rows: seq<BarRow>, b: Bar, datasetId: Id, source: string, lo: int, hi: int) {
    BarRow(datasetId, source, b) in rows && lo <= b.timestamp < hi
  }

  lemma {:induction false} SelectExactly(rows: seq<BarRow>, datasetId: Id, source: string, lo: int, hi: int)
    ensures forall b :: b in Select(rows, datasetId, source, lo, hi) <==> Holds(rows, b, datasetId, source, lo, hi)
    ensures UniqueTimes(rows) ==> DistinctTimes(Select(rows, datasetId, source, lo, hi))
  {
    if rows != [] {
      var rest := Select(rows[1..], datasetId, source, lo, hi);
      SelectExactly(rows[1..], datasetId, source, lo, hi);
      forall b ensures b in Select(rows, datasetId, source, lo, hi) <==> Holds(rows, b, datasetId, source, lo, hi) {
        assert BarRow(datasetId, source, b) in rows <==>
          rows[0] == BarRow(datasetId, source, b) || BarRow(datasetId, source, b) in rows[1..];
      }
      if UniqueTimes(rows) && InRange(rows[0], datasetId, source, lo, hi) {
        forall j | 0 <= j < |rest| ensures rest[j].timestamp != rows[0].bar.timestamp {
          assert rest[j] in rest;
          assert BarRow(datasetId, source, rest[j]) in rows[1..];
        }
      }
    }
  }

  lemma {:induction false} DistinctOrder(bars: seq<Bar>)
    requires DistinctTimes(bars)
    ensures Chronological(OrderByTime(bars))
  {
    if bars != [] {
      DistinctOrder(bars[1..]);
      OrderByTimeSorts(bars[1..]);
      var sorted := OrderByTime(bars[1..]);
      forall b | b in sorted ensures b.timestamp != bars[0].timestamp {
        assert b in multiset(sorted);
        var j :| 0 <= j < |bars[1..]| && bars[1..][j] == b;
        assert bars[0].timestamp != bars[j + 1].timestamp;
      }
      InsertStrict(bars[0], sorted);
    }
  }

  lemma {:induction false} InsertStrict(b: Bar, sorted: seq<Bar>)
    requires Chronological(sorted) && forall c :: c in sorted ==> c.timestamp != b.timestamp
    ensures Chronological(Insert(b, sorted))
  {
    if sorted != [] && sorted[0].timestamp < b.timestamp {
      InsertStrict(b, sorted[1..]);
      InsertMembers(b, sorted[1..]);
      var rest := Insert(b, sorted[1..]);
      forall i | 0 <= i < |rest| ensures sorted[0].timestamp < rest[i].timestamp {
        assert rest[i] in rest;
      }
    } else if sorted != [] {
      assert b.timestamp != sorted[0].timestamp by { assert sorted[0] in sorted; }
    }
  }

  /** The mapping names the instrument on that day. */
  predicate InForce(m: Mapping, datasetId: Id, instrumentId: Id, day: int) {
    && m.datasetId == datasetId && m.instrumentId == instrumentId
    && m.effectiveFrom <= day && (m.effectiveTo.Some? ==> day <= m.effectiveTo.value)
  }

  ghost predicate InForceWithin(m: Mapping, datasetId: Id, instrumentId: Id, start: int, end: int) {
    exists day :: start <= day <= end && InForce(m, datasetId, instrumentId, day)
  }

  /** As the mapping's constructor has it: a range does not end before it begins. */
  predicate NoEmptyRange(mappings: seq<Mapping>) {
    forall m :: m in mappings && m.effectiveTo.Some? ==> m.effectiveFrom <= m.effectiveTo.value
  }

  lemma AppliesIffInForce(m: Mapping, datasetId: Id, instrumentId: Id, start: int, end: int)
    requires start <= end && (m.effectiveTo.Some? ==> m.effectiveFrom <= m.effectiveTo.value)
    ensures Applies(m, datasetId, instrumentId, start, end) <==> InForceWithin(m, datasetId, instrumentId, start, end)
  {
    var day := if start <= m.effectiveFrom then m.effectiveFrom else start;
    assert Applies(m, datasetId, instrumentId, start, end) ==> InForce(m, datasetId, instrumentId, day);
  }

  /** A mapping in force on some day of the period, none of which takes effect earlier. */
  ghost predicate Resolves(mappings: seq<Mapping>, m: Mapping, datasetId: Id, instrumentId: Id, start: int, end: int) {
    && m in mappings && InForceWithin(m, datasetId, instrumentId, start, end)
    && forall other :: other in mappings && InForceWithin(other, datasetId, instrumentId, start, end) ==>
         m.effectiveFrom <= other.effectiveFrom
  }

  /** The mapping that is chosen resolves the instrument, and there is one unless none is in force on
      any day of the period. */
  lemma {:induction false} FirstMappingIsEarliest(mappings: seq<Mapping>, datasetId: Id, instrumentId: Id,
      start: int, end: int)
    requires start <= end && NoEmptyRange(mappings)
    ensures var first := FirstMapping(mappings, datasetId, instrumentId, start, end);
      && (first.None? <==> forall m :: m in mappings ==> !InForceWithin(m, datasetId, instrumentId, start, end))
      && (first.Some? ==> Resolves(mappings, first.value, datasetId, instrumentId, start, end))
  {
    hide Applies, InForceWithin;
    if mappings != [] {
      FirstMappingIsEarliest(mappings[1..], datasetId, instrumentId, start, end);
      AppliesIffInForce(mappings[0], datasetId, instrumentId, start, end);
      assert forall m :: m in mappings <==> m == mappings[0] || m in mappings[1..];
    }
  }

  /** The day a timestamp falls on. */
  function DayOf(timestamp: int): int {
    timestamp / 86400
  }

  /** A snapshot is in time order, strictly when the table's times are unique. */
  lemma SnapshotInOrder(db: Database, datasetId: Id, instrumentId: Id, start: int, end: int)
    ensures var s := GetSnapshot(db, datasetId, instrumentId, start, end);
      && (s.Some? ==> NonDecreasing(s.value))
      && (s.Some? && UniqueTimes(db.bars) ==> Chronological(s.value))
  {
    match FirstMapping(db.mappings, datasetId, instrumentId, start, end)
    case None =>
    case Some(m) =>
      var chosen := Select(db.bars, datasetId, m.source, Midnight(start), Midnight(end + 1));
      SelectExactly(db.bars, datasetId, m.source, Midnight(start), Midnight(end + 1));
      OrderByTimeSorts(chosen);
      if UniqueTimes(db.bars) { DistinctOrder(chosen); }
  }

  /** There is a snapshot exactly when some mapping is in force on a day of the period. It holds exactly
      the table's bars of the resolving mapping's source that are stamped on one of its days, strictly in
      time order. */
  lemma SnapshotExactly(db: Database, datasetId: Id, instrumentId: Id, start: int, end: int)
    requires start <= end && NoEmptyRange(db.mappings)
    ensures var s := GetSnapshot(db, datasetId, instrumentId, start, end);
      var m := FirstMapping(db.mappings, datasetId, instrumentId, start, end);
      && (s.Some? <==> exists m :: m in db.mappings && InForceWithin(m, datasetId, instrumentId, start, end))
      && (s.Some? ==> m.Some? && Resolves(db.mappings, m.value, datasetId, instrumentId, start, end))
      && (s.Some? ==> forall b :: b in s.value <==>
            BarRow(datasetId, m.value.source, b) in db.bars && start <= DayOf(b.timestamp) <= end)
      && (s.Some? && UniqueTimes(db.bars) ==> Chronological(s.value))
  {
    hide InForceWithin;
    FirstMappingIsEarliest(db.mappings, datasetId, instrumentId, start, end);
    SnapshotInOrder(db, datasetId, instrumentId, start, end);
    match FirstMapping(db.mappings, datasetId, instrumentId, start, end)
    case None =>
    case Some(m) =>
      var chosen := Select(db.bars, datasetId, m.source, Midnight(start), Midnight(end + 1));
      SelectExactly(db.bars, datasetId, m.source, Midnight(start), Midnight(end + 1));
      OrderByTimeSorts(chosen);
      forall b ensures b in OrderByTime(chosen) <==> b in chosen {
        assert b in multiset(OrderByTime(chosen)) <==> b in multiset(chosen);
      }
  }

  // ---- What the query cannot see ----

  function Before(rows: seq<BarRow>, t: int): seq<BarRow> {
    if rows == [] then []
    else if rows[0].bar.timestamp < t then [rows[0]] + Before(rows[1..], t)
    else Before(rows[1..], t)
  }

  /** The same dataset as far as anything before `t` goes: the checksums may differ, being checksums of
      the whole content, and so may the ends of coverage, if neither is before `t`. */
  predicate DatasetsAgree(a: Dataset, b: Dataset, t: int) {
    && a.coverageStart == b.coverageStart && (Signed(a) <==> Signed(b))
    && (a.coverageEnd == b.coverageEnd ||
        (&& a.coverageEnd.Some? && t <= Midnight(a.coverageEnd.value + 1)
         && b.coverageEnd.Some? && t <= Midnight(b.coverageEnd.value + 1)))
  }

  /** The same database, but for the bars stamped from `t` on and what the dataset rows say of them. */
  predicate AgreeBefore(a: Database, b: Database, t: int) {
    && a.instruments == b.instruments && a.mappings == b.mappings
    && a.datasets.Keys == b.datasets.Keys
    && (forall d :: d in a.datasets ==> DatasetsAgree(a.datasets[d], b.datasets[d], t))
    && Before(a.bars, t) == Before(b.bars, t)
  }

  /** An import writes the dataset's row and its bars together. */
  function Import(db: Database, datasetId: Id, d: Dataset, rows: seq<BarRow>): Database {
    db.(datasets := db.datasets[datasetId := d], bars := db.bars + rows)
  }

  lemma {:induction false} BeforeConcat(a: seq<BarRow>, b: seq<BarRow>, t: int)
    ensures Before(a + b, t) == Before(a, t) + Before(b, t)
  {
    if a == [] {
      assert a + b == b;
    } else {
      BeforeConcat(a[1..], b, t);
      assert (a + b)[1..] == a[1..] + b;
    }
  }

  lemma {:induction false} NoneBefore(rows: seq<BarRow>, t: int)
    requires forall i :: 0 <= i < |rows| ==> t <= rows[i].bar.timestamp
    ensures Before(rows, t) == []
  {
    if rows != [] {
      NoneBefore(rows[1..], t);
    }
  }

  /** Two imports that share their history up to `t` and differ in what follows, with whatever
      checksums and ends of coverage that gives them, agree before `t`. */
  lemma ImportsAgree(db: Database, datasetId: Id, start: Option<int>, history: seq<BarRow>, t: int,
                     endA: int, sumA: string, laterA: seq<BarRow>, endB: int, sumB: string, laterB: seq<BarRow>)
    requires t <= Midnight(endA + 1) && t <= Midnight(endB + 1) && sumA != "" && sumB != ""
    requires forall i :: 0 <= i < |laterA| ==> t <= laterA[i].bar.timestamp
    requires forall i :: 0 <= i < |laterB| ==> t <= laterB[i].bar.timestamp
    ensures AgreeBefore(Import(db, datasetId, Dataset(start, Some(endA), Some(sumA)), history + laterA),
                        Import(db, datasetId, Dataset(start, Some(endB), Some(sumB)), history + laterB), t)
  {
    BeforeConcat(db.bars, history + laterA, t);
    BeforeConcat(db.bars, history + laterB, t);
    BeforeConcat(history, laterA, t);
    BeforeConcat(history, laterB, t);
    NoneBefore(laterA, t);
    NoneBefore(laterB, t);
  }

  lemma {:induction false} SelectBefore(rows: seq<BarRow>, datasetId: Id, source: string, lo: int, hi: int, t: int)
    requires hi <= t
    ensures Select(Before(rows, t), datasetId, source, lo, hi) == Select(rows, datasetId, source, lo, hi)
  {
    if rows != [] {
      SelectBefore(rows[1..], datasetId, source, lo, hi, t);
      if rows[0].bar.timestamp < t {
        assert Before(rows, t)[1..] == Before(rows[1..], t);
      }
    }
  }

  /** A period that ends before day `t` reads nothing stamped from midnight of `t` on. */
  lemma SnapshotIgnoresLater(a: Database, b: Database, datasetId: Id, instrumentId: Id, start: int, end: int, t: int)
    requires end < t && AgreeBefore(a, b, Midnight(t))
    ensures GetSnapshot(a, datasetId, instrumentId, start, end) == GetSnapshot(b, datasetId, instrumentId, start, end)
  {
    match FirstMapping(a.mappings, datasetId, instrumentId, start, end)
    case None =>
    case Some(m) =>
      SelectBefore(a.bars, datasetId, m.source, Midnight(start), Midnight(end + 1), Midnight(t));
      SelectBefore(b.bars, datasetId, m.source, Midnight(start), Midnight(end + 1), Midnight(t));
  }
}
