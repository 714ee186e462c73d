/** Accepting an imported file: one pass over its rows that checks each row's fields, that no
    (instrument, time) repeats, and that times rise strictly within an instrument. */
module CsvChronology {
  import opened Wrappers
  import Domain

  /** A tokenized row: `None` where the text of a field does not parse. */
  datatype RawRow = RawRow(columnsMatch: bool, instrument: Option<nat>, timestamp: Option<int>,
                           open: Option<real>, high: Option<real>, low: Option<real>, close: Option<real>,
                               volume: Option<nat>)

  datatype Row = Row(rowNumber: nat, instrument: nat, bar: Domain.Bar, zeroVolume: bool)

  datatype Code = MalformedRow | InvalidInstrumentIdentifier | InvalidTimestamp | InvalidDecimal
                | InvalidOhlcRelationship | InvalidVolume | DuplicateRow | UnsortedRows | EmptyFile

  datatype Violation = Violation(code: Code, rowNumber: Option<nat>)

  predicate BadDecimal(value: Option<real>) {
    value.None? || value.value <= 0.0
  }

  /** The first field check a row fails, in the order the parser makes them. */
  function FieldViolation(r: RawRow): Option<Code> {
    if !r.columnsMatch then Some(MalformedRow)
    else if r.instrument.None? then Some(InvalidInstrumentIdentifier)
    else if r.timestamp.None? then Some(InvalidTimestamp)
    else if BadDecimal(r.open) || BadDecimal(r.high) || BadDecimal(r.low)
        || BadDecimal(r.close) then Some(InvalidDecimal)
    else if !(r.low.value <= r.open.value <= r.high.value && r.low.value <= r.close.value <= r.high.value) then
      Some(InvalidOhlcRelationship)
    else if r.volume.None? then Some(InvalidVolume)
    else None
  }

  /** Row `i` of the file is on line `i + 2`, the header being line 1. */
  function ParseRow(r: RawRow, i: nat): Row
    requires FieldViolation(r).None?
  {
    Row(i + 2, r.instrument.value,
        Domain.Bar(r.timestamp.value, r.open.value, r.high.value, r.low.value, r.close.value, r.volume.value),
        r.volume.value == 0)
  }

  /** A price is there and positive. */
  predicate IsPrice(value: Option<real>) {
    value.Some? && 0.0 < value.value
  }

  predicate HasPrices(r: RawRow) {
    IsPrice(r.open) && IsPrice(r.high) && IsPrice(r.low) && IsPrice(r.close)
  }

  predicate Consistent(r: RawRow)
    requires HasPrices(r)
  {
    && r.low.value <= r.open.value && r.open.value <= r.high.value
    && r.low.value <= r.close.value && r.close.value <= r.high.value
  }

  /** A row's fields are good exactly when its columns match, every field parses, prices are positive and
      open and close lie between low and high. Each code says that what is checked before is in order. */
  lemma FieldVerdict(r: RawRow)
    ensures var v := FieldViolation(r); var keyed := r.columnsMatch && r.instrument.Some? && r.timestamp.Some?;
      && (v == None <==> keyed && HasPrices(r) && Consistent(r) && r.volume.Some?)
      && (v == Some(MalformedRow) <==> !r.columnsMatch)
      && (v == Some(InvalidInstrumentIdentifier) <==> r.columnsMatch && r.instrument.None?)
      && (v == Some(InvalidTimestamp) <==> r.columnsMatch && r.instrument.Some? && r.timestamp.None?)
      && (v == Some(InvalidDecimal) <==> keyed && !HasPrices(r))
      && (v == Some(InvalidOhlcRelationship) <==> keyed && HasPrices(r) && !Consistent(r))
      && (v == Some(InvalidVolume) <==> keyed && HasPrices(r) && Consistent(r) && r.volume.None?)
  {}

  /** The parsed row holds what the raw one says, under the number of its line. */
  predicate Tells(r: RawRow, i: nat, row: Row) {
    && row.rowNumber == i + 2 && r.instrument == Some(row.instrument) && r.timestamp == Some(row.bar.timestamp)
    && r.open == Some(row.bar.open) && r.high == Some(row.bar.high)
    && r.low == Some(row.bar.low) && r.close == Some(row.bar.close)
    && 0 <= row.bar.volume && r.volume == Some(row.bar.volume) && (row.zeroVolume <==> row.bar.volume == 0)
  }

  lemma ParseRowTells(r: RawRow, i: nat)
    requires FieldViolation(r).None?
    ensures Tells(r, i, ParseRow(r, i))
  {}

  predicate WellFormed(rows: seq<RawRow>) {
    forall i :: 0 <= i < |rows| ==> FieldViolation(rows[i]).None?
  }

  predicate SameInstrument(a: RawRow, b: RawRow) {
    a.instrument == b.instrument
  }

  /** Within each instrument, later rows have strictly later times. */
  predicate Chronological(rows: seq<RawRow>)
    requires WellFormed(rows)
  {
    forall i, j :: 0 <= i < j < |rows| && SameInstrument(rows[i], rows[j]) ==>
        rows[i].timestamp.value < rows[j].timestamp.value
  }

  /** This key has occurred before row `i`. */
  predicate Repeats(rows: seq<RawRow>, i: nat)
    requires i < |rows|
  {
    exists j :: 0 <= j < i && SameInstrument(rows[j], rows[i]) && rows[j].timestamp == rows[i].timestamp
  }

  /** Some earlier row of the same instrument is not before row `i`. */
  predicate OutOfOrder(rows: seq<RawRow>, i: nat)
    requires i < |rows| && WellFormed(rows[..i]) && FieldViolation(rows[i]).None?
  {
    exists j :: 0 <= j < i && SameInstrument(rows[j], rows[i])
        && rows[i].timestamp.value <= rows[..i][j].timestamp.value
  }

  ghost predicate Acceptable(rows: seq<RawRow>) {
    WellFormed(rows) && Chronological(rows)
  }

  /** The verdict on row `i`, the ones before it being acceptable. */
  ghost predicate Rejects(rows: seq<RawRow>, i: nat, code: Code) {
    && i < |rows| && Acceptable(rows[..i])
    && (match FieldViolation(rows[i])
        case Some(c) => code == c
        case None => if Repeats(rows, i) then code == DuplicateRow else OutOfOrder(rows, i) && code == UnsortedRows)
  }

  /** The violation names the line and the reason of a rejected row. */
  ghost predicate RejectedFor(rows: seq<RawRow>, v: Violation) {
    exists i :: Rejects(rows, i, v.code) && v.rowNumber == Some(i + 2)
  }

  predicate Tracks(rows: seq<RawRow>, i: nat, seen: set<(nat, int)>, last: map<nat, int>)
    requires i <= |rows| && WellFormed(rows[..i])
  {
    && (forall j :: 0 <= j < i ==> (rows[..i][j].instrument.value, rows[..i][j].timestamp.value) in seen)
    && (forall k :: k in seen ==> exists j :: 0 <= j < i && Keyed(rows[j], k.0, k.1))
    && (forall j :: 0 <= j < i ==>
          rows[..i][j].instrument.value in last && rows[..i][j].timestamp.value <= last[rows[..i][j].instrument.value])
    && (forall k :: k in last ==> exists j :: 0 <= j < i && Keyed(rows[j], k, last[k]))
  }

  predicate Keyed(r: RawRow, instrument: nat, timestamp: int) {
    r.instrument == Some(instrument) && r.timestamp == Some(timestamp)
  }

  /** The check of one parsed row against the keys seen and the last time per instrument. */
  method RequireUniqueAndSorted(row: Row, seen: set<(nat, int)>, last: map<nat, int>, ghost rows: seq<RawRow>,
      ghost i: nat)
    returns (violation: Option<Code>, seenNow: set<(nat, int)>, lastNow: map<nat, int>)
    requires i < |rows| && Acceptable(rows[..i]) && Tracks(rows, i, seen, last)
    requires FieldViolation(rows[i]).None? && row == ParseRow(rows[i], i)
    ensures violation.Some? ==> Rejects(rows, i, violation.value)
    ensures violation.None? ==> Acceptable(rows[..i + 1]) && Tracks(rows, i + 1, seenNow, lastNow)
  {
    hide Chronological;
    seenNow, lastNow := seen, last;
    var key := (row.instrument, row.bar.timestamp);
    if key in seen {
      ghost var j :| 0 <= j < i && Keyed(rows[j], key.0, key.1);
      assert Repeats(rows, i);
      return Some(DuplicateRow), seenNow, lastNow;
    }
    NotSeen(rows, i, seen, last);
    seenNow := seen + {key};
    if row.instrument in last && row.bar.timestamp <= last[row.instrument] {
      ghost var j :| 0 <= j < i && Keyed(rows[j], row.instrument, last[row.instrument]);
      assert rows[..i][j] == rows[j];
      assert OutOfOrder(rows, i);
      return Some(UnsortedRows), seenNow, lastNow;
    }
    TracksNext(rows, i, seen, last);
    lastNow := last[row.instrument := row.bar.timestamp];
    violation := None;
  }

  /** The pass. A file is accepted exactly when it has a row, every row's fields are good, and the rows
      are chronological; a rejected one is rejected at the first row that makes it so, for the reason
      `Rejects` states. */
  method ParseCsv(rows: seq<RawRow>) returns (r: Result<seq<Row>, Violation>)
    ensures r.Ok? <==> rows != [] && Acceptable(rows)
    ensures r.Ok? ==> |r.value| == |rows| && forall i :: 0 <= i < |rows| ==>
                        FieldViolation(rows[i]).None? && r.value[i] == ParseRow(rows[i], i)
    ensures r.Ok? ==> forall i :: 0 <= i < |rows| ==> Tells(rows[i], i, r.value[i])
    ensures r.Err? ==> if rows == [] then r.error == Violation(EmptyFile, None)
                       else RejectedFor(rows, r.error)
  {
    hide Tracks, Chronological, FieldViolation, RejectedFor, ParseRow, Tells;
    var parsed: seq<Row> := [];
    var seen: set<(nat, int)> := {};
    var last: map<nat, int> := map[];
    NothingTracked(rows);
    for i := 0 to |rows|
      invariant Acceptable(rows[..i]) && Tracks(rows, i, seen, last)
      invariant |parsed| == i && forall j :: 0 <= j < i ==>
          FieldViolation(rows[j]).None? && parsed[j] == ParseRow(rows[j], j) && Tells(rows[j], j, parsed[j])
    {
      var violation := FieldViolation(rows[i]);
      if violation.Some? {
        NotAcceptable(rows, i, violation.value);
        return Err(Violation(violation.value, Some(i + 2)));
      }
      var row := ParseRow(rows[i], i);
      ParseRowTells(rows[i], i);
      violation, seen, last := RequireUniqueAndSorted(row, seen, last, rows, i);
      if violation.Some? {
        NotAcceptable(rows, i, violation.value);
        assert row.rowNumber == i + 2 by { NumberIsLine(rows[i], i, row); }
        return Err(Violation(violation.value, Some(row.rowNumber)));
      }
      parsed := parsed + [row];
    }
    assert rows[..|rows|] == rows;
    if parsed == [] {
      return Err(Violation(EmptyFile, None));
    }
    r := Ok(parsed);
  }

  lemma NumberIsLine(r: RawRow, i: nat, row: Row)
    requires Tells(r, i, row)
    ensures row.rowNumber == i + 2
  {}

  lemma NothingTracked(rows: seq<RawRow>)
    ensures Acceptable(rows[..0]) && Tracks(rows, 0, {}, map[])
  {}

  lemma NotSeen(rows: seq<RawRow>, i: nat, seen: set<(nat, int)>, last: map<nat, int>)
    requires i < |rows| && WellFormed(rows[..i]) && Tracks(rows, i, seen, last) && FieldViolation(rows[i]).None?
    requires (rows[i].instrument.value, rows[i].timestamp.value) !in seen
    ensures !Repeats(rows, i)
  {
    forall j | 0 <= j < i
      ensures !(SameInstrument(rows[j], rows[i]) && rows[j].timestamp == rows[i].timestamp)
    {
      assert (rows[..i][j].instrument.value, rows[..i][j].timestamp.value) in seen;
    }
  }

  lemma TracksNext(rows: seq<RawRow>, i: nat, seen: set<(nat, int)>, last: map<nat, int>)
    requires i < |rows| && Acceptable(rows[..i]) && Tracks(rows, i, seen, last) && FieldViolation(rows[i]).None?
    requires var k := rows[i].instrument.value; k in last ==> last[k] < rows[i].timestamp.value
    ensures Acceptable(rows[..i + 1])
    ensures Tracks(rows, i + 1, seen + {(rows[i].instrument.value, rows[i].timestamp.value)},
        last[rows[i].instrument.value := rows[i].timestamp.value])
  {
    var next := rows[..i + 1];
    assert forall j :: 0 <= j < i ==> next[j] == rows[..i][j];
    assert next[i] == rows[i];
    assert Keyed(rows[i], rows[i].instrument.value, rows[i].timestamp.value);
  }

  /** A row that is rejected spoils every file it is in. */
  lemma NotAcceptable(rows: seq<RawRow>, i: nat, code: Code)
    requires Rejects(rows, i, code)
    ensures !Acceptable(rows) && RejectedFor(rows, Violation(code, Some(i + 2)))
  {
    if WellFormed(rows) {
      if Repeats(rows, i) {
        var j :| 0 <= j < i && SameInstrument(rows[j], rows[i]) && rows[j].timestamp == rows[i].timestamp;
      } else {
        var j :| 0 <= j < i && SameInstrument(rows[j], rows[i])
            && rows[i].timestamp.value <= rows[..i][j].timestamp.value;
      }
    }
  }

  /** Every accepted row passes the guards of a stored bar, and the stored bars of an instrument have
      unique times. */
  lemma AcceptedRowsAreBars(rows: seq<RawRow>, i: nat, j: nat)
    requires Acceptable(rows) && i < |rows| && j < |rows|
    ensures Domain.ValidBar(ParseRow(rows[i], i).bar)
    ensures i != j && rows[i].instrument == rows[j].instrument ==>
      ParseRow(rows[i], i).bar.timestamp != ParseRow(rows[j], j).bar.timestamp
  {
    assert FieldViolation(rows[i]).None? && FieldViolation(rows[j]).None?;
    if i != j && rows[i].instrument == rows[j].instrument {
      assert SameInstrument(rows[i], rows[j]) && SameInstrument(rows[j], rows[i]);
    }
  }
}
