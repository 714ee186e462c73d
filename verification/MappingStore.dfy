/** Effective-dated instrument mappings: creating one checks the store for an overlap and then inserts. */
module MappingStore {
  import opened Wrappers
  import opened Sequences
  import opened BarStore
  import Documents

  /** The latest date there is; an open end means this day. */
  const MAX_DATE := 3652059

  predicate IsDate(d: int) {
    1 <= d <= MAX_DATE
  }

  function EndOf(to: Option<int>): int {
    if to.None? then MAX_DATE else to.value
  }

  predicate DateRangesOverlap(aFrom: int, aTo: Option<int>, bFrom: int, bTo: Option<int>) {
    aFrom <= EndOf(bTo) && bFrom <= EndOf(aTo)
  }

  predicate Covers(from: int, to: Option<int>, day: int) {
    from <= day <= EndOf(to)
  }

  /** For ranges that are not empty, overlapping is sharing a day. */
  lemma OverlapIffSharedDay(aFrom: int, aTo: Option<int>, bFrom: int, bTo: Option<int>)
    requires aFrom <= EndOf(aTo) && bFrom <= EndOf(bTo)
    ensures DateRangesOverlap(aFrom, aTo, bFrom, bTo) <==>
      exists day :: Covers(aFrom, aTo, day) && Covers(bFrom, bTo, day)
  {
    var later := if aFrom <= bFrom then bFrom else aFrom;
    assert DateRangesOverlap(aFrom, aTo, bFrom, bTo) ==> Covers(aFrom, aTo, later) && Covers(bFrom, bTo, later);
  }

  /** A range without an end covers every date from its first on. */
  lemma OpenEndCoversAll(from: int, to: int, day: int)
    requires 1 <= day <= 3652059
    ensures Covers(from, None, day) <==> from <= day
    ensures Covers(from, Some(to), day) <==> from <= day <= to
  {}

  function Overlapping(mappings: seq<Mapping>, m: Mapping): seq<Mapping> {
    if mappings == [] then []
    else
      var c := mappings[0];
      if c.datasetId == m.datasetId && c.source == m.source
         && DateRangesOverlap(m.effectiveFrom, m.effectiveTo, c.effectiveFrom, c.effectiveTo)
      then [c] + Overlapping(mappings[1..], m)
      else Overlapping(mappings[1..], m)
  }

  datatype Error = DatasetNotFound | InstrumentNotFound | MappingOverlap | InvalidMapping

  /** The constructor's guard: a range may not end before it begins. */
  predicate NonEmpty(m: Mapping) {
    && IsDate(m.effectiveFrom)
    && (m.effectiveTo.Some? ==> IsDate(m.effectiveTo.value) && m.effectiveFrom <= m.effectiveTo.value)
  }

  /** The constructor's other guards. */
  predicate WellNamed(m: Mapping) {
    !Documents.Blank(m.source) && !Documents.Blank(m.decisionSource)
  }

  function Check(db: Database, mappings: seq<Mapping>, m: Mapping): Option<Error> {
    if m.datasetId !in db.datasets then Some(DatasetNotFound)
    else if m.instrumentId !in db.instruments then Some(InstrumentNotFound)
    else if Overlapping(mappings, m) != [] then Some(MappingOverlap)
    else if !WellNamed(m) || !NonEmpty(m) then Some(InvalidMapping)
    else None
  }

  function Create(db: Database, mappings: seq<Mapping>, m: Mapping): (seq<Mapping>, Option<Error>) {
    var refused := Check(db, mappings, m);
    if refused.Some? then (mappings, refused) else (mappings + [m], None)
  }

  class MappingRepository {
    var mappings: seq<Mapping>

    method FindOverlapping(m: Mapping) returns (found: seq<Mapping>)
      ensures found == Overlapping(mappings, m)
    {
      hide DateRangesOverlap;
      found := [];
      assert mappings[0..] == mappings;
      for i := 0 to |mappings|
        invariant found + Overlapping(mappings[i..], m) == Overlapping(mappings, m)
      {
        var c := mappings[i];
        assert mappings[i..][0] == c && mappings[i..][1..] == mappings[i + 1..];
        if c.datasetId == m.datasetId && c.source == m.source
           && DateRangesOverlap(m.effectiveFrom, m.effectiveTo, c.effectiveFrom, c.effectiveTo) {
          found := found + [c];
        }
      }
    }

    method Insert(m: Mapping)
      modifies this
      ensures mappings == old(mappings) + [m]
    {
      mappings := mappings + [m];
    }

    method CreateMapping(db: Database, m: Mapping) returns (error: Option<Error>)
      modifies this
      ensures (mappings, error) == Create(db, old(mappings), m)
    {
      if m.datasetId !in db.datasets {
        return Some(DatasetNotFound);
      }
      if m.instrumentId !in db.instruments {
        return Some(InstrumentNotFound);
      }
      var overlapping := FindOverlapping(m);
      if overlapping != [] {
        return Some(MappingOverlap);
      }
      if !WellNamed(m) || !NonEmpty(m) {
        return Some(InvalidMapping);
      }
      Insert(m);
      error := None;
    }
  }

  // ---- Any sequence of calls ----

  predicate Disjoint(a: Mapping, b: Mapping) {
    a.datasetId == b.datasetId && a.source == b.source ==>
      !DateRangesOverlap(a.effectiveFrom, a.effectiveTo, b.effectiveFrom, b.effectiveTo)
  }

  predicate PairwiseDisjoint(mappings: seq<Mapping>) {
    && (forall i :: 0 <= i < |mappings| ==> NonEmpty(mappings[i]))
    && (forall i, j :: 0 <= i < j < |mappings| ==> Disjoint(mappings[i], mappings[j]))
  }

  lemma {:induction false} NoneOverlap(mappings: seq<Mapping>, m: Mapping)
    ensures Overlapping(mappings, m) == [] <==> forall i :: 0 <= i < |mappings| ==> Disjoint(mappings[i], m)
  {
    if mappings != [] {
      NoneOverlap(mappings[1..], m);
      assert forall i :: 0 <= i < |mappings| - 1 ==> mappings[1..][i] == mappings[i + 1];
      assert forall i :: 1 <= i < |mappings| ==> mappings[i] == mappings[1..][i - 1];
      assert Overlapping(mappings, m) == [] <==> Disjoint(mappings[0], m) && Overlapping(mappings[1..], m) == [];
    }
  }

  function CreateAll(db: Database, requests: seq<Mapping>): seq<Mapping> {
    if requests == [] then [] else Create(db, CreateAll(db, Init(requests)), Last(requests)).0
  }

  /** After any sequence of calls, one after another, no two stored ranges of a source overlap. */
  lemma {:induction false} AlwaysDisjoint(db: Database, requests: seq<Mapping>)
    ensures PairwiseDisjoint(CreateAll(db, requests))
  {
    hide Disjoint, NonEmpty, Overlapping;
    if requests != [] {
      AlwaysDisjoint(db, Init(requests));
      NoneOverlap(CreateAll(db, Init(requests)), Last(requests));
    }
  }

  /** So on any day a source stands for at most one instrument. */
  lemma AtMostOneOnAnyDay(db: Database, requests: seq<Mapping>, day: int, i: nat, j: nat)
    requires i < |CreateAll(db, requests)| && j < |CreateAll(db, requests)|
    requires var a, b := CreateAll(db, requests)[i], CreateAll(db, requests)[j];
      && a.datasetId == b.datasetId && a.source == b.source
      && Covers(a.effectiveFrom, a.effectiveTo, day) && Covers(b.effectiveFrom, b.effectiveTo, day)
    ensures i == j
  {
    AlwaysDisjoint(db, requests);
    var ms := CreateAll(db, requests);
    assert i < j ==> Disjoint(ms[i], ms[j]);
    assert j < i ==> Disjoint(ms[j], ms[i]);
  }

  /** A request is refused for an overlap exactly when it shares a day with a stored range of its
      source (its own range not being empty). */
  lemma RefusedIffSharesDay(db: Database, requests: seq<Mapping>, m: Mapping)
    requires NonEmpty(m) && m.datasetId in db.datasets && m.instrumentId in db.instruments
    ensures Create(db, CreateAll(db, requests), m).1 == Some(MappingOverlap) <==>
      exists c, day :: c in CreateAll(db, requests) && c.datasetId == m.datasetId && c.source == m.source
                       && Covers(c.effectiveFrom, c.effectiveTo, day) && Covers(m.effectiveFrom, m.effectiveTo, day)
  {
    var stored := CreateAll(db, requests);
    AlwaysDisjoint(db, requests);
    NoneOverlap(stored, m);
    if i :| 0 <= i < |stored| && !Disjoint(stored[i], m) {
      var c := stored[i];
      OverlapIffSharedDay(c.effectiveFrom, c.effectiveTo, m.effectiveFrom, m.effectiveTo);
      var day :| Covers(c.effectiveFrom, c.effectiveTo, day) && Covers(m.effectiveFrom, m.effectiveTo, day);
      assert c in stored;
    }
  }

  /** What a call answers: an unknown dataset or instrument, an overlap with a stored range of the same
      source, a blank name or a range that is no range of dates; only otherwise is the mapping stored. */
  lemma CreateDecides(db: Database, mappings: seq<Mapping>, m: Mapping)
    ensures var (stored, error) := Create(db, mappings, m);
      && (if m.datasetId !in db.datasets then error == Some(DatasetNotFound)
          else if m.instrumentId !in db.instruments then error == Some(InstrumentNotFound)
          else if exists i :: 0 <= i < |mappings| && !Disjoint(mappings[i], m) then error == Some(MappingOverlap)
          else if Documents.Blank(m.source) || Documents.Blank(m.decisionSource) then error == Some(InvalidMapping)
          else if !(1 <= m.effectiveFrom <= 3652059) then error == Some(InvalidMapping)
          else if m.effectiveTo.Some? && !(m.effectiveFrom <= m.effectiveTo.value <= 3652059)
          then error == Some(InvalidMapping)
          else error == None)
      && stored == if error == None then mappings + [m] else mappings
  {
    hide Documents.Blank, Overlapping, Disjoint;
    NoneOverlap(mappings, m);
  }

  // ---- Calls that interleave ----

  /** A call checks on one connection and inserts on another. */
  datatype Caller = ToCheck(request: Mapping) | ToInsert(request: Mapping) | Returned(error: Option<Error>)

  function Turn(db: Database, mappings: seq<Mapping>, c: Caller): (seq<Mapping>, Caller) {
    match c
    case ToCheck(m) =>
      var error := Check(db, mappings, m);
      (mappings, if error.Some? then Returned(error) else ToInsert(m))
    case ToInsert(m) => (mappings + [m], Returned(None))
    case Returned(_) => (mappings, c)
  }

  function Interleave(db: Database, mappings: seq<Mapping>, callers: seq<Caller>, schedule: seq<nat>)
    : (seq<Mapping>, seq<Caller>)
  {
    if schedule == [] then (mappings, callers)
    else
      var (stored, now) := Interleave(db, mappings, callers, Init(schedule));
      var i := Last(schedule);
      if i >= |now| then (stored, now)
      else var (next, c) := Turn(db, stored, now[i]); (next, now[i := c])
  }

  predicate AllReturned(callers: seq<Caller>) {
    forall i :: 0 <= i < |callers| ==> callers[i].Returned?
  }

  /** Two calls have both passed the check and not yet inserted, with requests that overlap. */
  predicate Clash(callers: seq<Caller>) {
    exists i, j :: 0 <= i < j < |callers| && callers[i].ToInsert? && callers[j].ToInsert?
                   && !Disjoint(callers[i].request, callers[j].request)
  }

  /** At some point of the schedule there is a clash. */
  predicate EverClash(db: Database, mappings: seq<Mapping>, callers: seq<Caller>, schedule: seq<nat>) {
    Clash(Interleave(db, mappings, callers, schedule).1)
    || (schedule != [] && EverClash(db, mappings, callers, Init(schedule)))
  }

  predicate Fresh(callers: seq<Caller>) {
    forall i :: 0 <= i < |callers| ==> callers[i].ToCheck?
  }

  /** What has passed the check still fits what is stored. */
  predicate Fits(mappings: seq<Mapping>, callers: seq<Caller>) {
    && PairwiseDisjoint(mappings)
    && forall i :: 0 <= i < |callers| && callers[i].ToInsert? ==>
         NonEmpty(callers[i].request) && forall k :: 0 <= k < |mappings| ==> Disjoint(mappings[k], callers[i].request)
  }

  lemma TurnKeepsFits(db: Database, mappings: seq<Mapping>, callers: seq<Caller>, i: nat)
    requires i < |callers| && Fits(mappings, callers) && !Clash(callers)
    ensures var (next, c) := Turn(db, mappings, callers[i]); Fits(next, callers[i := c])
  {
    hide NonEmpty;
    match callers[i]
    case ToCheck(m) => NoneOverlap(mappings, m);
    case ToInsert(m) =>
      forall j | 0 <= j < |callers| && j != i && callers[j].ToInsert?
        ensures Disjoint(m, callers[j].request)
      {
        assert i < j ==> Disjoint(callers[i].request, callers[j].request);
        assert j < i ==> Disjoint(callers[j].request, callers[i].request);
      }
    case Returned(_) =>
      assert callers[i := callers[i]] == callers;
  }

  /** Without a clash, the stored ranges stay disjoint at every point of every schedule. */
  lemma {:induction false} NoClashIsSafe(db: Database, mappings: seq<Mapping>, callers: seq<Caller>, schedule: seq<nat>)
    requires PairwiseDisjoint(mappings) && Fresh(callers) && !EverClash(db, mappings, callers, schedule)
    ensures var (stored, now) := Interleave(db, mappings, callers, schedule); Fits(stored, now)
  {
    hide Fits, Turn, Clash;
    if schedule == [] {
      assert Fits(mappings, callers) by { NothingChecked(mappings, callers); }
    } else {
      NoClashIsSafe(db, mappings, callers, Init(schedule));
      var (stored, now) := Interleave(db, mappings, callers, Init(schedule));
      if Last(schedule) < |now| {
        assert !Clash(now) by { NoClashBefore(db, mappings, callers, Init(schedule)); }
        TurnKeepsFits(db, stored, now, Last(schedule));
      }
    }
  }

  lemma NothingChecked(mappings: seq<Mapping>, callers: seq<Caller>)
    requires PairwiseDisjoint(mappings) && Fresh(callers)
    ensures Fits(mappings, callers)
  {}

  lemma NoClashBefore(db: Database, mappings: seq<Mapping>, callers: seq<Caller>, schedule: seq<nat>)
    requires !EverClash(db, mappings, callers, schedule)
    ensures !Clash(Interleave(db, mappings, callers, schedule).1)
  {}

  /** A clash between these two calls cannot be undone: each has inserted its range or will. */
  predicate Doomed(mappings: seq<Mapping>, callers: seq<Caller>, i: nat, j: nat, a: Mapping, b: Mapping) {
    && i < |callers| && j < |callers| && i != j
    && (callers[i] == ToInsert(a) || (callers[i].Returned? && a in mappings))
    && (callers[j] == ToInsert(b) || (callers[j].Returned? && b in mappings))
    && (callers[i].Returned? && callers[j].Returned? ==> Twice(mappings, a, b))
  }

  predicate Twice(mappings: seq<Mapping>, a: Mapping, b: Mapping) {
    exists p, q :: 0 <= p < |mappings| && 0 <= q < |mappings| && p != q && mappings[p] == a && mappings[q] == b
  }

  lemma TurnKeepsDoomed(db: Database, mappings: seq<Mapping>, callers: seq<Caller>,
                        i: nat, j: nat, a: Mapping, b: Mapping, turn: nat)
    requires Doomed(mappings, callers, i, j, a, b) && turn < |callers|
    ensures var (next, c) := Turn(db, mappings, callers[turn]); Doomed(next, callers[turn := c], i, j, a, b)
  {
    hide Check, Twice;
    match callers[turn]
    case ToCheck(_) =>
    case ToInsert(m) =>
      InsertKeeps(mappings, m, a, b);
    case Returned(_) =>
  }

  lemma InsertKeeps(mappings: seq<Mapping>, m: Mapping, a: Mapping, b: Mapping)
    ensures forall x :: x in mappings ==> x in mappings + [m]
    ensures Twice(mappings, a, b) ==> Twice(mappings + [m], a, b)
    ensures m == a && b in mappings ==> Twice(mappings + [m], a, b)
    ensures m == b && a in mappings ==> Twice(mappings + [m], a, b)
  {
    var next := mappings + [m];
    assert next[|mappings|] == m;
    forall x | x in mappings ensures exists p :: 0 <= p < |mappings| && next[p] == x {
      var p :| 0 <= p < |mappings| && mappings[p] == x;
      assert next[p] == x;
    }
    if Twice(mappings, a, b) {
      var p, q :| 0 <= p < |mappings| && 0 <= q < |mappings| && p != q && mappings[p] == a && mappings[q] == b;
      assert next[p] == a && next[q] == b;
    }
  }

  /** After a clash, no schedule that lets every call return leaves the store disjoint. */
  lemma {:induction false} ClashIsUnsafe(db: Database, mappings: seq<Mapping>, callers: seq<Caller>, schedule: seq<nat>)
    returns (i: nat, j: nat, a: Mapping, b: Mapping)
    requires EverClash(db, mappings, callers, schedule)
    ensures var (stored, now) := Interleave(db, mappings, callers, schedule);
      Doomed(stored, now, i, j, a, b) && !Disjoint(a, b)
  {
    hide Doomed, Disjoint, Turn;
    var (stored, now) := Interleave(db, mappings, callers, schedule);
    if Clash(now) {
      i, j, a, b := ClashDooms(stored, now);
    } else {
      i, j, a, b := ClashIsUnsafe(db, mappings, callers, Init(schedule));
      var (before, was) := Interleave(db, mappings, callers, Init(schedule));
      if Last(schedule) < |was| {
        TurnKeepsDoomed(db, before, was, i, j, a, b, Last(schedule));
      }
    }
  }

  lemma ClashDooms(mappings: seq<Mapping>, callers: seq<Caller>) returns (i: nat, j: nat, a: Mapping, b: Mapping)
    requires Clash(callers)
    ensures Doomed(mappings, callers, i, j, a, b) && !Disjoint(a, b)
  {
    hide Disjoint;
    i, j :| 0 <= i < j < |callers| && callers[i].ToInsert? && callers[j].ToInsert?
            && !Disjoint(callers[i].request, callers[j].request);
    a, b := callers[i].request, callers[j].request;
  }

  /** When interleaved calls are safe. Let any number of calls run on any disjoint store until all have
      returned: the store is then disjoint exactly when at no point two calls with overlapping requests
      had both passed the check without having inserted. */
  lemma DisjointIffNeverClashed(db: Database, mappings: seq<Mapping>, callers: seq<Caller>, schedule: seq<nat>)
    requires PairwiseDisjoint(mappings) && Fresh(callers)
    requires AllReturned(Interleave(db, mappings, callers, schedule).1)
    ensures PairwiseDisjoint(Interleave(db, mappings, callers, schedule).0) <==>
        !EverClash(db, mappings, callers, schedule)
  {
    hide Interleave, NonEmpty;
    if EverClash(db, mappings, callers, schedule) {
      var i, j, a, b := ClashIsUnsafe(db, mappings, callers, schedule);
      var stored := Interleave(db, mappings, callers, schedule).0;
      assert Twice(stored, a, b);
      var p, q :| 0 <= p < |stored| && 0 <= q < |stored| && p != q && stored[p] == a && stored[q] == b;
      assert p < q ==> !Disjoint(stored[p], stored[q]);
      assert q < p ==> !Disjoint(stored[q], stored[p]);
    } else {
      NoClashIsSafe(db, mappings, callers, schedule);
    }
  }

  /** No two calls for one source are between check and insertion at once. */
  predicate OnePerSource(callers: seq<Caller>) {
    forall i, j :: 0 <= i < j < |callers| && callers[i].ToInsert? && callers[j].ToInsert? ==>
      !(callers[i].request.datasetId == callers[j].request.datasetId
          && callers[i].request.source == callers[j].request.source)
  }

  predicate AlwaysOnePerSource(db: Database, mappings: seq<Mapping>, callers: seq<Caller>, schedule: seq<nat>) {
    OnePerSource(Interleave(db, mappings, callers, schedule).1)
    && (schedule != [] ==> AlwaysOnePerSource(db, mappings, callers, Init(schedule)))
  }

  /** So it is enough to let one call per source through at a time. */
  lemma {:induction false} OnePerSourceIsSafe(db: Database, mappings: seq<Mapping>, callers: seq<Caller>,
      schedule: seq<nat>)
    requires PairwiseDisjoint(mappings) && Fresh(callers)
    requires AlwaysOnePerSource(db, mappings, callers, schedule)
    ensures !EverClash(db, mappings, callers, schedule)
    ensures PairwiseDisjoint(Interleave(db, mappings, callers, schedule).0)
  {
    hide Interleave, NonEmpty;
    if schedule != [] {
      OnePerSourceIsSafe(db, mappings, callers, Init(schedule));
    }
    NoClashIsSafe(db, mappings, callers, schedule);
  }

  /** It does happen. Two acceptable requests that overlap: when both
      check before either inserts, both are stored; when one is done first, the other is refused. */
  lemma RacingCallsCanOverlap(db: Database, a: Mapping, b: Mapping)
    requires Check(db, [], a).None? && Check(db, [], b).None? && !Disjoint(a, b)
    ensures var (stored, _) := Interleave(db, [], [ToCheck(a), ToCheck(b)], [0, 1, 0, 1]);
      stored == [a, b] && !PairwiseDisjoint(stored)
    ensures Interleave(db, [], [ToCheck(a), ToCheck(b)], [0, 0, 1, 1]) ==
        ([a], [Returned(None), Returned(Some(MappingOverlap))])
  {
    hide Check, Disjoint, Interleave;
    OverlapRefused(db, a, b);
    var start := [ToCheck(a), ToCheck(b)];
    NoTurns(db, [], start);
    Step(db, start, [], 0, [0]);
    assert Interleave(db, [], start, [0]).1 == [ToInsert(a), ToCheck(b)];
    Step(db, start, [0], 1, [0, 1]);
    Step(db, start, [0, 1], 0, [0, 1, 0]);
    Step(db, start, [0, 1, 0], 1, [0, 1, 0, 1]);

    Step(db, start, [0], 0, [0, 0]);
    assert Interleave(db, [], start, [0, 0]).0 == [a] && Interleave(db, [], start, [0, 0]).1 ==
        [Returned(None), ToCheck(b)];
    Step(db, start, [0, 0], 1, [0, 0, 1]);
    assert Interleave(db, [], start, [0, 0, 1]).1 == [Returned(None), Returned(Some(MappingOverlap))];
    Step(db, start, [0, 0, 1], 1, [0, 0, 1, 1]);
    assert Interleave(db, [], start, [0, 0, 1, 1]).1 == [Returned(None), Returned(Some(MappingOverlap))];
    assert !Disjoint([a, b][0], [a, b][1]);
  }

  lemma NoTurns(db: Database, mappings: seq<Mapping>, callers: seq<Caller>)
    ensures Interleave(db, mappings, callers, []) == (mappings, callers)
  {}

  lemma Step(db: Database, callers: seq<Caller>, schedule: seq<nat>, i: nat, longer: seq<nat>)
    requires longer == schedule + [i]
    ensures Interleave(db, [], callers, longer) ==
      var (stored, now) := Interleave(db, [], callers, schedule);
      if i >= |now| then (stored, now) else (Turn(db, stored, now[i]).0, now[i := Turn(db, stored, now[i]).1])
  {
    assert Init(longer) == schedule;
  }

  lemma OverlapRefused(db: Database, a: Mapping, b: Mapping)
    requires Check(db, [], a).None? && Check(db, [], b).None? && !Disjoint(a, b)
    ensures Check(db, [a], b) == Some(MappingOverlap)
  {
    assert [a][0] == a;
    NoneOverlap([a], b);
  }
}
