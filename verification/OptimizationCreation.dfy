/** Which requests creation accepts, what it answers to the others, and what it stores, all in terms of
    the request. */
module OptimizationCreation {
  import opened Wrappers
  import opened Optimization
  import opened Sequences
  import opened BarStore
  import opened OptimizationRun
  import opened OptimizationFeasibility

  // ---- The size of the grid ----

  function Declared(windows: seq<int>): set<int> {
    set w | w in windows
  }

  function Grid(fasts: set<int>, slows: set<int>): set<Windows> {
    set f, s | f in fasts && s in slows :: Windows(f, s)
  }

  lemma SomeMember<T>(s: set<T>) returns (x: T)
    requires s != {}
    ensures x in s
  {
    x :| x in s;
  }

  lemma {:induction false} GridSize(fasts: set<int>, slows: set<int>)
    ensures |Grid(fasts, slows)| == |fasts| * |slows|
  {
    if fasts == {} {
      assert Grid(fasts, slows) == {};
    } else {
      var f := SomeMember(fasts);
      var rest := fasts - {f};
      GridSize(rest, slows);
      RowSize(f, slows);
      assert Grid(fasts, slows) == Grid(rest, slows) + Grid({f}, slows);
      assert Grid(rest, slows) !! Grid({f}, slows);
      assert |fasts| * |slows| == |rest| * |slows| + |slows| by { OneMore(|rest|, |slows|); }
    }
  }

  lemma OneMore(n: nat, m: nat)
    ensures (n + 1) * m == n * m + m
  {}

  lemma {:induction false} RowSize(f: int, slows: set<int>)
    ensures |Grid({f}, slows)| == |slows|
  {
    if slows == {} {
      assert Grid({f}, slows) == {};
    } else {
      var s := SomeMember(slows);
      RowSize(f, slows - {s});
      assert Grid({f}, slows) == Grid({f}, slows - {s}) + {Windows(f, s)};
    }
  }

  /** The grid has as many pairs as there are distinct fast windows times distinct slow ones. */
  lemma GridCounts(fasts: seq<int>, slows: seq<int>)
    ensures |CanonicalizeGrid(fasts, slows)| == |Declared(fasts)| * |Declared(slows)|
  {
    hide CanonicalizeGrid;
    var pairs := CanonicalizeGrid(fasts, slows);
    GridIsSortedProduct(fasts, slows);
    DistinctCounted(pairs);
    GridSize(Declared(fasts), Declared(slows));
    assert (set w | w in pairs) == Grid(Declared(fasts), Declared(slows));
  }

  // ---- Coverage ----

  /** The slow windows that bars must cover: those of the pairs with a faster window or, when no pair has
      one, all that were declared. */
  predicate MustCover(r: Request, slow: int) {
    && slow in r.slows
    && ((exists f :: f in r.fasts && f < slow) || forall f, s :: f in r.fasts && s in r.slows ==> s <= f)
  }

  /** The period resolves to bars, enough for every slow window to cover and two more. */
  ghost predicate Covered(db: Database, r: Request, start: int, end: int) {
    var snapshot := GetSnapshot(db, r.datasetId, r.instrumentId, start, end);
    snapshot.Some? && forall s :: MustCover(r, s) ==> s + 2 <= |snapshot.value|
  }

  lemma LargestMustBeCovered(r: Request)
    requires ValidGrid(r.fasts, r.slows)
    ensures var largest := LargestSlow(ValidPairs(CanonicalizeGrid(r.fasts, r.slows)), r.slows);
      MustCover(r, largest) && forall s :: MustCover(r, s) ==> s <= largest
  {
    hide CanonicalizeGrid, ValidPairs;
    var pairs := CanonicalizeGrid(r.fasts, r.slows);
    var valid := ValidPairs(pairs);
    ValidPairsAreListed(pairs);
    GridIsSortedProduct(r.fasts, r.slows);
    if valid == [] {
      MaxOfIsMax(r.slows);
      forall f, s | f in r.fasts && s in r.slows ensures s <= f {
        assert Windows(f, s) in pairs && Windows(f, s) !in valid;
      }
    } else {
      MaxOfIsMax(Slows(valid));
      var k :| 0 <= k < |valid| && Slows(valid)[k] == MaxOf(Slows(valid));
      assert valid[k] in valid;
      assert valid[k].fast in r.fasts && valid[k].slow in r.slows;
      forall s | MustCover(r, s) ensures s <= MaxOf(Slows(valid)) {
        if f :| f in r.fasts && f < s {
          assert Windows(f, s) in valid;
          var i :| 0 <= i < |valid| && valid[i] == Windows(f, s);
          assert Slows(valid)[i] == s;
        }
      }
    }
  }

  lemma CoverageChecked(db: Database, r: Request, start: int, end: int)
    requires ValidGrid(r.fasts, r.slows)
    ensures var refused :=
        CheckCoverage(db, r, start, end, LargestSlow(ValidPairs(CanonicalizeGrid(r.fasts, r.slows)), r.slows));
      var snapshot := GetSnapshot(db, r.datasetId, r.instrumentId, start, end);
      refused == if Covered(db, r, start, end) then None
                 else Some(if snapshot.None? then UnresolvedMapping else InsufficientCoverage)
  {
    hide GetSnapshot, LargestSlow, MustCover;
    LargestMustBeCovered(r);
  }

  // ---- Which requests are accepted ----

  /** The declared windows are positive, and there are some of either kind. */
  predicate WindowsOk(r: Request) {
    && r.fasts != [] && r.slows != []
    && (forall w :: w in r.fasts ==> 1 <= w) && (forall w :: w in r.slows ==> 1 <= w)
  }

  predicate PeriodsOk(p: Partitions) {
    && p.trainStart <= p.trainEnd && p.trainEnd < p.validationStart
    && p.validationStart <= p.validationEnd && p.validationEnd < p.holdoutStart
    && p.holdoutStart <= p.holdoutEnd
  }

  predicate References(db: Database, r: Request) {
    r.datasetId in db.datasets && r.instrumentId in db.instruments
  }

  predicate SizeOk(r: Request) {
    |Declared(r.fasts)| * |Declared(r.slows)| <= r.maxCandidateCount
  }

  ghost predicate AllCovered(db: Database, r: Request) {
    && Covered(db, r, r.partitions.trainStart, r.partitions.trainEnd)
    && Covered(db, r, r.partitions.validationStart, r.partitions.validationEnd)
    && Covered(db, r, r.partitions.holdoutStart, r.partitions.holdoutEnd)
  }

  /** Four bytes, with a sign. */
  predicate IsInt32(n: int) {
    -2147483648 <= n <= 2147483647
  }

  predicate InColumns(column: Column, r: Request) {
    && column(r.policy.capital).Some? && column(r.policy.fraction).Some?
    && column(r.policy.quantityIncrement).Some? && column(r.policy.riskFreeRate).Some?
    && IsInt32(r.policy.moneyScale) && IsInt32(r.policy.basis) && IsInt32(r.maxCandidateCount)
    && (forall w :: w in r.fasts ==> IsInt32(w)) && (forall w :: w in r.slows ==> IsInt32(w))
  }

  /** The first partition that is not covered decides between the two coverage errors. */
  ghost predicate FirstUncovered(db: Database, r: Request, e: CreateError) {
    var p := r.partitions;
    var start, end :=
      if !Covered(db, r, p.trainStart, p.trainEnd) then p.trainStart
      else if !Covered(db, r, p.validationStart, p.validationEnd) then p.validationStart
      else p.holdoutStart,
      if !Covered(db, r, p.trainStart, p.trainEnd) then p.trainEnd
      else if !Covered(db, r, p.validationStart, p.validationEnd) then p.validationEnd
      else p.holdoutEnd;
    e == if GetSnapshot(db, r.datasetId, r.instrumentId, start, end).None? then UnresolvedMapping
         else InsufficientCoverage
  }

  /** A request is accepted exactly when its windows, periods, references, size, coverage and columns are
      all in order; of several faults the first in this order is the answer. */
  lemma CreateDecides(column: Column, db: Database, r: Request, nextId: Id)
    ensures var c := Create(column, db, r, nextId);
      if !WindowsOk(r) then c == Err(InvalidGrid)
      else if !PeriodsOk(r.partitions) then c == Err(InvalidPartitions)
      else if r.datasetId !in db.datasets then c == Err(UnknownDataset)
      else if r.instrumentId !in db.instruments then c == Err(UnknownInstrument)
      else if !SizeOk(r) then c == Err(GridTooLarge)
      else if !AllCovered(db, r) then c.Err? && FirstUncovered(db, r, c.error)
      else if !InColumns(column, r) then c == Err(OutOfColumn)
      else c.Ok?
  {
    hide GetSnapshot, CheckCoverage, CanonicalizeGrid, LargestSlow, ValidPairs, Covered, OptimizationRun.Created;
    assert forall w :: w in r.fasts + r.slows <==> w in r.fasts || w in r.slows;
    if WindowsOk(r) {
      var p := r.partitions;
      GridCounts(r.fasts, r.slows);
      CoverageChecked(db, r, p.trainStart, p.trainEnd);
      CoverageChecked(db, r, p.validationStart, p.validationEnd);
      CoverageChecked(db, r, p.holdoutStart, p.holdoutEnd);
    }
  }

  // ---- What is stored ----

  function CandidatesWith(candidates: seq<Candidate>, status: CandidateStatus): set<nat> {
    set i: nat | i < |candidates| && candidates[i].result.status == status
  }

  function ValidAmong(pairs: seq<Windows>): set<nat> {
    set i: nat | i < |pairs| && pairs[i].fast < pairs[i].slow
  }

  function InvalidAmong(pairs: seq<Windows>): set<nat> {
    set i: nat | i < |pairs| && pairs[i].slow <= pairs[i].fast
  }

  lemma {:induction false} ValidPairsAppend(pairs: seq<Windows>, last: Windows)
    ensures ValidPairs(pairs + [last]) == ValidPairs(pairs) + if last.fast < last.slow then [last] else []
  {
    if pairs == [] {
      assert pairs + [last] == [last] && ValidPairs([]) == [] && [last][1..] == [];
    } else {
      ValidPairsAppend(pairs[1..], last);
      assert (pairs + [last])[1..] == pairs[1..] + [last];
    }
  }

  lemma AmongGrow(pairs: seq<Windows>, last: Windows)
    ensures var valid := last.fast < last.slow;
      && |ValidAmong(pairs + [last])| == |ValidAmong(pairs)| + (if valid then 1 else 0)
      && |InvalidAmong(pairs + [last])| == |InvalidAmong(pairs)| + (if valid then 0 else 1)
  {
    var n, valid := |pairs|, last.fast < last.slow;
    assert ValidAmong(pairs + [last]) == ValidAmong(pairs) + if valid then {n} else {};
    assert InvalidAmong(pairs + [last]) == InvalidAmong(pairs) + if valid then {} else {n};
  }

  lemma {:induction false} ValidPairsCounted(pairs: seq<Windows>)
    ensures |ValidPairs(pairs)| == |ValidAmong(pairs)| && |pairs| == |ValidAmong(pairs)| + |InvalidAmong(pairs)|
  {
    if pairs != [] {
      var before, last := Init(pairs), Last(pairs);
      ValidPairsCounted(before);
      ValidPairsAppend(before, last);
      assert before + [last] == pairs;
      AmongGrow(before, last);
      hide ValidAmong, InvalidAmong;
    }
  }

  /** The stored manifest says what the request said, its decimals as the columns keep them, and counts
      the candidates that are pending and those that were rejected. There is one candidate per pair of
      the grid, in lexicographic order, under the ids that follow the optimization's. */
  lemma CreatedRecords(column: Column, db: Database, r: Request, nextId: Id)
    requires Create(column, db, r, nextId).Ok?
    ensures var st := Create(column, db, r, nextId).value;
      var m, c := st.row.manifest, st.candidates;
      && m.optimizationId == nextId && m.datasetId == r.datasetId && m.instrumentId == r.instrumentId
      && m.partitions == r.partitions && m.objectiveKey == r.objectiveKey
      && Some(m.policy.capital) == column(r.policy.capital) && m.policy.currency == r.policy.currency
      && Some(m.policy.fraction) == column(r.policy.fraction)
      && Some(m.policy.quantityIncrement) == column(r.policy.quantityIncrement)
      && m.policy.moneyScale == r.policy.moneyScale && m.policy.basis == r.policy.basis
      && Some(m.policy.riskFreeRate) == column(r.policy.riskFreeRate)
      && m.candidateCount == |CandidatesWith(c, Pending)|
      && m.rejectedCount == |CandidatesWith(c, OptimizationRun.Rejected)|
      && st.nextId == nextId + 1 + |c|
      && (forall i :: 0 <= i < |c| ==> c[i].candidateId == nextId + 1 + i)
      && (forall i, j :: 0 <= i < j < |c| ==> WindowsLess(c[i].windows, c[j].windows))
      && (forall f, s :: f in r.fasts && s in r.slows <==> exists i :: 0 <= i < |c| && c[i].windows == Windows(f, s))
  {
    hide CheckCoverage, CanonicalizeGrid, LargestSlow, ValidPairs;
    var st, pairs := Create(column, db, r, nextId).value, CanonicalizeGrid(r.fasts, r.slows);
    var c := st.candidates;
    GridIsSortedProduct(r.fasts, r.slows);
    ValidPairsCounted(pairs);
    assert forall i :: 0 <= i < |c| ==> c[i] == NewCandidate(nextId + 1, i, pairs[i]);
    assert CandidatesWith(c, Pending) == ValidAmong(pairs);
    assert CandidatesWith(c, OptimizationRun.Rejected) == InvalidAmong(pairs);
    forall f, s
      ensures f in r.fasts && s in r.slows <==> exists i :: 0 <= i < |c| && c[i].windows == Windows(f, s)
    {
      assert Windows(f, s) in pairs <==> f in r.fasts && s in r.slows;
      if Windows(f, s) in pairs {
        var i :| 0 <= i < |pairs| && pairs[i] == Windows(f, s);
        assert c[i].windows == Windows(f, s);
      }
      if i :| 0 <= i < |c| && c[i].windows == Windows(f, s) {
        assert pairs[i] in pairs;
      }
    }
  }
}
