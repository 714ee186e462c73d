/** When an accepted optimization runs without an error. Creation checks that every partition holds
    enough bars, but not what run creation checks later: the dataset's declared coverage and checksum,
    a period of more than one day, the currency and the policy's numbers as they were stored. */
module OptimizationFeasibility {
  import opened Wrappers
  import opened Sequences
  import opened Optimization
  import opened BarStore
  import opened OptimizationRun
  import opened OptimizationLifecycle
  import opened OptimizationSteps
  import opened OptimizationSafety
  import Artifact
  import Backtests
  import Documents
  import Domain
  import Metrics
  import Sizing

  predicate SoundPolicy(p: Policy) {
    && 0.0 < p.capital && !Documents.Blank(p.currency)
    && 0.0 < p.fraction <= 1.0
    && 0.0 < p.quantityIncrement && 0 <= p.moneyScale
    && 1 <= p.basis && 0.0 <= p.riskFreeRate
  }

  /** The period is inside the dataset's declared coverage and ends after the day it starts, the
      dataset has a checksum, and the policy is sound. */
  predicate Runnable(db: Database, m: Manifest, start: int, end: int) {
    && m.datasetId in db.datasets && SoundPolicy(m.policy) && start < end
    && var d := db.datasets[m.datasetId];
       && Signed(d) && d.coverageStart.Some? && d.coverageEnd.Some?
       && d.coverageStart.value <= start && end <= d.coverageEnd.value
  }

  predicate AllRunnable(db: Database, m: Manifest) {
    && Runnable(db, m, m.partitions.trainStart, m.partitions.trainEnd)
    && Runnable(db, m, m.partitions.validationStart, m.partitions.validationEnd)
    && Runnable(db, m, m.partitions.holdoutStart, m.partitions.holdoutEnd)
  }

  predicate Filled(db: Database, m: Manifest, start: int, end: int) {
    var s := GetSnapshot(db, m.datasetId, m.instrumentId, start, end);
    s.Some? && s.value != []
  }

  predicate IsPartition(p: Partitions, start: int, end: int) {
    || (start == p.trainStart && end == p.trainEnd)
    || (start == p.validationStart && end == p.validationEnd)
    || (start == p.holdoutStart && end == p.holdoutEnd)
  }

  /** What creation checked. */
  ghost predicate Accepted(db: Database, m: Manifest) {
    && m.datasetId in db.datasets && m.instrumentId in db.instruments
    && forall start, end :: IsPartition(m.partitions, start, end) ==> Filled(db, m, start, end)
  }

  lemma {:induction false} MaxOfIsMax(xs: seq<int>)
    requires xs != []
    ensures MaxOf(xs) in xs && forall i :: 0 <= i < |xs| ==> xs[i] <= MaxOf(xs)
  {
    if |xs| > 1 {
      MaxOfIsMax(xs[1..]);
      assert forall i :: 1 <= i < |xs| ==> xs[i] == xs[1..][i - 1];
    }
  }

  lemma {:induction false} ValidPairsAreListed(pairs: seq<Windows>)
    ensures forall w :: w in ValidPairs(pairs) <==> w in pairs && ValidPair(w)
  {
    if pairs != [] {
      ValidPairsAreListed(pairs[1..]);
      assert forall w :: w in pairs <==> w == pairs[0] || w in pairs[1..];
    }
  }

  /** The largest slow window is positive, and none of a valid pair is larger. */
  lemma LargestSlowIsLargest(fasts: seq<int>, slows: seq<int>)
    requires ValidGrid(fasts, slows)
    ensures var pairs := CanonicalizeGrid(fasts, slows); var largest := LargestSlow(ValidPairs(pairs), slows);
      1 <= largest && forall w :: w in pairs && ValidPair(w) ==> w.slow <= largest
  {
    hide CanonicalizeGrid, ValidPairs;
    var valid := ValidPairs(CanonicalizeGrid(fasts, slows));
    ValidPairsAreListed(CanonicalizeGrid(fasts, slows));
    GridIsSortedProduct(fasts, slows);
    MaxOfIsMax(slows);
    assert forall x :: x in slows ==> x in fasts + slows;
    if valid != [] {
      MaxOfIsMax(Slows(valid));
      var k :| 0 <= k < |valid| && Slows(valid)[k] == MaxOf(Slows(valid));
      assert valid[k] in valid;
      forall w | w in valid ensures w.slow <= MaxOf(Slows(valid)) {
        var i :| 0 <= i < |valid| && valid[i] == w;
        assert Slows(valid)[i] == w.slow;
      }
    }
  }

  /** What creation guarantees: in every partition, every candidate that will be tried has its warm-up
      window, a bar to signal on and a bar to fill on. */
  lemma CreatedCoversWarmup(column: Column, db: Database, r: Request, nextId: Id, c: Candidate, start: int, end: int)
    requires Create(column, db, r, nextId).Ok?
    requires c in Create(column, db, r, nextId).value.candidates && c.result.status.Pending?
    requires IsPartition(r.partitions, start, end)
    ensures var s := GetSnapshot(db, r.datasetId, r.instrumentId, start, end);
      s.Some? && c.windows.slow + 2 <= |s.value|
  {
    hide CanonicalizeGrid, ValidPairs, LargestSlow, GetSnapshot;
    LargestSlowIsLargest(r.fasts, r.slows);
    var st := Create(column, db, r, nextId).value;
    var i :| 0 <= i < |st.candidates| && st.candidates[i] == c;
    assert c == NewCandidate(nextId + 1, i, CanonicalizeGrid(r.fasts, r.slows)[i]);
  }

  lemma CreatedIsAccepted(column: Column, db: Database, r: Request, nextId: Id)
    requires Create(column, db, r, nextId).Ok?
    ensures Accepted(db, Create(column, db, r, nextId).value.row.manifest)
  {
    hide CanonicalizeGrid, ValidPairs, LargestSlow, GetSnapshot;
    LargestSlowIsLargest(r.fasts, r.slows);
  }

  /** A run of an accepted partition succeeds exactly when the partition is runnable, which is what
      creation leaves unchecked, its artifact is built and written, and nobody else claims it first. */
  lemma AcceptedRunsIff(env: Env, db: Database, m: Manifest, w: Windows, start: int, end: int, nextId: Id)
    requires Accepted(db, m) && IsPartition(m.partitions, start, end) && 1 <= w.slow
    ensures var o := RunPeriod(env, db, m, w, start, end, nextId);
      var bars := GetSnapshot(db, m.datasetId, m.instrumentId, start, end);
      && bars.Some?
      && (o.Ran? <==>
            && Runnable(db, m, start, end)
            && BundleOf(env, m, w, bars.value, nextId).Some? && env.writes(nextId)
            && Claims(env, m, w, bars, nextId))
      && (o.PeriodRaised? && Runnable(db, m, start, end) ==>
            o.error == Run(Backtests.ArtifactFailed) || (LostRun(o.error) && !Backtests.Quiet(env.rivals(nextId))))
  {
    hide GetSnapshot, ExecutePeriod, BundleOf, IdsAfter, Claims, Backtests.Quiet;
    assert Filled(db, m, start, end);
    if RefuseRun(db, m, w, start, end).None? {
      RunPeriodExactly(env, m, w, GetSnapshot(db, m.datasetId, m.instrumentId, start, end), nextId);
    }
  }

  /** Why a run is not created: an unknown dataset or instrument, a period outside the declared coverage,
      one that does not end after the day it starts, or whatever else is not runnable. The last two are
      found only after the run's id was drawn. */
  lemma RefusalsDecide(env: Env, db: Database, m: Manifest, w: Windows, start: int, end: int, nextId: Id)
    ensures var o := RunPeriod(env, db, m, w, start, end, nextId);
      if m.datasetId !in db.datasets then o == PeriodRaised(None, DatasetNotFound, nextId)
      else if m.instrumentId !in db.instruments then o == PeriodRaised(None, InstrumentNotFound, nextId)
      else
        var d := db.datasets[m.datasetId];
        if !(&& d.coverageStart.Some? && d.coverageStart.value <= start
             && d.coverageEnd.Some? && end <= d.coverageEnd.value)
        then o == PeriodRaised(None, PeriodOutOfCoverage, nextId)
        else if end <= start && d.contentChecksum.Some? && d.contentChecksum.value != ""
        then o == PeriodRaised(None, InvalidPeriod, nextId + 1)
        else if !Runnable(db, m, start, end) || w.slow < 1 then o == PeriodRaised(None, InvalidManifest, nextId + 1)
        else o.Ran? || o.run == Some(nextId)
  {
    hide GetSnapshot, ExecutePeriod, PeriodAlone;
    if RefuseRun(db, m, w, start, end).None? {
      PeriodHasRun(env, m, w, GetSnapshot(db, m.datasetId, m.instrumentId, start, end), nextId);
    }
  }

  lemma PeriodHasRun(env: Env, m: Manifest, w: Windows, snapshot: Option<seq<Domain.Bar>>, runId: Id)
    requires Sizing.ValidParams(RunParams(m, w))
    ensures var o := ExecutePeriod(env, m, w, snapshot, runId); o.Ran? || o.run == Some(runId)
  {
    hide BundleOf, IdsAfter, Claims;
    RunPeriodExactly(env, m, w, snapshot, runId);
  }

  lemma CreatedNeedsRunnable(env: Env, db: Database, m: Manifest, w: Windows, start: int, end: int, nextId: Id)
    ensures var o := RunPeriod(env, db, m, w, start, end, nextId);
      o.Ran? || o.run.Some? ==> Runnable(db, m, start, end)
  {
    hide GetSnapshot, ExecutePeriod;
  }

  // ---- Whole executions ----

  /** Strategies have positive windows and every run that was made is of a runnable period. */
  predicate Sane(db: Database, st: Store) {
    && (forall k :: k in st.strategies ==> 1 <= st.strategies[k].slow)
    && (forall k :: k in st.runs ==> Runnable(db, st.row.manifest, st.runs[k].start, st.runs[k].end))
  }

  /** Artifacts are always built and written, and nobody else executes the runs made here. */
  ghost predicate Reliable(env: Env) {
    && (forall id: Id :: env.writes(id))
    && (forall id: Id :: Backtests.Quiet(env.rivals(id)))
    && forall ratio: real, basis: int, sessions: int :: env.power(ratio, basis, sessions).Some?
  }

  /** The failures of a runnable period: over its artifact, or because somebody else executed the run. */
  predicate OnRun(e: Error) {
    e == Run(Backtests.ArtifactFailed) || LostRun(e)
  }

  ghost predicate Mishap(env: Env, e: Error) {
    OnRun(e) && !Reliable(env)
  }

  /** If this executor raised, then because another one came first, or over a mishap with a run. */
  ghost predicate Calm(env: Env, e: Executor) {
    && (e.AbortTraining? || e.AbortHoldout? ==> Mishap(env, e.error))
    && (e.Raised? ==> e.error.NotEligible? || e.error.Stale? || Mishap(env, e.error))
  }

  ghost predicate CalmRow(env: Env, row: Row) {
    row.failureCode == Some(UnexpectedError) ==> !Reliable(env)
  }

  lemma RunKeepsSane(env: Env, db: Database, st: Store, strategyId: Id, start: int, end: int)
    requires Sane(db, st)
    ensures Sane(db, RunStrategy(env, db, st, strategyId, start, end).0)
  {
    hide RunPeriod, Runnable;
    if strategyId in st.strategies {
      CreatedNeedsRunnable(env, db, st.row.manifest, st.strategies[strategyId], start, end, st.nextId);
    }
  }

  lemma StepKeepsSane(env: Env, db: Database, id: Id, st: Store, e: Executor)
    requires Sane(db, st)
    ensures Sane(db, Step(env, db, id, st, e).0)
  {
    hide Runnable, RunStrategy, Choose, FindCandidate, RecordCandidate, ObjectiveFrom;
    var p := st.row.manifest.partitions;
    if e.Train? {
      RunKeepsSane(env, db, st, e.strategyId, p.trainStart, p.trainEnd);
    } else if e.Validate? {
      RunKeepsSane(env, db, st, e.strategyId, p.validationStart, p.validationEnd);
    } else if e.RunHoldout? && e.chosen.Some? && e.chosen.value.result.strategyId.Some? {
      RunKeepsSane(env, db, st, e.chosen.value.result.strategyId.value, p.holdoutStart, p.holdoutEnd);
    }
  }

  lemma RunSucceeds(env: Env, db: Database, st: Store, strategyId: Id, start: int, end: int)
    requires Accepted(db, st.row.manifest) && AllRunnable(db, st.row.manifest) && Sane(db, st)
    requires IsPartition(st.row.manifest.partitions, start, end)
    ensures var (next, o) := RunStrategy(env, db, st, strategyId, start, end);
      next.row == st.row && (o.Ran? || (o.PeriodRaised? && (o.error == StrategyNotFound || Mishap(env, o.error))))
  {
    hide RunPeriod, Accepted, Runnable, BundleOf, Reliable;
    if strategyId in st.strategies {
      var m, w := st.row.manifest, st.strategies[strategyId];
      AcceptedRunsIff(env, db, m, w, start, end, st.nextId);
      var o := RunPeriod(env, db, m, w, start, end, st.nextId);
      if o.PeriodRaised? && Reliable(env) {
        QuietRunsSucceed(env, db, m, w, start, end, st.nextId);
      }
    }
  }

  lemma BundlesBuilt(env: Env, db: Database, m: Manifest, w: Windows, start: int, end: int, runId: Id)
    requires Reliable(env) && Runnable(db, m, start, end) && 1 <= w.slow
    ensures env.writes(runId) && forall bars: seq<Domain.Bar> :: BundleOf(env, m, w, bars, runId).Some?
  {
    forall bars: seq<Domain.Bar> ensures BundleOf(env, m, w, bars, runId).Some? {
      Artifact.BundleConsistent(EngineResult(env, m, w, bars, runId), bars, m.policy.capital, m.policy.basis, env.power,
                                Metrics.FinalEquity);
    }
  }

  lemma QuietRunsSucceed(env: Env, db: Database, m: Manifest, w: Windows, start: int, end: int, nextId: Id)
    requires Accepted(db, m) && IsPartition(m.partitions, start, end) && Runnable(db, m, start, end) && 1 <= w.slow
    requires Reliable(env)
    ensures RunPeriod(env, db, m, w, start, end, nextId).Ran?
  {
    hide GetSnapshot, ExecutePeriod, BundleOf, IdsAfter, Claims, Backtests.Quiet;
    assert Filled(db, m, start, end);
    RunPeriodExactly(env, m, w, GetSnapshot(db, m.datasetId, m.instrumentId, start, end), nextId);
    BundlesBuilt(env, db, m, w, start, end, nextId);
  }

  predicate RunsAPeriod(e: Executor) {
    e.Train? || e.Validate? || e.RunHoldout?
  }

  lemma OtherStepStaysCalm(env: Env, db: Database, id: Id, st0: Store, st: Store, e: Executor)
    requires Calm(env, e) && !RunsAPeriod(e) && CalmRow(env, st.row)
    requires id == st.row.manifest.optimizationId
    requires ExecutorOk(st0, Step(env, db, id, st, e).0, Step(env, db, id, st, e).1)
    ensures var (next, e') := Step(env, db, id, st, e);
      Calm(env, e') && CalmRow(env, next.row) && next.row.manifest == st.row.manifest
  {
    hide RunStrategy, Choose, FindCandidate, RecordCandidate, ObjectiveFrom, Working, NonePending, Chosen,
         HoldoutOk, TriedWith, DealtWith, Reliable;
  }

  /** Where a call that runs a period goes: on, unless the run raised. */
  lemma RunStepGoes(env: Env, db: Database, id: Id, st: Store, e: Executor)
    requires Accepted(db, st.row.manifest) && AllRunnable(db, st.row.manifest) && Sane(db, st)
    requires RunsAPeriod(e)
    ensures var (next, e') := Step(env, db, id, st, e);
      && next.row == st.row
      && (Calm(env, e') || e' in {AbortTraining(StrategyNotFound), AbortHoldout(StrategyNotFound),
          Raised(AssertionFailed)})
  {
    hide Accepted, AllRunnable, Sane, RunStrategy, ObjectiveFrom, Mishap;
    var p := st.row.manifest.partitions;
    match e
    case Train(_, _, s) => RunSucceeds(env, db, st, s, p.trainStart, p.trainEnd);
    case Validate(_, _, s, _) => RunSucceeds(env, db, st, s, p.validationStart, p.validationEnd);
    case RunHoldout(chosen) =>
      if chosen.Some? && chosen.value.result.strategyId.Some? {
        RunSucceeds(env, db, st, chosen.value.result.strategyId.value, p.holdoutStart, p.holdoutEnd);
      }
  }

  lemma NoInternalError(st0: Store, st: Store, e: Executor)
    requires ExecutorOk(st0, st, e)
    ensures e !in {AbortTraining(StrategyNotFound), AbortHoldout(StrategyNotFound), Raised(AssertionFailed)}
  {}

  lemma StepStaysCalm(env: Env, db: Database, id: Id, st0: Store, st: Store, e: Executor)
    requires Accepted(db, st.row.manifest) && AllRunnable(db, st.row.manifest) && Sane(db, st)
    requires Calm(env, e) && CalmRow(env, st.row)
    requires id == st.row.manifest.optimizationId
    requires Kept(st0, st, e, Step(env, db, id, st, e))
    ensures var (next, e') := Step(env, db, id, st, e);
      Calm(env, e') && CalmRow(env, next.row) && next.row.manifest == st.row.manifest
  {
    hide Accepted, AllRunnable, Sane, StoreOk, ExecutorOk, Step, Calm;
    if RunsAPeriod(e) {
      RunStepGoes(env, db, id, st, e);
      NoInternalError(st0, Step(env, db, id, st, e).0, Step(env, db, id, st, e).1);
    } else {
      OtherStepStaysCalm(env, db, id, st0, st, e);
    }
  }

  ghost predicate AllCalm(env: Env, executors: seq<Executor>) {
    forall i :: 0 <= i < |executors| ==> Calm(env, executors[i])
  }

  lemma {:induction false} AlwaysSane(env: Env, db: Database, sys: System, schedule: seq<nat>)
    requires Fresh(sys)
    ensures Sane(db, Interleave(env, db, sys, schedule).store)
  {
    hide Step, Sane;
    if schedule == [] {
      assert Sane(db, sys.store) by { NothingMade(db, sys.store); }
    } else {
      AlwaysSane(env, db, sys, Init(schedule));
      var s := Interleave(env, db, sys, Init(schedule));
      if Last(schedule) < |s.executors| {
        StepKeepsSane(env, db, s.store.row.manifest.optimizationId, s.store, s.executors[Last(schedule)]);
      }
    }
  }

  lemma NothingMade(db: Database, st: Store)
    requires Initial(st)
    ensures Sane(db, st)
  {}

  lemma {:induction false} AlwaysCalm(env: Env, db: Database, sys: System, schedule: seq<nat>)
    requires Fresh(sys) && sys.store.row.failureCode == None
    requires Accepted(db, sys.store.row.manifest) && AllRunnable(db, sys.store.row.manifest)
    ensures var s := Interleave(env, db, sys, schedule);
      AllCalm(env, s.executors) && CalmRow(env, s.store.row) && s.store.row.manifest == sys.store.row.manifest
  {
    hide Step, Reliable, Sane, Accepted, AllRunnable, Kept, Initial, StoreOk, ExecutorOk;
    if schedule != [] {
      AlwaysCalm(env, db, sys, Init(schedule));
      AlwaysSane(env, db, sys, Init(schedule));
      AlwaysInv(env, db, sys, Init(schedule));
      var s, i := Interleave(env, db, sys, Init(schedule)), Last(schedule);
      if i < |s.executors| {
        var id := s.store.row.manifest.optimizationId;
        StepKept(env, db, id, sys.store, s.store, s.executors[i]);
        StepStaysCalm(env, db, id, sys.store, s.store, s.executors[i]);
      }
    }
  }

  /** An accepted request whose three periods are runnable meets an unexpected error only over an
      artifact that could not be built or written or a run that somebody else executed, whatever the
      schedule; and none at all when neither happens, an executor then raising only because another
      one came first. */
  lemma RunnableNeverErrs(env: Env, column: Column, db: Database, r: Request, nextId: Id, executors: seq<Executor>,
                          schedule: seq<nat>)
    requires Create(column, db, r, nextId).Ok? && AllRunnable(db, Create(column, db, r, nextId).value.row.manifest)
    requires forall i :: 0 <= i < |executors| ==> executors[i].Start?
    ensures var s := Interleave(env, db, System(Create(column, db, r, nextId).value, executors), schedule);
      && (forall i :: 0 <= i < |s.executors| && s.executors[i].Raised? ==>
            var e := s.executors[i].error; e.NotEligible? || e.Stale? || OnRun(e))
      && (Reliable(env) ==>
            && s.store.row.failureCode != Some(UnexpectedError)
            && forall i :: 0 <= i < |s.executors| && s.executors[i].Raised? ==>
                 var e := s.executors[i].error; e.NotEligible? || e.Stale?)
  {
    hide Interleave, AllRunnable, Accepted, Initial, Reliable;
    CreatedIsInitial(column, db, r, nextId);
    CreatedIsAccepted(column, db, r, nextId);
    var sys := System(Create(column, db, r, nextId).value, executors);
    assert sys.store.row.failureCode == None by { hide CheckCoverage, CanonicalizeGrid; }
    AlwaysCalm(env, db, sys, schedule);
    var s := Interleave(env, db, sys, schedule);
    assert forall i :: 0 <= i < |s.executors| ==> Calm(env, s.executors[i]);
  }

  /** And only such a request can complete. */
  lemma CompletedWasRunnable(env: Env, db: Database, sys: System, schedule: seq<nat>)
    requires Fresh(sys) && Interleave(env, db, sys, schedule).store.row.status == Completed
    ensures AllRunnable(db, sys.store.row.manifest)
  {
    hide Interleave, Runnable, Choose, FindCandidate, Initial;
    AlwaysSane(env, db, sys, schedule);
    AlwaysInv(env, db, sys, schedule);
    var w := CompletedMeans(env, db, sys, schedule);
    var st := Interleave(env, db, sys, schedule).store;
    assert CandidateOk(st, sys.store.candidates[w], st.candidates[w]);
    assert sys.store.candidates[w].result.status != CandidateCompleted by { NoneCompleted(sys.store, w); }
    assert TriedWith(st, st.candidates[w].windows, st.candidates[w].result);
  }

  lemma NoneCompleted(st: Store, i: nat)
    requires Initial(st) && i < |st.candidates|
    ensures st.candidates[i].result.status != CandidateCompleted
  {}
}
