/** What holds in every state an optimization can reach, however many executors race on it and in
    whatever order their calls fall. */
module OptimizationLifecycle {
  import opened Wrappers
  import opened Optimization
  import opened BarStore
  import opened OptimizationRun
  import Domain
  import Engine
  import Signals
  import Trading
  import Sizing
  import Backtests
  import Artifact
  import Metrics

  // ---- The store just created ----

  predicate Untried(c: Candidate) {
    var status := if ValidPair(c.windows) then Pending else OptimizationRun.Rejected;
    c.result == CandidateResult(status, None, None, None, NoObjective, 0)
  }

  predicate Initial(st: Store) {
    && st.row.status == Status.Created && st.row.selection == None && st.row.holdout == None
    && st.row.failureCode == None
    && st.strategies == map[] && st.runs == map[]
    && OrderedPartitions(st.row.manifest.partitions)
    && |st.candidates| == st.row.manifest.candidateCount + st.row.manifest.rejectedCount
    && (forall i :: 0 <= i < |st.candidates| ==>
          Untried(st.candidates[i]) && 1 <= st.candidates[i].windows.fast && 1 <= st.candidates[i].windows.slow)
    && (forall i, j :: 0 <= i < j < |st.candidates| ==>
          st.candidates[i].candidateId != st.candidates[j].candidateId
              && st.candidates[i].windows != st.candidates[j].windows)
  }

  lemma {:induction false} ValidPairsFit(pairs: seq<Windows>)
    ensures |ValidPairs(pairs)| <= |pairs|
  {
    if pairs != [] {
      ValidPairsFit(pairs[1..]);
    }
  }

  /** Whatever request creation accepts, it stores one candidate per pair of the grid, all ids and all
      pairs distinct, rejected or pending by the pair alone. */
  lemma CreatedIsInitial(column: Column, db: Database, r: Request, nextId: Id)
    requires Create(column, db, r, nextId).Ok?
    ensures Initial(Create(column, db, r, nextId).value)
  {
    hide CheckCoverage, LargestSlow, CanonicalizeGrid;
    var st := Create(column, db, r, nextId).value;
    var pairs := CanonicalizeGrid(r.fasts, r.slows);
    GridIsSortedProduct(r.fasts, r.slows);
    ValidPairsFit(pairs);
    WindowsTotal();
    forall i | 0 <= i < |st.candidates|
      ensures st.candidates[i] == NewCandidate(nextId + 1, i, pairs[i])
      ensures 1 <= pairs[i].fast && 1 <= pairs[i].slow
    {
      assert pairs[i] in pairs;
      assert pairs[i].fast in r.fasts + r.slows && pairs[i].slow in r.fasts + r.slows;
    }
  }

  /** What is stored does not depend on any bar: two databases on which creation succeeds give the
      same store. */
  lemma CreationIgnoresBars(column: Column, a: Database, b: Database, r: Request, nextId: Id)
    requires Create(column, a, r, nextId).Ok? && Create(column, b, r, nextId).Ok?
    ensures Create(column, a, r, nextId) == Create(column, b, r, nextId)
  {
    hide CheckCoverage, LargestSlow, CanonicalizeGrid;
  }

  /** The status moves only along an allowed edge and only from the one that was expected; a code that was
      given is kept, and nothing else in the row changes. */
  lemma TransitionDecides(row: Row, expected: Status, next: Status, code: Option<FailureCode>)
    ensures var r := Transition(row, expected, next, code);
      && (r == Err(InvalidTransition) <==> !TransitionAllowed(expected, next))
      && (r == Err(Stale(row.status)) <==> TransitionAllowed(expected, next) && row.status != expected)
      && (r.Ok? <==> TransitionAllowed(expected, next) && row.status == expected)
      && (r.Ok? ==> r.value == row.(status := next, failureCode := if code == None then row.failureCode else code))
  {}

  // ---- Candidates ----

  predicate Inside<K, V(==)>(a: map<K, V>, b: map<K, V>) {
    forall k :: k in a ==> k in b && b[k] == a[k]
  }

  /** The run exists, was made with this strategy, covers this period and was executed. */
  predicate RunIs(st: Store, runId: Id, strategyId: Id, start: int, end: int) {
    && runId in st.runs
    && st.runs[runId].strategyId == strategyId && st.runs[runId].start == start && st.runs[runId].end == end
    && st.runs[runId].bundle.Some?
  }

  predicate TrainRunIs(st: Store, runId: Id, strategyId: Id) {
    RunIs(st, runId, strategyId, st.row.manifest.partitions.trainStart, st.row.manifest.partitions.trainEnd)
  }

  predicate ValidationRunIs(st: Store, runId: Id, strategyId: Id) {
    RunIs(st, runId, strategyId, st.row.manifest.partitions.validationStart, st.row.manifest.partitions.validationEnd)
  }

  predicate StrategyIs(st: Store, strategyId: Id, w: Windows) {
    strategyId in st.strategies && st.strategies[strategyId] == w
  }

  /** What trying a candidate may conclude from the artifacts of its runs: training failed, so nothing
      was validated; or training completed and validation failed; or both completed, and the objective
      is what the validation run's artifact says. The warnings of both runs are counted. */
  predicate Follows(key: Metrics.MetricKey, train: Artifact.Bundle, validation: Option<Artifact.Bundle>,
                    r: Evaluation) {
    match validation
    case None =>
      && train.terminalStatus.RunFailed? && r.status.CandidateFailed?
      && r.objective == NotAvailable(TrainRunFailed) && r.warningCount == train.warningCount
    case Some(v) =>
      && train.terminalStatus.RunCompleted? && r.warningCount == train.warningCount + v.warningCount
      && if v.terminalStatus.RunFailed?
         then r.status.CandidateFailed? && r.objective == NotAvailable(ValidationRunFailed)
         else r.status.CandidateCompleted? && r.objective == ObjectiveFrom(v, key)
  }

  /** A tried candidate: its strategy has its windows, its runs used that strategy on the training and
      validation periods, and its result follows from their artifacts. */
  predicate TriedWith(st: Store, w: Windows, r: Evaluation) {
    && r.strategyId.Some? && StrategyIs(st, r.strategyId.value, w)
    && r.trainRun.Some? && TrainRunIs(st, r.trainRun.value, r.strategyId.value)
    && (r.validationRun.Some? ==> ValidationRunIs(st, r.validationRun.value, r.strategyId.value))
    && Follows(st.row.manifest.objectiveKey, st.runs[r.trainRun.value].bundle.value,
               if r.validationRun.Some? then st.runs[r.validationRun.value].bundle else None, r)
  }

  /** A candidate is as created or, if it was pending, tried. */
  predicate CandidateOk(st: Store, was: Candidate, now: Candidate) {
    now == was ||
    (was.result.status.Pending? && now.candidateId == was.candidateId && now.windows == was.windows
        && TriedWith(st, now.windows, now.result))
  }

  predicate NonePending(candidates: seq<Candidate>) {
    forall i :: 0 <= i < |candidates| ==> !candidates[i].result.status.Pending?
  }

  /** The first `k` candidates are dealt with, the others are as created. */
  predicate DealtWith(st0: Store, st: Store, k: nat) {
    && |st.candidates| == |st0.candidates| && k <= |st.candidates|
    && (forall i :: 0 <= i < k ==> !st.candidates[i].result.status.Pending?)
    && (forall i :: k <= i < |st.candidates| ==> st.candidates[i] == st0.candidates[i])
  }

  // ---- Selection and holdout ----

  predicate Chosen(st: Store, chosen: Option<Candidate>) {
    && NonePending(st.candidates)
    && st.row.selection == Some(Choose(st.candidates))
    && st.row.selection.value.selected.Some?
    && chosen == FindCandidate(st.candidates, st.row.selection.value.selected.value)
  }

  predicate IsHoldoutRun(st: Store, runId: Id) {
    && runId in st.runs
    && st.runs[runId].start == st.row.manifest.partitions.holdoutStart
    && st.runs[runId].end == st.row.manifest.partitions.holdoutEnd
  }

  predicate AtMostOneHoldoutRun(st: Store) {
    forall a, b :: a in st.runs && b in st.runs && IsHoldoutRun(st, a) && IsHoldoutRun(st, b) ==> a == b
  }

  predicate NoHoldoutRun(st: Store) {
    forall r :: r in st.runs ==> !IsHoldoutRun(st, r)
  }

  /** The recorded holdout run is the only one, was made with the winner's strategy, and its recorded
      objective is what its artifact says. */
  predicate HoldoutOk(st: Store, h: HoldoutRecord) {
    && st.row.selection.Some? && st.row.selection.value.selected.Some?
    && IsHoldoutRun(st, h.runId)
    && (forall r :: r in st.runs && IsHoldoutRun(st, r) ==> r == h.runId)
    && (var winner := FindCandidate(st.candidates, st.row.selection.value.selected.value);
        winner.Some? && winner.value.result.strategyId == Some(st.runs[h.runId].strategyId))
    && st.runs[h.runId].bundle.Some?
    && var bundle := st.runs[h.runId].bundle.value;
       h.objective == (if bundle.terminalStatus.RunFailed? then NotAvailable(HoldoutRunFailed)
                       else ObjectiveFrom(bundle, st.row.manifest.objectiveKey))
  }

  // ---- The invariant ----

  /** What is true of the store alone. */
  ghost predicate StoreOk(st0: Store, st: Store) {
    && st.row.manifest == st0.row.manifest
    && |st.candidates| == |st0.candidates|
    && (forall i :: 0 <= i < |st.candidates| ==> CandidateOk(st, st0.candidates[i], st.candidates[i]))
    && (st.row.status == Status.Created ==> st.candidates == st0.candidates)
    && (forall k :: k in st.strategies ==> k < st.nextId)
    && (forall k :: k in st.runs ==> k < st.nextId)
    && SelectionOk(st) && AtMostOneHoldoutRun(st)
  }

  predicate SelectionOk(st: Store) {
    && (st.row.selection.Some? ==> NonePending(st.candidates) && st.row.selection.value == Choose(st.candidates))
    && (st.row.holdout.Some? ==> HoldoutOk(st, st.row.holdout.value))
    && (match st.row.status
        case Created => st.row.selection == None && NoHoldoutRun(st)
        case Validating => st.row.selection == None && NoHoldoutRun(st)
        case RunningTrainValidation => st.row.selection == None && NoHoldoutRun(st)
        case Selecting => NonePending(st.candidates) && NoHoldoutRun(st)
        case RunningHoldout => st.row.selection.Some? && st.row.selection.value.selected.Some?
        case Completed => st.row.holdout.Some?
        case Failed => st.row.holdout == None
        case Cancelled => false)
    && st.row.failureCode == ExpectedCode(st.row)
  }

  /** A choice was made, of nobody. */
  predicate Unselected(row: Row) {
    row.selection.Some? && row.selection.value.selected.None?
  }

  /** Only a failed optimization has a failure code: that no candidate could be chosen, or an error. */
  function ExpectedCode(row: Row): Option<FailureCode> {
    if row.status != Failed then None else Some(if Unselected(row) then NoEligibleCandidate else UnexpectedError)
  }

  /** Errors that no execution runs into: they would mean the code broke its own rules. */
  predicate Internal(e: Error) {
    e.InvalidTransition? || e.InvalidParameters? || e.StrategyNotFound? || e.AssertionFailed?
  }

  /** Has this executor got past the compare-and-set from `created`, without having raised? */
  predicate Owner(e: Executor) {
    !(e.Start? || e.ToValidating? || e.Raised?)
  }

  predicate Suffix(all: seq<Candidate>, todo: seq<Candidate>) {
    |todo| <= |all| && todo == all[|all| - |todo|..]
  }

  predicate Working(st0: Store, st: Store, c: Candidate, todo: seq<Candidate>) {
    && st.row.status == RunningTrainValidation
    && c.result.status.Pending? && Suffix(st0.candidates, [c] + todo)
    && DealtWith(st0, st, |st0.candidates| - |todo| - 1)
  }

  /** What an executor's position says about the store. */
  predicate ExecutorOk(st0: Store, st: Store, e: Executor) {
    match e
    case Start => true
    case ToValidating => true
    case ToTraining => st.row.status == Validating && DealtWith(st0, st, 0)
    case ListPending => st.row.status == RunningTrainValidation && DealtWith(st0, st, 0)
    case NextCandidate(todo) =>
      st.row.status == RunningTrainValidation && Suffix(st0.candidates, todo)
          && DealtWith(st0, st, |st0.candidates| - |todo|)
    case Derive(c, todo) => Working(st0, st, c, todo)
    case Train(c, todo, s) => Working(st0, st, c, todo) && StrategyIs(st, s, c.windows)
    case Validate(c, todo, s, t) =>
      Working(st0, st, c, todo) && StrategyIs(st, s, c.windows) && TrainRunIs(st, t, s)
        && st.runs[t].bundle.value.terminalStatus.RunCompleted?
    case Record(c, todo, r) => Working(st0, st, c, todo) && TriedWith(st, c.windows, r)
    case AbortTraining(error) => st.row.status == RunningTrainValidation && !Internal(error)
    case ToSelecting => st.row.status == RunningTrainValidation && NonePending(st.candidates)
    case ChooseBest => st.row.status == Selecting && st.row.holdout == None
    case RecordSelection(selection, chosen) =>
      && st.row.status == Selecting && st.row.holdout == None
      && selection == Choose(st.candidates)
      && chosen == (if selection.selected.Some? then FindCandidate(st.candidates, selection.selected.value) else None)
    case FinishUnselected => st.row.status == Selecting && st.row.holdout == None && Unselected(st.row)
    case ToHoldout(chosen) => st.row.status == Selecting && st.row.holdout == None && Chosen(st, chosen)
    case RunHoldout(chosen) =>
      st.row.status == RunningHoldout && st.row.holdout == None && Chosen(st, chosen) && NoHoldoutRun(st)
    case AbortHoldout(error) => st.row.status == RunningHoldout && st.row.holdout == None && !Internal(error)
    case RecordHoldout(h) => st.row.status == RunningHoldout && st.row.holdout == None && HoldoutOk(st, h)
    case ToCompleted => st.row.status == RunningHoldout && st.row.holdout.Some?
    case Done => Terminal(st.row.status)
    case Raised(error) => !Internal(error)
  }

  ghost predicate Inv(st0: Store, sys: System) {
    && StoreOk(st0, sys.store)
    && (forall i :: 0 <= i < |sys.executors| ==> ExecutorOk(st0, sys.store, sys.executors[i]))
    && (forall i, j :: 0 <= i < j < |sys.executors| ==> !(Owner(sys.executors[i]) && Owner(sys.executors[j])))
  }

  // ---- Runs ----

  /** What executing a created run leaves when nobody else executes it, put plainly: a rejection for
      want of bars; or the artifact built from the engine's result on the snapshot; or an error when
      that was not built or written. */
  function PeriodAlone(env: Env, m: Manifest, w: Windows, snapshot: Option<seq<Domain.Bar>>, runId: Id): PeriodOutcome
    requires Sizing.ValidParams(RunParams(m, w))
  {
    match snapshot
    case None => PeriodRaised(Some(runId), Run(Backtests.Rejected(Backtests.UnresolvedInstrumentMapping)), runId + 1)
    case Some(bars) =>
      if bars == [] then PeriodRaised(Some(runId), Run(Backtests.Rejected(Backtests.EmptyBarSnapshot)), runId + 1)
      else
        var bundle, nextId := BundleOf(env, m, w, bars, runId), IdsAfter(env, m, w, bars, runId);
        if bundle.Some? && env.writes(runId) then Ran(runId, bundle.value, nextId)
        else PeriodRaised(Some(runId), Run(Backtests.ArtifactFailed), nextId)
  }

  /** The error of one who found that somebody else had moved the run. */
  predicate LostRun(e: Error) {
    e.Run? && Backtests.Lost(e.error)
  }

  /** Was it this executor that claimed the run? */
  predicate Claims(env: Env, m: Manifest, w: Windows, snapshot: Option<seq<Domain.Bar>>, runId: Id)
    requires Sizing.ValidParams(RunParams(m, w))
  {
    Backtests.Contested(PeriodJob(env, m, w, snapshot, runId), env.rivals(runId)).claimed == [0]
  }

  /** Whoever else tries to execute the run, in whatever order the calls fall: the outcome is what it
      would be alone, or the exception that somebody else was first. It is the former when nobody else
      takes a turn; and the run succeeds exactly when this executor made the claim and its bundle is
      built and written. */
  lemma RunPeriodExactly(env: Env, m: Manifest, w: Windows, snapshot: Option<seq<Domain.Bar>>, runId: Id)
    requires Sizing.ValidParams(RunParams(m, w))
    ensures var o, alone := ExecutePeriod(env, m, w, snapshot, runId), PeriodAlone(env, m, w, snapshot, runId);
      && (o == alone || (o.PeriodRaised? && LostRun(o.error) && o.run == Some(runId) && o.nextId == alone.nextId))
      && (Backtests.Quiet(env.rivals(runId)) ==> o == alone)
      && (o.Ran? <==> alone.Ran? && Claims(env, m, w, snapshot, runId))
  {
    hide Artifact.Build, Engine.ExecuteGuarded, IdsAfter, Backtests.Contested, Backtests.Quiet;
    var job, rivals := PeriodJob(env, m, w, snapshot, runId), env.rivals(runId);
    Backtests.ContestEnds(job, rivals);
    if Backtests.Quiet(rivals) {
      Backtests.QuietNeverLoses(job, rivals);
    }
    if snapshot.Some? && snapshot.value != [] {
      assert job.engine(snapshot.value) == Some(EngineResult(env, m, w, snapshot.value, runId));
    }
  }

  /** Run ids are fresh, and the errors a run can raise are never internal ones. */
  lemma RunPeriodOutcome(env: Env, db: Database, m: Manifest, w: Windows, start: int, end: int, nextId: Id)
    ensures var o := RunPeriod(env, db, m, w, start, end, nextId);
      && (o.Ran? ==> o.runId == nextId < o.nextId)
      && (o.PeriodRaised? ==> nextId <= o.nextId && !Internal(o.error))
      && (o.PeriodRaised? && o.run.Some? ==> o.run.value == nextId < o.nextId)
  {
    hide Artifact.Build, Engine.ExecuteGuarded, GetSnapshot, ExecutePeriod, Engine.IdsDrawn;
    if RefuseRun(db, m, w, start, end).None? {
      var snapshot := GetSnapshot(db, m.datasetId, m.instrumentId, start, end);
      RunPeriodExactly(env, m, w, snapshot, nextId);
      if snapshot.Some? && snapshot.value != [] {
        IdsOnlyGrow(SetupOf(env, m, w), snapshot.value, nextId + 1, env.fault(w, snapshot.value));
      }
    }
  }

  /** The ids drawn for a run on a set of bars: its own, one for each order submitted until the library
      stopped, and two for the artifact when there is one. */
  lemma RunDrawsIds(env: Env, m: Manifest, w: Windows, bars: seq<Domain.Bar>, runId: Id)
    requires Sizing.ValidParams(RunParams(m, w)) && Domain.Chronological(bars)
    ensures var fault := env.fault(w, bars);
      var stopped := if fault.Some? && fault.value <= |bars| then fault.value else |bars|;
      var s := Engine.Run(SetupOf(env, m, w), bars, stopped, runId + 1);
      IdsAfter(env, m, w, bars, runId)
      == runId + 1 + |s.orders| + |s.inbox| + if BundleOf(env, m, w, bars, runId) == None then 0 else 2
  {
    hide Engine.Run, BundleOf;
    Signals.GuardedReports(SetupOf(env, m, w), bars, runId + 1, env.fault(w, bars));
  }

  lemma IdsOnlyGrow(setup: Engine.Setup, bars: seq<Domain.Bar>, firstId: Id, fault: Engine.Fault)
    requires Sizing.ValidParams(setup.params)
    ensures firstId <= Engine.IdsDrawn(setup, bars, firstId, fault)
  {
    hide Engine.OnBar;
    Trading.RecordsGrow(setup, bars, 0, if Engine.Raises(bars, fault) then fault.value else |bars|, firstId);
    assert Engine.Run(setup, bars, 0, firstId).idsDrawn == firstId;
  }
}
