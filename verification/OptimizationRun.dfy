/** Creating an optimization, and executing it: train and validate every candidate, choose one, run it
    once on the holdout period. An executor is described by the call it is about to make, so that
    several of them can be interleaved on one store. */
module OptimizationRun {
  import opened Wrappers
  import opened Sequences
  import opened Optimization
  import opened BarStore
  import Domain
  import Sizing
  import Engine
  import Metrics
  import Artifact
  import Backtests
  import Documents

  // ---- Stored records ----

  datatype Policy = Policy(capital: real, currency: string, fraction: real, quantityIncrement: real, moneyScale: int,
                           basis: int, riskFreeRate: real)

  datatype Manifest = Manifest(optimizationId: Id, datasetId: Id, instrumentId: Id,
                               partitions: Partitions, policy: Policy,
                               objectiveKey: Metrics.MetricKey, candidateCount: nat, rejectedCount: nat)

  datatype CandidateStatus = Pending | Rejected | CandidateCompleted | CandidateFailed

  datatype Unavailable =
    | TrainRunFailed
    | ValidationRunFailed
    | HoldoutRunFailed
    | FromMetrics(objective: Metrics.Objective)

  /** A candidate's or the holdout's objective: none yet, a value, or why there is no value. */
  datatype Objective = NoObjective | Value(value: real) | NotAvailable(reason: Unavailable)

  datatype Evaluation = CandidateResult(status: CandidateStatus, strategyId: Option<Id>, trainRun: Option<Id>,
                                    validationRun: Option<Id>, objective: Objective, warningCount: nat)

  datatype Candidate = Candidate(candidateId: Id, windows: Windows, result: Evaluation)

  datatype ObjectiveStatus = IsAvailable | IsNotAvailable

  datatype AuditEntry = AuditEntry(candidateId: Id, sequence: nat, windows: Windows, status: CandidateStatus,
                                   objectiveStatus: Option<ObjectiveStatus>, objectiveValue: Option<real>)

  datatype SelectionRecord = SelectionRecord(selected: Option<Id>, audit: seq<AuditEntry>)

  datatype HoldoutRecord = HoldoutRecord(runId: Id, objective: Objective)

  datatype FailureCode = UnexpectedError | NoEligibleCandidate

  datatype Row = Row(manifest: Manifest, status: Status, failureCode: Option<FailureCode>,
                     selection: Option<SelectionRecord>, holdout: Option<HoldoutRecord>)

  /** A run created for the optimization; its bundle once it was executed for it without an exception. */
  datatype RunRecord = RunRecord(strategyId: Id, start: int, end: int, bundle: Option<Artifact.Bundle>)

  /** The optimization's row and candidates, the strategies and runs made for it, and the id supply. */
  datatype Store = Store(row: Row, candidates: seq<Candidate>, strategies: map<Id, Windows>,
                         runs: map<Id, RunRecord>, nextId: Id)

  datatype Error =
    | NotFound
    | NotEligible(status: Status)
    | InvalidTransition
    | Stale(actual: Status)
    | InvalidParameters
    | StrategyNotFound
    | AssertionFailed
    | DatasetNotFound
    | InstrumentNotFound
    | PeriodOutOfCoverage
    | InvalidPeriod
    | InvalidManifest
    | Run(error: Backtests.Error)

  // ---- The world outside the store ----

  /** The indicator library, the broker, the fractional power, where the engine library raises, for
      which run ids the artifact is written, and who else executes a run that was created for the
      optimization, its id being listed for anyone to use: none of them interpreted. */
  datatype Env = Env(sma: Windows -> Engine.SignalLine, broker: Engine.Broker, power: Metrics.Power,
                     fault: (Windows, seq<Domain.Bar>) -> Engine.Fault, writes: Id -> bool,
                     rivals: Id -> Backtests.Rivalry)

  // ---- Creation ----

  datatype Request = Request(datasetId: Id, instrumentId: Id, fasts: seq<int>, slows: seq<int>, partitions: Partitions,
                             policy: Policy, objectiveKey: Metrics.MetricKey, maxCandidateCount: nat)

  datatype CreateError = InvalidGrid | InvalidPartitions | UnknownDataset | UnknownInstrument | GridTooLarge
                       | UnresolvedMapping | InsufficientCoverage | OutOfColumn

  /** How a decimal column keeps a number: rounded, or not at all when it is out of range. */
  type Column = real -> Option<real>

  /** The range of an integer column. */
  predicate FitsInteger(n: int) {
    -0x8000_0000 <= n < 0x8000_0000
  }

  predicate FitsIntegers(r: Request) {
    && FitsInteger(r.policy.moneyScale) && FitsInteger(r.policy.basis) && FitsInteger(r.maxCandidateCount)
    && forall w :: w in r.fasts + r.slows ==> FitsInteger(w)
  }

  /** The policy as the optimization's row keeps it. */
  function StoredPolicy(column: Column, p: Policy): Option<Policy> {
    match (column(p.capital), column(p.fraction), column(p.quantityIncrement), column(p.riskFreeRate))
    case (Some(capital), Some(fraction), Some(increment), Some(rate)) =>
      Some(p.(capital := capital, fraction := fraction, quantityIncrement := increment, riskFreeRate := rate))
    case _ => None
  }

  function MaxOf(xs: seq<int>): int
    requires xs != []
  {
    if |xs| == 1 then xs[0] else var m := MaxOf(xs[1..]); if m < xs[0] then xs[0] else m
  }

  function ValidPairs(pairs: seq<Windows>): seq<Windows> {
    if pairs == [] then []
    else if ValidPair(pairs[0]) then [pairs[0]] + ValidPairs(pairs[1..])
    else ValidPairs(pairs[1..])
  }

  function Slows(pairs: seq<Windows>): (r: seq<int>)
    ensures |r| == |pairs|
  {
    seq(|pairs|, i requires 0 <= i < |pairs| => pairs[i].slow)
  }

  function LargestSlow(valid: seq<Windows>, slows: seq<int>): int
    requires slows != []
  {
    if valid == [] then MaxOf(slows) else MaxOf(Slows(valid))
  }

  /** A partition needs a warm-up window, one bar to signal on and one to fill on. */
  function CheckCoverage(db: Database, r: Request, start: int, end: int, largestSlow: int): Option<CreateError> {
    match GetSnapshot(db, r.datasetId, r.instrumentId, start, end)
    case None => Some(UnresolvedMapping)
    case Some(bars) => if |bars| < largestSlow + 2 then Some(InsufficientCoverage) else None
  }

  function NewCandidate(firstId: Id, i: nat, w: Windows): Candidate {
    var status := if ValidPair(w) then Pending else Rejected;
    Candidate(firstId + i, w, CandidateResult(status, None, None, None, NoObjective, 0))
  }

  function NewCandidates(pairs: seq<Windows>, firstId: Id): (r: seq<Candidate>)
    ensures |r| == |pairs|
  {
    seq(|pairs|, i requires 0 <= i < |pairs| => NewCandidate(firstId, i, pairs[i]))
  }

  predicate ValidGrid(fasts: seq<int>, slows: seq<int>) {
    fasts != [] && slows != [] && (forall w :: w in fasts + slows ==> 1 <= w)
  }

  function Create(column: Column, db: Database, r: Request, nextId: Id): Result<Store, CreateError> {
    if !ValidGrid(r.fasts, r.slows) then Err(InvalidGrid)
    else if !OrderedPartitions(r.partitions) then Err(InvalidPartitions)
    else if r.datasetId !in db.datasets then Err(UnknownDataset)
    else if r.instrumentId !in db.instruments then Err(UnknownInstrument)
    else
      var pairs := CanonicalizeGrid(r.fasts, r.slows);
      if r.maxCandidateCount < |pairs| then Err(GridTooLarge)
      else
        var valid, p := ValidPairs(pairs), r.partitions;
        var largest := LargestSlow(valid, r.slows);
        var train := CheckCoverage(db, r, p.trainStart, p.trainEnd, largest);
        if train.Some? then Err(train.value)
        else
          var validation := CheckCoverage(db, r, p.validationStart, p.validationEnd, largest);
          if validation.Some? then Err(validation.value)
          else
            var holdout := CheckCoverage(db, r, p.holdoutStart, p.holdoutEnd, largest);
            if holdout.Some? then Err(holdout.value)
            else
              var policy := StoredPolicy(column, r.policy);
              if policy.None? || !FitsIntegers(r) then Err(OutOfColumn)
              else Ok(Created(r, policy.value, pairs, |valid|, nextId))
  }

  function Created(r: Request, policy: Policy, pairs: seq<Windows>, validCount: nat, nextId: Id): Store {
    var rejected := if validCount <= |pairs| then |pairs| - validCount else 0;
    var m := Manifest(nextId, r.datasetId, r.instrumentId, r.partitions, policy, r.objectiveKey, validCount, rejected);
    Store(Row(m, Status.Created, None, None, None), NewCandidates(pairs, nextId + 1), map[], map[],
        nextId + 1 + |pairs|)
  }

  // ---- One run of one period ----

  /** What creating and executing a run leaves: the run with its bundle, or an exception, by then with
      or without a run. */
  datatype PeriodOutcome =
    | Ran(runId: Id, bundle: Artifact.Bundle, nextId: Id)
    | PeriodRaised(run: Option<Id>, error: Error, nextId: Id)

  function RunParams(m: Manifest, w: Windows): Sizing.Params {
    Sizing.Params(m.policy.capital, m.policy.fraction, m.policy.quantityIncrement, m.policy.moneyScale, w.slow)
  }

  /** The guards of run creation, in the order they raise; those of the manifest come after the run's id
      is drawn. */
  function RefuseRun(db: Database, m: Manifest, w: Windows, start: int, end: int): Option<Error> {
    if m.datasetId !in db.datasets then Some(DatasetNotFound)
    else if m.instrumentId !in db.instruments then Some(InstrumentNotFound)
    else
      var c := db.datasets[m.datasetId];
      if c.coverageStart.None? || c.coverageEnd.None? || start < c.coverageStart.value || c.coverageEnd.value < end
      then Some(PeriodOutOfCoverage)
      else if !Signed(c) then Some(InvalidManifest)
      else if end <= start then Some(InvalidPeriod)
      else if m.policy.capital <= 0.0 || Documents.Blank(m.policy.currency) then Some(InvalidManifest)
      else if !Sizing.ValidParams(RunParams(m, w)) || m.policy.basis < 1 || m.policy.riskFreeRate < 0.0
      then Some(InvalidManifest)
      else None
  }

  function SetupOf(env: Env, m: Manifest, w: Windows): Engine.Setup {
    Engine.Setup(RunParams(m, w), [env.sma(w)], env.broker)
  }

  /** What the engine adapter returns for a run. Order ids are drawn from the one after the run's. */
  function EngineResult(env: Env, m: Manifest, w: Windows, bars: seq<Domain.Bar>, runId: Id): Domain.ExecutionResult
    requires Sizing.ValidParams(RunParams(m, w))
  {
    Engine.ExecuteGuarded(SetupOf(env, m, w), bars, runId + 1, env.fault(w, bars))
  }

  function BundleOf(env: Env, m: Manifest, w: Windows, bars: seq<Domain.Bar>, runId: Id): Option<Artifact.Bundle>
    requires Sizing.ValidParams(RunParams(m, w))
  {
    Artifact.Build(EngineResult(env, m, w, bars, runId), bars, m.policy.capital, m.policy.basis, env.power)
  }

  /** The job the run service executes. */
  function PeriodJob(env: Env, m: Manifest, w: Windows, snapshot: Option<seq<Domain.Bar>>, runId: Id): Backtests.Job
    requires Sizing.ValidParams(RunParams(m, w))
  {
    Backtests.Job(true, 1, snapshot, bars => Some(EngineResult(env, m, w, bars, runId)),
                  m.policy.capital, m.policy.basis, env.power,
                  if env.writes(runId) then Backtests.Writes else Backtests.FailsToWrite)
  }

  /** The ids a run draws: its own, one per order it submitted, and two for the artifact once built. */
  function IdsAfter(env: Env, m: Manifest, w: Windows, bars: seq<Domain.Bar>, runId: Id): Id
    requires Sizing.ValidParams(RunParams(m, w))
  {
    Engine.IdsDrawn(SetupOf(env, m, w), bars, runId + 1, env.fault(w, bars))
    + if BundleOf(env, m, w, bars, runId).Some? then 2 else 0
  }

  function RunPeriod(env: Env, db: Database, m: Manifest, w: Windows, start: int, end: int, nextId: Id): PeriodOutcome {
    var refused := RefuseRun(db, m, w, start, end);
    if refused.Some? then
      var drawn := refused.value in {InvalidPeriod, InvalidManifest};
      PeriodRaised(None, refused.value, if drawn then nextId + 1 else nextId)
    else ExecutePeriod(env, m, w, GetSnapshot(db, m.datasetId, m.instrumentId, start, end), nextId)
  }

  /** Execute a created run, whoever else does: what the caller gets is what the first executor of the
      contest ends with. */
  function ExecutePeriod(env: Env, m: Manifest, w: Windows, snapshot: Option<seq<Domain.Bar>>, runId: Id): PeriodOutcome
    requires Sizing.ValidParams(RunParams(m, w))
  {
    var contest := Backtests.Contested(PeriodJob(env, m, w, snapshot, runId), env.rivals(runId));
    var e := contest.executors[0];
    var nextId :=
      if snapshot.None? || snapshot.value == [] then runId + 1 else IdsAfter(env, m, w, snapshot.value, runId);
    if e.Done? && contest.store.bundles != [] then Ran(runId, contest.store.bundles[0], nextId)
    else PeriodRaised(Some(runId), if e.Raised? then Run(e.error) else InvalidTransition, nextId)
  }

  // ---- Repository operations ----

  function Transition(row: Row, expected: Status, next: Status, code: Option<FailureCode>): Result<Row, Error> {
    if !TransitionAllowed(expected, next) then Err(InvalidTransition)
    else if row.status != expected then Err(Stale(row.status))
    else Ok(row.(status := next, failureCode := if code.Some? then code else row.failureCode))
  }

  /** Overwrite the result of every candidate with this id. */
  function RecordCandidate(candidates: seq<Candidate>, id: Id, result: Evaluation): (r: seq<Candidate>)
    ensures |r| == |candidates|
  {
    seq(|candidates|, i requires 0 <= i < |candidates| =>
      if candidates[i].candidateId == id then candidates[i].(result := result) else candidates[i])
  }

  function ObjectiveFrom(bundle: Artifact.Bundle, key: Metrics.MetricKey): Objective {
    var o := Metrics.ObjectiveOf(bundle.metrics, key);
    if o.ObjectiveAvailable? then Value(o.value) else NotAvailable(FromMetrics(o))
  }

  // ---- Choosing ----

  function Score(c: Candidate): Scored {
    Scored(c.candidateId, c.windows, if c.result.objective.Value? then Some(c.result.objective.value) else None)
  }

  function Scores(candidates: seq<Candidate>): seq<Scored> {
    if candidates == [] then []
    else if Last(candidates).result.status.CandidateCompleted? then Scores(Init(candidates)) + [Score(Last(candidates))]
    else Scores(Init(candidates))
  }

  function StatusOf(o: Objective): Option<ObjectiveStatus> {
    match o
    case NoObjective => None
    case Value(_) => Some(IsAvailable)
    case NotAvailable(_) => Some(IsNotAvailable)
  }

  function Audit(candidates: seq<Candidate>): (r: seq<AuditEntry>)
    ensures |r| == |candidates|
  {
    seq(|candidates|, i requires 0 <= i < |candidates| =>
      AuditEntry(candidates[i].candidateId, i, candidates[i].windows, candidates[i].result.status,
                 StatusOf(candidates[i].result.objective), Score(candidates[i]).value))
  }

  function Choose(candidates: seq<Candidate>): SelectionRecord {
    var best := SelectCandidate(Scores(candidates));
    SelectionRecord(if best.Some? then Some(best.value.candidateId) else None, Audit(candidates))
  }

  function FindCandidate(candidates: seq<Candidate>, id: Id): Option<Candidate> {
    if candidates == [] then None
    else if candidates[0].candidateId == id then Some(candidates[0])
    else FindCandidate(candidates[1..], id)
  }

  // ---- Executors ----

  datatype Executor =
    | Start
    | ToValidating
    | ToTraining
    | ListPending
    | NextCandidate(todo: seq<Candidate>)
    | Derive(c: Candidate, todo: seq<Candidate>)
    | Train(c: Candidate, todo: seq<Candidate>, strategyId: Id)
    | Validate(c: Candidate, todo: seq<Candidate>, strategyId: Id, trainRun: Id)
    | Record(c: Candidate, todo: seq<Candidate>, result: Evaluation)
    | AbortTraining(error: Error)
    | ToSelecting
    | ChooseBest
    | RecordSelection(selection: SelectionRecord, chosen: Option<Candidate>)
    | FinishUnselected
    | ToHoldout(chosen: Option<Candidate>)
    | RunHoldout(chosen: Option<Candidate>)
    | AbortHoldout(error: Error)
    | RecordHoldout(holdout: HoldoutRecord)
    | ToCompleted
    | Done
    | Raised(error: Error)

  function Move(st: Store, expected: Status, next: Status, code: Option<FailureCode>, after: Executor)
    : (Store, Executor)
  {
    match Transition(st.row, expected, next, code)
    case Ok(row) => (st.(row := row), after)
    case Err(e) => (st, Raised(e))
  }

  /** `_try_fail`: mark the optimization failed if it still is where we think, then raise. */
  function Abort(st: Store, expected: Status, error: Error): (Store, Executor) {
    match Transition(st.row, expected, Failed, Some(UnexpectedError))
    case Ok(row) => (st.(row := row), Raised(error))
    case Err(_) => (st, Raised(error))
  }

  function Failure(strategyId: Id, trainRun: Id, validationRun: Option<Id>, reason: Unavailable, warnings: nat)
    : Evaluation
  {
    CandidateResult(CandidateFailed, Some(strategyId), Some(trainRun), validationRun, NotAvailable(reason), warnings)
  }

  function DeriveStrategy(st: Store, c: Candidate, todo: seq<Candidate>): (Store, Executor) {
    if c.windows.fast < 1 || c.windows.slow < 1 || !ValidPair(c.windows) then (st, AbortTraining(InvalidParameters))
    else (st.(strategies := st.strategies[st.nextId := c.windows], nextId := st.nextId + 1), Train(c, todo, st.nextId))
  }

  function RunsAfter(runs: map<Id, RunRecord>, strategyId: Id, start: int, end: int, outcome: PeriodOutcome)
    : map<Id, RunRecord>
  {
    match outcome
    case Ran(runId, bundle, _) => runs[runId := RunRecord(strategyId, start, end, Some(bundle))]
    case PeriodRaised(Some(runId), _, _) => runs[runId := RunRecord(strategyId, start, end, None)]
    case PeriodRaised(None, _, _) => runs
  }

  /** Create a run of a stored strategy over a period and execute it; the run is kept, with its artifact
      when it was executed. */
  function RunStrategy(env: Env, db: Database, st: Store, strategyId: Id, start: int, end: int)
    : (Store, PeriodOutcome)
  {
    if strategyId !in st.strategies then (st, PeriodRaised(None, StrategyNotFound, st.nextId))
    else
      var outcome := RunPeriod(env, db, st.row.manifest, st.strategies[strategyId], start, end, st.nextId);
      (st.(runs := RunsAfter(st.runs, strategyId, start, end, outcome), nextId := outcome.nextId), outcome)
  }

  function TrainCandidate(env: Env, db: Database, st: Store, c: Candidate, todo: seq<Candidate>, strategyId: Id)
    : (Store, Executor)
  {
    var p := st.row.manifest.partitions;
    var (next, outcome) := RunStrategy(env, db, st, strategyId, p.trainStart, p.trainEnd);
    (next,
     match outcome
     case PeriodRaised(_, error, _) => AbortTraining(error)
     case Ran(runId, bundle, _) =>
       if bundle.terminalStatus.RunFailed?
       then Record(c, todo, Failure(strategyId, runId, None, TrainRunFailed, bundle.warningCount))
       else Validate(c, todo, strategyId, runId))
  }

  function WarningsOf(st: Store, runId: Id): nat {
    if runId in st.runs && st.runs[runId].bundle.Some? then st.runs[runId].bundle.value.warningCount else 0
  }

  function ValidateCandidate(env: Env, db: Database, st: Store, c: Candidate, todo: seq<Candidate>,
                             strategyId: Id, trainRun: Id)
    : (Store, Executor)
  {
    var m := st.row.manifest;
    var (next, outcome) := RunStrategy(env, db, st, strategyId, m.partitions.validationStart,
        m.partitions.validationEnd);
    (next,
     match outcome
     case PeriodRaised(_, error, _) => AbortTraining(error)
     case Ran(runId, bundle, _) =>
       var warnings := WarningsOf(next, trainRun) + WarningsOf(next, runId);
       Record(c, todo,
              if bundle.terminalStatus.RunFailed?
              then Failure(strategyId, trainRun, Some(runId), ValidationRunFailed, warnings)
              else CandidateResult(CandidateCompleted, Some(strategyId), Some(trainRun), Some(runId),
                                   ObjectiveFrom(bundle, m.objectiveKey), warnings)))
  }

  function HoldoutRun(env: Env, db: Database, st: Store, chosen: Option<Candidate>): (Store, Executor) {
    if chosen.None? || chosen.value.result.strategyId.None? then (st, Raised(AssertionFailed))
    else
      var m := st.row.manifest;
      var (next, outcome) := RunStrategy(env, db, st, chosen.value.result.strategyId.value,
                                         m.partitions.holdoutStart, m.partitions.holdoutEnd);
      (next,
       match outcome
       case PeriodRaised(_, error, _) => AbortHoldout(error)
       case Ran(runId, bundle, _) =>
         RecordHoldout(HoldoutRecord(runId, if bundle.terminalStatus.RunFailed? then NotAvailable(HoldoutRunFailed)
                                            else ObjectiveFrom(bundle, m.objectiveKey))))
  }

  /** The candidates in order of sequence, as many as the manifest counts. */
  function Listed(st: Store): seq<Candidate> {
    var total := st.row.manifest.candidateCount + st.row.manifest.rejectedCount;
    if |st.candidates| <= total then st.candidates else st.candidates[..total]
  }

  function ChooseStep(listed: seq<Candidate>): Executor {
    var selection := Choose(listed);
    RecordSelection(selection,
                    if selection.selected.Some? then FindCandidate(listed, selection.selected.value) else None)
  }

  function Step(env: Env, db: Database, id: Id, st: Store, e: Executor): (Store, Executor) {
    match e
    case Start =>
      if id != st.row.manifest.optimizationId then (st, Raised(NotFound))
      else if st.row.status != Status.Created then (st, Raised(NotEligible(st.row.status)))
      else (st, ToValidating)
    case ToValidating => Move(st, Status.Created, Validating, None, ToTraining)
    case ToTraining => Move(st, Validating, RunningTrainValidation, None, ListPending)
    case ListPending => (st, NextCandidate(Listed(st)))
    case NextCandidate(todo) =>
      if todo == [] then (st, ToSelecting)
      else if !todo[0].result.status.Pending? then (st, NextCandidate(todo[1..]))
      else (st, Derive(todo[0], todo[1..]))
    case Derive(c, todo) => DeriveStrategy(st, c, todo)
    case Train(c, todo, strategyId) => TrainCandidate(env, db, st, c, todo, strategyId)
    case Validate(c, todo, strategyId, trainRun) => ValidateCandidate(env, db, st, c, todo, strategyId, trainRun)
    case Record(c, todo, result) =>
      (st.(candidates := RecordCandidate(st.candidates, c.candidateId, result)), NextCandidate(todo))
    case AbortTraining(error) => Abort(st, RunningTrainValidation, error)
    case ToSelecting => Move(st, RunningTrainValidation, Selecting, None, ChooseBest)
    case ChooseBest => (st, ChooseStep(Listed(st)))
    case RecordSelection(selection, chosen) =>
      (st.(row := st.row.(selection := Some(selection))),
       if selection.selected.None? then FinishUnselected else ToHoldout(chosen))
    case FinishUnselected => Move(st, Selecting, Failed, Some(NoEligibleCandidate), Done)
    case ToHoldout(chosen) => Move(st, Selecting, RunningHoldout, None, RunHoldout(chosen))
    case RunHoldout(chosen) => HoldoutRun(env, db, st, chosen)
    case AbortHoldout(error) => Abort(st, RunningHoldout, error)
    case RecordHoldout(holdout) => (st.(row := st.row.(holdout := Some(holdout))), ToCompleted)
    case ToCompleted => Move(st, RunningHoldout, Completed, None, Done)
    case Done => (st, e)
    case Raised(_) => (st, e)
  }

  /** `n` calls of one executor on its own. */
  function Steps(env: Env, db: Database, id: Id, st: Store, e: Executor, n: nat): (Store, Executor) {
    if n == 0 then (st, e)
    else var (s, x) := Steps(env, db, id, st, e, n - 1); Step(env, db, id, s, x)
  }

  /** A store and any number of executors on it. */
  datatype System = System(store: Store, executors: seq<Executor>)

  function Turn(env: Env, db: Database, sys: System, i: nat): System {
    if i >= |sys.executors| then sys
    else
      var (st, e) := Step(env, db, sys.store.row.manifest.optimizationId, sys.store, sys.executors[i]);
      System(st, sys.executors[i := e])
  }

  function Interleave(env: Env, db: Database, sys: System, schedule: seq<nat>): System {
    if schedule == [] then sys
    else Turn(env, db, Interleave(env, db, sys, Init(schedule)), Last(schedule))
  }
}
