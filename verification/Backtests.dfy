/** Executing one backtest run: any number of executors may try, each making one repository call at
    a time; the compare-and-set on the run's status lets at most one of them through. */
module Backtests {
  import opened Wrappers
  import opened Domain
  import opened Metrics
  import opened Artifact

  datatype Status = Created | Running | Completed | Failed | Cancelled

  predicate TransitionAllowed(current: Status, next: Status) {
    match current
    case Created => next in {Running, Cancelled, Failed}
    case Running => next in {Completed, Failed}
    case _ => false
  }

  predicate Terminal(s: Status) {
    s in {Completed, Failed, Cancelled}
  }

  datatype RunFailure =
    | UnsupportedMultiInstrument
    | UnresolvedInstrumentMapping
    | EmptyBarSnapshot
    | Engine(code: FailureCode)

  datatype Error = NotFound | NotEligible(status: Status) | StrategyNotFound | InvalidTransition | Stale(actual: Status)
                 | Rejected(reason: RunFailure) | EngineExecution | ArtifactFailed

  datatype RunRow = RunRow(status: Status, failureCode: Option<RunFailure>)

  /** The caller may pass no artifact writer; one that is passed writes the bundle or raises. */
  datatype Writer = NoWriter | Writes | FailsToWrite

  /** Everything an execution of this run reads that does not change while it runs. */
  datatype Job = Job(strategyFound: bool, instrumentCount: nat, snapshot: Option<seq<Bar>>,
                     engine: seq<Bar> -> Option<ExecutionResult>,
                     initialCash: real, basis: int, power: Power, writer: Writer)

  /** What the artifact step stores for a result: nothing without a writer, nor when building the
      bundle or writing it raises. */
  function Written(job: Job, bars: seq<Bar>, r: ExecutionResult): Option<Bundle> {
    if job.writer.Writes? then Build(r, bars, job.initialCash, job.basis, job.power) else None
  }

  /** What the executions share: the run's row, and the artifact bundles written for it. */
  datatype Store = Store(row: Option<RunRow>, bundles: seq<Bundle>)

  /** One executor, by the call it is about to make. */
  datatype Executor =
    | Start
    | LoadBars
    | Reject(reason: RunFailure)
    | Claim(bars: seq<Bar>)
    | RunEngine(bars: seq<Bar>)
    | ReportEngineError
    | Conclude(bars: seq<Bar>, result: ExecutionResult)
    | Persist(bars: seq<Bar>, result: ExecutionResult)
    | Done(result: ExecutionResult)
    | Raised(error: Error)

  /** Compare and set: the status moves only from the expected one, along an allowed edge. */
  function Transition(row: Option<RunRow>, expected: Status, next: Status, code: Option<RunFailure>)
    : Result<RunRow, Error>
  {
    if !TransitionAllowed(expected, next) then Err(InvalidTransition)
    else match row
      case None => Err(NotFound)
      case Some(r) =>
        if r.status != expected then Err(Stale(r.status))
        else Ok(RunRow(next, if code.Some? then code else r.failureCode))
  }

  /** Transition, then go on to `then`, or raise. */
  function Move(st: Store, expected: Status, next: Status, code: Option<RunFailure>, after: Executor)
    : (Store, Executor)
  {
    match Transition(st.row, expected, next, code)
    case Ok(row) => (st.(row := Some(row)), after)
    case Err(e) => (st, Raised(e))
  }

  function EngineCode(r: ExecutionResult): Option<RunFailure> {
    if r.failureCode.Some? then Some(Engine(r.failureCode.value)) else None
  }

  function Step(job: Job, st: Store, e: Executor): (Store, Executor) {
    match e
    case Start =>
      if st.row.None? then (st, Raised(NotFound))
      else if st.row.value.status != Created then (st, Raised(NotEligible(st.row.value.status)))
      else if !job.strategyFound then (st, Raised(StrategyNotFound))
      else if job.instrumentCount != 1 then (st, Reject(UnsupportedMultiInstrument))
      else (st, LoadBars)
    case LoadBars =>
      (match job.snapshot
       case None => (st, Reject(UnresolvedInstrumentMapping))
       case Some(bars) => if bars == [] then (st, Reject(EmptyBarSnapshot)) else (st, Claim(bars)))
    case Reject(reason) => Move(st, Created, Failed, Some(reason), Raised(Rejected(reason)))
    case Claim(bars) => Move(st, Created, Running, None, RunEngine(bars))
    case RunEngine(bars) =>
      (match job.engine(bars)
       case None => (st, ReportEngineError)
       case Some(r) => (st, Conclude(bars, r)))
    case ReportEngineError => Move(st, Running, Failed, Some(Engine(EngineError)), Raised(EngineExecution))
    case Conclude(bars, r) =>
      if r.terminalStatus.RunFailed? then Move(st, Running, Failed, EngineCode(r), Persist(bars, r))
      else Move(st, Running, Completed, None, Persist(bars, r))
    case Persist(bars, r) =>
      (match Written(job, bars, r)
       case Some(bundle) => (st.(bundles := st.bundles + [bundle]), Done(r))
       case None => (st, if job.writer.NoWriter? then Done(r) else Raised(ArtifactFailed)))
    case Done(_) => (st, e)
    case Raised(_) => (st, e)
  }

  /** `n` calls of one executor on its own. */
  function Steps(job: Job, st: Store, e: Executor, n: nat): (Store, Executor) {
    if n == 0 then (st, e)
    else var (s, x) := Steps(job, st, e, n - 1); Step(job, s, x)
  }

  /** An execution on its own is over after six calls. */
  const ENOUGH := 6

  function Execute(job: Job, st: Store): (Store, Executor) {
    Steps(job, st, Start, ENOUGH)
  }

  // ---- Any number of executors ----

  /** `claimed` lists who got past created-to-running and `engineCalls` who called the engine. */
  datatype System = System(store: Store, executors: seq<Executor>, claimed: seq<nat>, engineCalls: seq<nat>)

  function Turn(job: Job, sys: System, i: nat): (next: System)
    ensures |next.executors| == |sys.executors|
  {
    if i >= |sys.executors| then sys
    else
      var (st, e) := Step(job, sys.store, sys.executors[i]);
      System(st, sys.executors[i := e],
             sys.claimed + (if sys.executors[i].Claim? && e.RunEngine? then [i] else []),
             sys.engineCalls + (if sys.executors[i].RunEngine? then [i] else []))
  }

  function Interleave(job: Job, sys: System, schedule: seq<nat>): (next: System)
    ensures |next.executors| == |sys.executors|
  {
    if schedule == [] then sys
    else Turn(job, Interleave(job, sys, schedule[..|schedule| - 1]), schedule[|schedule| - 1])
  }

  predicate Fresh(sys: System) {
    && sys.store == Store(Some(RunRow(Created, None)), [])
    && (forall i :: 0 <= i < |sys.executors| ==> sys.executors[i].Start?)
    && sys.claimed == [] && sys.engineCalls == []
  }

  function StatusOf(r: ExecutionResult): Status {
    if r.terminalStatus.RunFailed? then Failed else Completed
  }

  /** The run gets as far as an engine result. */
  predicate Reaches(job: Job) {
    && job.strategyFound && job.instrumentCount == 1
    && job.snapshot.Some? && job.snapshot.value != []
    && job.engine(job.snapshot.value).Some?
  }

  /** The run gets as far as a stored bundle: an engine result, and an artifact step that succeeded. */
  predicate Stores(job: Job) {
    Reaches(job) && Written(job, job.snapshot.value, job.engine(job.snapshot.value).value).Some?
  }

  /** The claimant has taken the result to the artifact step and through it. */
  predicate PastArtifact(job: Job, sys: System, i: nat, r: ExecutionResult)
    requires sys.store.row.Some?
  {
    && Reaches(job) && job.engine(job.snapshot.value) == Some(r)
    && sys.claimed == [i] && sys.store.row.value.status == StatusOf(r) && sys.engineCalls == [i]
    && sys.store.bundles == match Written(job, job.snapshot.value, r) case Some(b) => [b] case None => []
  }

  /** What one executor's position says about the job, and, past the claim, about the store. */
  predicate ExecutorOk(job: Job, sys: System, i: nat)
    requires i < |sys.executors| && sys.store.row.Some?
  {
    var status, bundles := sys.store.row.value.status, sys.store.bundles;
    match sys.executors[i]
    case Start => true
    case LoadBars => job.strategyFound && job.instrumentCount == 1
    case Reject(_) => !Reaches(job)
    case Claim(bars) => job.strategyFound && job.instrumentCount == 1 && job.snapshot == Some(bars) && bars != []
    case RunEngine(bars) =>
      job.strategyFound && job.instrumentCount == 1 && job.snapshot == Some(bars) && bars != []
      && sys.claimed == [i] && status == Running && sys.engineCalls == [] && bundles == []
    case ReportEngineError =>
      !Reaches(job) && sys.claimed == [i] && status == Running && sys.engineCalls == [i] && bundles == []
    case Conclude(bars, r) =>
      Reaches(job) && job.snapshot == Some(bars) && job.engine(bars) == Some(r)
      && sys.claimed == [i] && status == Running && sys.engineCalls == [i] && bundles == []
    case Persist(bars, r) =>
      Reaches(job) && job.snapshot == Some(bars) && job.engine(bars) == Some(r)
      && sys.claimed == [i] && status == StatusOf(r) && sys.engineCalls == [i] && bundles == []
    case Done(r) => PastArtifact(job, sys, i, r) && (bundles == [] ==> job.writer.NoWriter?)
    case Raised(e) =>
      e.ArtifactFailed? ==>
        Reaches(job) && PastArtifact(job, sys, i, job.engine(job.snapshot.value).value) && bundles == []
  }

  predicate Owner(e: Executor) {
    e.RunEngine? || e.ReportEngineError? || e.Conclude? || e.Persist? || e.Done? || e == Raised(ArtifactFailed)
  }

  /** Before the claim nothing has happened but, maybe, an early rejection; after it the claimant is
      on its way or done, or the engine raised. */
  predicate ClaimOk(job: Job, sys: System)
    requires sys.store.row.Some?
  {
    var status := sys.store.row.value.status;
    if sys.claimed == [] then
      && sys.engineCalls == [] && sys.store.bundles == []
      && (status == Created || (status == Failed && !Reaches(job)))
    else
      && |sys.claimed| == 1 && sys.claimed[0] < |sys.executors|
      && status in {Running, Completed, Failed}
      && (Owner(sys.executors[sys.claimed[0]]) ||
          (!Reaches(job) && sys.engineCalls == sys.claimed && sys.store.bundles == [] && status == Failed
           && sys.executors[sys.claimed[0]] == Raised(EngineExecution)))
  }

  ghost predicate Inv(job: Job, sys: System) {
    && sys.store.row.Some?
    && (forall i :: 0 <= i < |sys.executors| ==> ExecutorOk(job, sys, i))
    && ClaimOk(job, sys)
  }

  lemma TurnKeepsInv(job: Job, sys: System, i: nat)
    requires Inv(job, sys)
    ensures Inv(job, Turn(job, sys, i))
  {
    hide ExecutorOk, ClaimOk, Written, Step;
    if i < |sys.executors| {
      var next := Turn(job, sys, i);
      ClaimStaysOk(job, sys, i);
      MoverOk(job, sys, i);
      forall j | 0 <= j < |next.executors|
        ensures ExecutorOk(job, next, j)
      {
        if j != i {
          BystanderOk(job, sys, i, j);
        }
      }
    }
  }

  lemma MoverOk(job: Job, sys: System, i: nat)
    requires Inv(job, sys) && i < |sys.executors|
    ensures ExecutorOk(job, Turn(job, sys, i), i)
  {
    hide Written;
    assert ExecutorOk(job, sys, i);
  }

  lemma BystanderOk(job: Job, sys: System, i: nat, j: nat)
    requires Inv(job, sys) && i < |sys.executors| && j < |sys.executors| && i != j
    ensures ExecutorOk(job, Turn(job, sys, i), j)
  {
    hide Written;
    assert ExecutorOk(job, sys, i);
    assert ExecutorOk(job, sys, j);
    if Owner(sys.executors[j]) {
      assert !Owner(sys.executors[i]);
    }
  }

  lemma ClaimStaysOk(job: Job, sys: System, i: nat)
    requires Inv(job, sys) && i < |sys.executors|
    ensures Turn(job, sys, i).store.row.Some? && ClaimOk(job, Turn(job, sys, i))
  {
    hide Written, Reaches;
    assert ExecutorOk(job, sys, i);
    if sys.claimed != [] {
      assert ExecutorOk(job, sys, sys.claimed[0]);
    }
  }

  lemma {:induction false} AlwaysInv(job: Job, sys: System, schedule: seq<nat>)
    requires Fresh(sys)
    ensures Inv(job, Interleave(job, sys, schedule))
  {
    hide Inv;
    if schedule == [] {
      FreshInv(job, sys);
    } else {
      var before := schedule[..|schedule| - 1];
      AlwaysInv(job, sys, before);
      TurnKeepsInv(job, Interleave(job, sys, before), schedule[|schedule| - 1]);
    }
  }

  lemma FreshInv(job: Job, sys: System)
    requires Fresh(sys)
    ensures Inv(job, sys)
  {}

  /** At most once, however many executors race and in whatever order their calls fall: one claim,
      one engine call, one bundle, which agrees with the run's status and is what the engine
      returned. */
  lemma AtMostOnce(job: Job, sys: System, schedule: seq<nat>)
    requires Fresh(sys)
    ensures var s := Interleave(job, sys, schedule);
      && |s.claimed| <= 1 && |s.engineCalls| <= 1 && |s.store.bundles| <= 1
      && (s.store.bundles != [] ==>
            && Stores(job) && s.store.row.Some?
            && var r := job.engine(job.snapshot.value).value;
               && Some(s.store.bundles[0]) == Build(r, job.snapshot.value, job.initialCash, job.basis, job.power)
               && s.store.row.value.status == StatusOf(r))
  {
    hide Build;
    AlwaysInv(job, sys, schedule);
    var s := Interleave(job, sys, schedule);
    if s.claimed != [] {
      assert ExecutorOk(job, s, s.claimed[0]);
    }
  }

  predicate Finished(sys: System) {
    forall i :: 0 <= i < |sys.executors| ==> sys.executors[i].Done? || sys.executors[i].Raised?
  }

  /** A run whose executors are all finished and which reached a terminal status has a bundle exactly
      when there was an engine result and the artifact step succeeded: the rejections before the claim,
      an exception out of the engine, a missing writer, metrics that raise and a failing write all
      leave a terminal run without one. */
  lemma BundleIff(job: Job, sys: System, schedule: seq<nat>)
    requires Fresh(sys) && Finished(Interleave(job, sys, schedule))
    ensures var s := Interleave(job, sys, schedule);
      s.store.row.Some? && (Terminal(s.store.row.value.status) ==> (s.store.bundles != [] <==> Stores(job)))
  {
    hide Written;
    AlwaysInv(job, sys, schedule);
    var s := Interleave(job, sys, schedule);
    if s.claimed != [] {
      assert ExecutorOk(job, s, s.claimed[0]);
    }
  }

  /** "Every terminal run has a bundle" is not so: one executor and an empty snapshot. */
  lemma TerminalWithoutBundle(job: Job)
    requires job.strategyFound && job.instrumentCount == 1 && job.snapshot == Some([])
    ensures var (st, e) := Execute(job, Store(Some(RunRow(Created, None)), []));
      st == Store(Some(RunRow(Failed, Some(EmptyBarSnapshot))), []) && e == Raised(Rejected(EmptyBarSnapshot))
  {
    var st := Store(Some(RunRow(Created, None)), []);
    assert Steps(job, st, Start, 1) == (st, LoadBars);
    assert Steps(job, st, Start, 2) == (st, Reject(EmptyBarSnapshot));
    var failed := Store(Some(RunRow(Failed, Some(EmptyBarSnapshot))), []);
    assert Steps(job, st, Start, 3) == (failed, Raised(Rejected(EmptyBarSnapshot)));
    assert Steps(job, st, Start, 4) == (failed, Raised(Rejected(EmptyBarSnapshot)));
    assert Steps(job, st, Start, 5) == (failed, Raised(Rejected(EmptyBarSnapshot)));
    assert Steps(job, st, Start, 6) == (failed, Raised(Rejected(EmptyBarSnapshot)));
  }

  /** Nor is it enough that the engine returned: the status becomes terminal before the artifact is
      built, so a completed run can lack one as well. */
  lemma CompletedWithoutBundle(job: Job)
    requires Reaches(job) && !Stores(job)
    ensures var (st, e) := Execute(job, Store(Some(RunRow(Created, None)), []));
      var r := job.engine(job.snapshot.value).value;
      && st.row.Some? && st.row.value.status == StatusOf(r) && st.bundles == []
      && e == if job.writer.NoWriter? then Done(r) else Raised(ArtifactFailed)
  {
    hide Written;
    var bars := job.snapshot.value;
    var r := job.engine(bars).value;
    var st, running := Store(Some(RunRow(Created, None)), []), Store(Some(RunRow(Running, None)), []);
    assert Steps(job, st, Start, 1) == (st, LoadBars);
    assert Steps(job, st, Start, 2) == (st, Claim(bars));
    assert Steps(job, st, Start, 3) == (running, RunEngine(bars));
    assert Steps(job, st, Start, 4) == (running, Conclude(bars, r));
    assert Steps(job, st, Start, 5).1 == Persist(bars, r);
  }

  /** Terminal statuses absorb: no call of any executor changes one. */
  lemma TerminalAbsorbs(job: Job, st: Store, e: Executor)
    requires st.row.Some? && Terminal(st.row.value.status)
    ensures Step(job, st, e).0.row == st.row
    ensures forall a, b :: TransitionAllowed(a, b) <==>
      (a, b) in {(Created, Running), (Created, Cancelled), (Created, Failed), (Running, Completed), (Running, Failed)}
    ensures forall a :: Terminal(a) <==> !TransitionAllowed(a, Failed)
  {
    hide Written;
  }

  /** A run moves only along an allowed edge, only when it exists, and only from the status that was
      expected; then its status is the next one and a code that was given is kept. */
  lemma TransitionDecides(row: Option<RunRow>, expected: Status, next: Status, code: Option<RunFailure>, job: Job)
    ensures var r := Transition(row, expected, next, code);
      && (r == Err(InvalidTransition) <==> !TransitionAllowed(expected, next))
      && (r == Err(NotFound) <==> TransitionAllowed(expected, next) && row == None)
      && (r.Err? && r.error.Stale? <==> TransitionAllowed(expected, next) && row.Some? && row.value.status != expected)
      && (r.Err? && r.error.Stale? ==> r.error.actual == row.value.status)
      && (r.Ok? <==> TransitionAllowed(expected, next) && row.Some? && row.value.status == expected)
      && (r.Ok? ==> r.value == RunRow(next, if code == None then row.value.failureCode else code))
    ensures forall bundles :: Step(job, Store(None, bundles), Start) == (Store(None, bundles), Raised(NotFound))
  {}

  // ---- Won or lost ----

  /** Where an executor that meets nobody ends. */
  function Alone(job: Job): Executor {
    if !job.strategyFound then Raised(StrategyNotFound)
    else if job.instrumentCount != 1 then Raised(Rejected(UnsupportedMultiInstrument))
    else
      match job.snapshot
      case None => Raised(Rejected(UnresolvedInstrumentMapping))
      case Some(bars) =>
        if bars == [] then Raised(Rejected(EmptyBarSnapshot))
        else
          match job.engine(bars)
          case None => Raised(EngineExecution)
          case Some(r) =>
            if Written(job, bars, r).Some? || job.writer.NoWriter? then Done(r) else Raised(ArtifactFailed)
  }

  /** Another executor moved the run first. */
  predicate Lost(e: Error) {
    e.NotEligible? || e.Stale?
  }

  predicate Final(e: Executor) {
    e.Done? || e.Raised?
  }

  /** What a position says of the job, whatever happens to the store. */
  predicate PositionOk(job: Job, e: Executor) {
    var found := job.strategyFound && job.instrumentCount == 1;
    match e
    case Start => true
    case LoadBars => found
    case Reject(reason) => Alone(job) == Raised(Rejected(reason))
    case Claim(bars) => found && job.snapshot == Some(bars) && bars != []
    case RunEngine(bars) => found && job.snapshot == Some(bars) && bars != []
    case ReportEngineError => Alone(job) == Raised(EngineExecution)
    case Conclude(bars, r) => found && job.snapshot == Some(bars) && bars != [] && job.engine(bars) == Some(r)
    case Persist(bars, r) => found && job.snapshot == Some(bars) && bars != [] && job.engine(bars) == Some(r)
    case Done(_) => e == Alone(job)
    case Raised(error) => e == Alone(job) || Lost(error)
  }

  lemma StepKeepsPosition(job: Job, st: Store, e: Executor)
    requires st.row.Some? && PositionOk(job, e)
    ensures var (next, e') := Step(job, st, e); next.row.Some? && PositionOk(job, e')
  {
    hide Written;
  }

  /** However many executors race, each ends where it would have ended alone, or finds that another one
      moved the run first. */
  lemma {:induction false} AloneOrLost(job: Job, sys: System, schedule: seq<nat>, i: nat)
    requires Fresh(sys) && i < |sys.executors|
    ensures var s := Interleave(job, sys, schedule);
      && s.store.row.Some? && PositionOk(job, s.executors[i])
      && (Final(s.executors[i]) ==>
            s.executors[i] == Alone(job) || (s.executors[i].Raised? && Lost(s.executors[i].error)))
  {
    hide Step, Alone;
    if schedule != [] {
      var before, turn := schedule[..|schedule| - 1], schedule[|schedule| - 1];
      AloneOrLost(job, sys, before, i);
      var s := Interleave(job, sys, before);
      if turn < |s.executors| {
        AloneOrLost(job, sys, before, turn);
        StepKeepsPosition(job, s.store, s.executors[turn]);
      }
    }
  }

  /** The stored row says why a run failed: for the instruments it asked for, for want of a mapping or of
      bars, because the engine raised, or with the code of the engine's own failure; and only then. */
  predicate SaysWhy(job: Job, row: RunRow) {
    match row.status
    case Completed =>
      && row.failureCode == None && Reaches(job)
      && job.engine(job.snapshot.value).value.terminalStatus.RunCompleted?
    case Failed =>
      && job.strategyFound
      && (job.instrumentCount != 1 ==> row.failureCode == Some(UnsupportedMultiInstrument))
      && (job.instrumentCount == 1 ==>
            match job.snapshot
            case None => row.failureCode == Some(UnresolvedInstrumentMapping)
            case Some(bars) =>
              if bars == [] then row.failureCode == Some(EmptyBarSnapshot)
              else
                match job.engine(bars)
                case None => row.failureCode == Some(Engine(EngineError))
                case Some(r) =>
                  r.terminalStatus.RunFailed? &&
                  match r.failureCode
                  case None => row.failureCode == None
                  case Some(code) => row.failureCode == Some(Engine(code)))
    case Cancelled => false
    case _ => row.failureCode == None
  }

  lemma StepSaysWhy(job: Job, st: Store, e: Executor)
    requires st.row.Some? && PositionOk(job, e) && SaysWhy(job, st.row.value)
    ensures var next := Step(job, st, e).0; next.row.Some? && SaysWhy(job, next.row.value)
  {
    hide Written;
  }

  lemma {:induction false} FailureIsExplained(job: Job, sys: System, schedule: seq<nat>)
    requires Fresh(sys)
    ensures var s := Interleave(job, sys, schedule); s.store.row.Some? && SaysWhy(job, s.store.row.value)
  {
    hide Step, SaysWhy, PositionOk;
    if schedule == [] {
      assert SaysWhy(job, RunRow(Created, None)) by { NothingToExplain(job); }
    } else {
      var before, turn := schedule[..|schedule| - 1], schedule[|schedule| - 1];
      FailureIsExplained(job, sys, before);
      var s := Interleave(job, sys, before);
      if turn < |s.executors| {
        AloneOrLost(job, sys, before, turn);
        StepSaysWhy(job, s.store, s.executors[turn]);
      }
    }
  }

  lemma NothingToExplain(job: Job)
    ensures SaysWhy(job, RunRow(Created, None))
  {}

  /** How many calls an executor has behind it, at the least. */
  function Progress(e: Executor): nat {
    match e
    case Start => 0
    case LoadBars => 1
    case Reject(_) => 2
    case Claim(_) => 2
    case RunEngine(_) => 3
    case ReportEngineError => 4
    case Conclude(_, _) => 4
    case Persist(_, _) => 5
    case Done(_) => ENOUGH
    case Raised(_) => ENOUGH
  }

  lemma StepProgresses(job: Job, st: Store, e: Executor)
    ensures Progress(Step(job, st, e).1) >= if Final(e) then ENOUGH else Progress(e) + 1
  {
    hide Written;
  }

  /** The schedule, and then turns of the first executor alone. */
  function Finishing(schedule: seq<nat>, n: nat): seq<nat> {
    schedule + seq(n, _ => 0)
  }

  lemma {:induction false} SixTurnsFinish(job: Job, sys: System, schedule: seq<nat>, n: nat)
    requires |sys.executors| > 0 && n <= ENOUGH
    ensures Progress(Interleave(job, sys, Finishing(schedule, n)).executors[0]) >= n
  {
    hide Step, Progress;
    if n > 0 {
      SixTurnsFinish(job, sys, schedule, n - 1);
      var before, all := Finishing(schedule, n - 1), Finishing(schedule, n);
      assert all[..|all| - 1] == before && all[|all| - 1] == 0;
      var s := Interleave(job, sys, before);
      StepProgresses(job, s.store, s.executors[0]);
      assert Progress(s.executors[0]) >= ENOUGH ==> Final(s.executors[0]) by { FullProgress(s.executors[0]); }
    }
  }

  lemma FullProgress(e: Executor)
    ensures Progress(e) >= ENOUGH <==> Final(e)
  {}

  /** Others that try to execute the same run, and when they take their turns. */
  datatype Rivalry = Rivalry(others: nat, schedule: seq<nat>)

  predicate Quiet(r: Rivalry) {
    forall k :: 0 <= k < |r.schedule| ==> r.schedule[k] == 0 || r.others < r.schedule[k]
  }

  function Contest(others: nat): System {
    System(Store(Some(RunRow(Created, None)), []), seq(others + 1, _ => Start), [], [])
  }

  /** The run just created, when the first executor has finished. */
  function Contested(job: Job, r: Rivalry): (s: System)
    ensures |s.executors| == r.others + 1
  {
    Interleave(job, Contest(r.others), Finishing(r.schedule, ENOUGH))
  }

  /** The first executor of a contest ends where it would have ended alone, or lost; it stores its
      bundle exactly when it made the claim and the artifact step succeeds. */
  lemma ContestEnds(job: Job, r: Rivalry)
    requires !job.writer.NoWriter?
    ensures var s := Contested(job, r); var e := s.executors[0];
      && |s.executors| > 0
      && (e == Alone(job) || (e.Raised? && Lost(e.error)))
      && (e.Done? ==> Stores(job) && s.store.bundles == [Written(job, job.snapshot.value, e.result).value])
      && (e.Done? <==> Stores(job) && s.claimed == [0])
  {
    hide Written, Alone, Step, Interleave;
    var sys, schedule := Contest(r.others), Finishing(r.schedule, ENOUGH);
    var s := Contested(job, r);
    SixTurnsFinish(job, sys, r.schedule, ENOUGH);
    FullProgress(s.executors[0]);
    AloneOrLost(job, sys, schedule, 0);
    AlwaysInv(job, sys, schedule);
    assert ExecutorOk(job, s, 0);
  }

  /** Before its claim, the run an undisturbed executor works on is as it was created. */
  predicate Undisturbed(sys: System) {
    && |sys.executors| > 0 && sys.store.row.Some?
    && (Progress(sys.executors[0]) <= 2 ==> sys.store.row.value.status == Created)
    && (sys.executors[0].Raised? ==> !Lost(sys.executors[0].error))
  }

  lemma OwnTurnStaysUndisturbed(job: Job, sys: System)
    requires Inv(job, sys) && Undisturbed(sys)
    ensures Undisturbed(Turn(job, sys, 0))
  {
    hide Written;
    assert ExecutorOk(job, sys, 0);
  }

  lemma {:induction false} QuietStaysUndisturbed(job: Job, others: nat, schedule: seq<nat>)
    requires Quiet(Rivalry(others, schedule))
    ensures Undisturbed(Interleave(job, Contest(others), schedule))
  {
    hide Step, Inv, Undisturbed;
    if schedule == [] {
      assert Undisturbed(Contest(others)) by { NewIsUndisturbed(others); }
    } else {
      var before := schedule[..|schedule| - 1];
      QuietStaysUndisturbed(job, others, before);
      AlwaysInv(job, Contest(others), before);
      if schedule[|schedule| - 1] == 0 {
        OwnTurnStaysUndisturbed(job, Interleave(job, Contest(others), before));
      }
    }
  }

  lemma NewIsUndisturbed(others: nat)
    ensures Undisturbed(Contest(others))
  {}

  /** Without rivals the first executor never loses. */
  lemma QuietNeverLoses(job: Job, r: Rivalry)
    requires !job.writer.NoWriter? && Quiet(r)
    ensures Contested(job, r).executors[0] == Alone(job)
  {
    hide Alone, Interleave, Step;
    ContestEnds(job, r);
    QuietStaysUndisturbed(job, r.others, Finishing(r.schedule, ENOUGH));
  }

  lemma AloneIsAlone(job: Job)
    ensures Execute(job, Store(Some(RunRow(Created, None)), [])).1 == Alone(job)
  {
    hide Written;
    var st, running := Store(Some(RunRow(Created, None)), []), Store(Some(RunRow(Running, None)), []);
    assert Steps(job, st, Start, 1) == Step(job, st, Start);
    assert Steps(job, st, Start, 2) == Step(job, Steps(job, st, Start, 1).0, Steps(job, st, Start, 1).1);
    assert Steps(job, st, Start, 3) == Step(job, Steps(job, st, Start, 2).0, Steps(job, st, Start, 2).1);
    assert Steps(job, st, Start, 4) == Step(job, Steps(job, st, Start, 3).0, Steps(job, st, Start, 3).1);
    assert Steps(job, st, Start, 5) == Step(job, Steps(job, st, Start, 4).0, Steps(job, st, Start, 4).1);
  }
}
