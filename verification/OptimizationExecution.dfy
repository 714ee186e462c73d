/** The records of one optimization as an object whose methods update them, and the execution service
    that drives it, proved to be one executor making its calls one after another. */
module OptimizationExecution {
  import opened Wrappers
  import opened Optimization
  import opened BarStore
  import opened OptimizationRun

  class Ports {
    var row: Row
    var candidates: seq<Candidate>
    var strategies: map<Id, Windows>
    var runs: map<Id, RunRecord>
    var nextId: Id

    function View(): Store
      reads this
    {
      Store(row, candidates, strategies, runs, nextId)
    }

    /** One conditional update of the status; when it hits nothing, a read tells why. */
    method TransitionStatus(id: Id, expected: Status, next: Status, code: Option<FailureCode>)
        returns (r: Result<Row, Error>)
      modifies `row
      ensures r == if TransitionAllowed(expected, next) && id != old(row).manifest.optimizationId then Err(NotFound)
                   else Transition(old(row), expected, next, code)
      ensures row == if r.Ok? then r.value else old(row)
      ensures row.manifest == old(row).manifest
    {
      if !TransitionAllowed(expected, next) {
        return Err(InvalidTransition);
      }
      if row.manifest.optimizationId == id && row.status == expected {
        row := row.(status := next, failureCode := if code.Some? then code else row.failureCode);
        return Ok(row);
      }
      if row.manifest.optimizationId != id {
        return Err(NotFound);
      }
      r := Err(Stale(row.status));
    }

    method TryFail(id: Id, current: Status, ghost error: Error)
      requires id == row.manifest.optimizationId
      modifies `row
      ensures Abort(old(View()), current, error) == (View(), Raised(error))
      ensures row.manifest == old(row).manifest
    {
      var _ := TransitionStatus(id, current, Failed, Some(UnexpectedError));
    }

    method ListCandidates() returns (listed: seq<Candidate>)
      ensures listed == Listed(View())
    {
      var total := row.manifest.candidateCount + row.manifest.rejectedCount;
      listed := if |candidates| <= total then candidates else candidates[..total];
    }

    /** Update every row with this id. */
    method RecordCandidateResult(id: Id, result: Evaluation)
      modifies `candidates
      ensures candidates == RecordCandidate(old(candidates), id, result)
    {
      var updated: seq<Candidate> := [];
      for i := 0 to |candidates|
        invariant updated == RecordCandidate(candidates, id, result)[..i]
      {
        var c := candidates[i];
        updated := updated + [if c.candidateId == id then c.(result := result) else c];
      }
      candidates := updated;
    }

    /** Update the row with this id, if there is one. */
    method RecordSelectionOf(id: Id, selection: SelectionRecord)
      modifies `row
      ensures row == if id == old(row).manifest.optimizationId then old(row).(selection := Some(selection))
          else old(row)
    {
      if row.manifest.optimizationId == id {
        row := row.(selection := Some(selection));
      }
    }

    method RecordHoldoutResult(id: Id, holdout: HoldoutRecord)
      modifies `row
      ensures row == if id == old(row).manifest.optimizationId then old(row).(holdout := Some(holdout)) else old(row)
    {
      if row.manifest.optimizationId == id {
        row := row.(holdout := Some(holdout));
      }
    }

    method CreateStrategy(windows: Windows) returns (r: Result<Id, Error>)
      modifies `strategies, `nextId
      ensures r.Ok? <==> 1 <= windows.fast && 1 <= windows.slow && ValidPair(windows)
      ensures r.Err? ==> r.error == InvalidParameters && strategies == old(strategies) && nextId == old(nextId)
      ensures r.Ok? ==>
        r.value == old(nextId) && strategies == old(strategies)[r.value := windows] && nextId == r.value + 1
    {
      if windows.fast < 1 || windows.slow < 1 || !ValidPair(windows) {
        return Err(InvalidParameters);
      }
      var id := nextId;
      nextId := nextId + 1;
      strategies := strategies[id := windows];
      r := Ok(id);
    }

    /** Create and execute a run of a strategy over a period, keeping the run that was created. */
    method RunPeriodOf(env: Env, db: Database, strategyId: Id, start: int, end: int) returns (outcome: PeriodOutcome)
      modifies `runs, `nextId
      ensures (View(), outcome) == RunStrategy(env, db, old(View()), strategyId, start, end)
    {
      if strategyId !in strategies {
        return PeriodRaised(None, StrategyNotFound, nextId);
      }
      outcome := RunPeriod(env, db, row.manifest, strategies[strategyId], start, end, nextId);
      nextId := outcome.nextId;
      if outcome.Ran? {
        runs := runs[outcome.runId := RunRecord(strategyId, start, end, Some(outcome.bundle))];
      } else if outcome.run.Some? {
        runs := runs[outcome.run.value := RunRecord(strategyId, start, end, None)];
      }
    }

    function WarningTotal(runId: Id): nat
      reads this
    {
      if runId in runs && runs[runId].bundle.Some? then runs[runId].bundle.value.warningCount else 0
    }
  }

  /** Calls made one after another add up. */
  lemma {:induction false} StepsCompose(env: Env, db: Database, id: Id, st: Store, e: Executor, n: nat, m: nat)
    ensures var (s, x) := Steps(env, db, id, st, e, n); Steps(env, db, id, s, x, m) == Steps(env, db, id, st, e, n + m)
  {
    hide Step;
    if m > 0 {
      StepsCompose(env, db, id, st, e, n, m - 1);
    }
  }

  lemma OneStep(env: Env, db: Database, id: Id, st: Store, e: Executor)
    ensures Steps(env, db, id, st, e, 1) == Step(env, db, id, st, e)
  {
    hide Step;
    assert Steps(env, db, id, st, e, 0) == (st, e);
  }

  ghost predicate Reaches(env: Env, db: Database, id: Id, st: Store, e: Executor, st': Store, e': Executor) {
    exists n: nat :: Steps(env, db, id, st, e, n) == (st', e')
  }

  lemma ReachesStep(env: Env, db: Database, id: Id, st0: Store, e0: Executor, st: Store, e: Executor)
    requires Reaches(env, db, id, st0, e0, st, e)
    ensures var (s, x) := Step(env, db, id, st, e); Reaches(env, db, id, st0, e0, s, x)
  {
    hide Step;
    OneStep(env, db, id, st, e);
    ReachesTrans(env, db, id, st0, e0, st, e, 1);
  }

  lemma ReachesTrans(env: Env, db: Database, id: Id, st0: Store, e0: Executor, st: Store, e: Executor, m: nat)
    requires Reaches(env, db, id, st0, e0, st, e)
    ensures var (s, x) := Steps(env, db, id, st, e, m); Reaches(env, db, id, st0, e0, s, x)
  {
    hide Step, Steps;
    var n: nat :| Steps(env, db, id, st0, e0, n) == (st, e);
    StepsCompose(env, db, id, st0, e0, n, m);
  }

  lemma ReachesItself(env: Env, db: Database, id: Id, st: Store, e: Executor)
    ensures Reaches(env, db, id, st, e, st, e)
  {
    assert Steps(env, db, id, st, e, 0) == (st, e);
  }

  lemma ReachesAfter(env: Env, db: Database, id: Id, a: Store, ea: Executor, b: Store, eb: Executor, c: Store,
      ec: Executor)
    requires Reaches(env, db, id, a, ea, b, eb) && Reaches(env, db, id, b, eb, c, ec)
    ensures Reaches(env, db, id, a, ea, c, ec)
  {
    hide Steps;
    var m: nat :| Steps(env, db, id, b, eb, m) == (c, ec);
    ReachesTrans(env, db, id, a, ea, b, eb, m);
  }

  method ExecuteCandidate(ports: Ports, env: Env, db: Database, c: Candidate, ghost id: Id, ghost todo: seq<Candidate>)
    returns (error: Option<Error>)
    requires id == ports.row.manifest.optimizationId
    modifies ports
    ensures ports.row.manifest == old(ports.row.manifest)
    ensures Reaches(env, db, id, old(ports.View()), Derive(c, todo), ports.View(),
                    if error.None? then NextCandidate(todo) else AbortTraining(error.value))
  {
    hide Reaches, RunStrategy, ObjectiveFrom, RecordCandidate;
    ghost var st0 := ports.View();
    ReachesItself(env, db, id, st0, Derive(c, todo));
    ReachesStep(env, db, id, st0, Derive(c, todo), st0, Derive(c, todo));
    var spec := ports.CreateStrategy(c.windows);
    if spec.Err? {
      return Some(spec.error);
    }
    var strategyId := spec.value;
    var p := ports.row.manifest.partitions;

    ReachesStep(env, db, id, st0, Derive(c, todo), ports.View(), Train(c, todo, strategyId));
    var train := ports.RunPeriodOf(env, db, strategyId, p.trainStart, p.trainEnd);
    if train.PeriodRaised? {
      return Some(train.error);
    }
    if train.bundle.terminalStatus.RunFailed? {
      var failed := Failure(strategyId, train.runId, None, TrainRunFailed, train.bundle.warningCount);
      ReachesStep(env, db, id, st0, Derive(c, todo), ports.View(), Record(c, todo, failed));
      ports.RecordCandidateResult(c.candidateId, failed);
      return None;
    }

    ReachesStep(env, db, id, st0, Derive(c, todo), ports.View(), Validate(c, todo, strategyId, train.runId));
    var validation := ports.RunPeriodOf(env, db, strategyId, p.validationStart, p.validationEnd);
    if validation.PeriodRaised? {
      return Some(validation.error);
    }
    var warnings := ports.WarningTotal(train.runId) + ports.WarningTotal(validation.runId);
    var result := if validation.bundle.terminalStatus.RunFailed?
      then Failure(strategyId, train.runId, Some(validation.runId), ValidationRunFailed, warnings)
      else CandidateResult(CandidateCompleted, Some(strategyId), Some(train.runId), Some(validation.runId),
                           ObjectiveFrom(validation.bundle, ports.row.manifest.objectiveKey), warnings);
    ReachesStep(env, db, id, st0, Derive(c, todo), ports.View(), Record(c, todo, result));
    ports.RecordCandidateResult(c.candidateId, result);
    error := None;
  }

  method RunTrainValidationPhase(ports: Ports, env: Env, db: Database, id: Id) returns (error: Option<Error>)
    requires id == ports.row.manifest.optimizationId
    modifies ports
    ensures ports.row.manifest == old(ports.row.manifest)
    ensures Reaches(env, db, id, old(ports.View()), ListPending, ports.View(),
                    if error.None? then ToSelecting else Raised(error.value))
  {
    hide Reaches, Listed;
    ghost var st0 := ports.View();
    ReachesItself(env, db, id, st0, ListPending);
    ReachesStep(env, db, id, st0, ListPending, st0, ListPending);
    var listed := ports.ListCandidates();
    assert listed[0..] == listed;
    for i := 0 to |listed|
      invariant Reaches(env, db, id, st0, ListPending, ports.View(), NextCandidate(listed[i..]))
      invariant ports.row.manifest == old(ports.row.manifest)
    {
      var c := listed[i];
      assert listed[i..][0] == c && listed[i..][1..] == listed[i + 1..];
      ghost var before := ports.View();
      ReachesStep(env, db, id, st0, ListPending, before, NextCandidate(listed[i..]));
      if c.result.status != Pending {
        continue;
      }
      error := ExecuteCandidate(ports, env, db, c, id, listed[i + 1..]);
      if error.Some? {
        ReachesAfter(env, db, id, st0, ListPending, before, Derive(c, listed[i + 1..]), ports.View(),
            AbortTraining(error.value));
        ReachesStep(env, db, id, st0, ListPending, ports.View(), AbortTraining(error.value));
        ports.TryFail(id, RunningTrainValidation, error.value);
        return;
      }
      ReachesAfter(env, db, id, st0, ListPending, before, Derive(c, listed[i + 1..]), ports.View(),
          NextCandidate(listed[i + 1..]));
    }
    assert listed[|listed|..] == [];
    ReachesStep(env, db, id, st0, ListPending, ports.View(), NextCandidate([]));
    error := None;
  }

  function AfterSelection(selection: SelectionRecord, chosen: Option<Candidate>): Executor {
    if selection.selected.None? then FinishUnselected else ToHoldout(chosen)
  }

  method SelectCandidatePhase(ports: Ports, env: Env, db: Database, id: Id)
    returns (selection: SelectionRecord, chosen: Option<Candidate>)
    requires id == ports.row.manifest.optimizationId
    modifies ports
    ensures ports.row.manifest == old(ports.row.manifest)
    ensures Reaches(env, db, id, old(ports.View()), ChooseBest, ports.View(), AfterSelection(selection, chosen))
  {
    hide Reaches, Listed, Choose, FindCandidate;
    ghost var st0 := ports.View();
    ReachesItself(env, db, id, st0, ChooseBest);
    ReachesStep(env, db, id, st0, ChooseBest, st0, ChooseBest);
    var listed := ports.ListCandidates();
    selection := Choose(listed);
    chosen := if selection.selected.Some? then FindCandidate(listed, selection.selected.value) else None;
    ReachesStep(env, db, id, st0, ChooseBest, ports.View(), RecordSelection(selection, chosen));
    ports.RecordSelectionOf(id, selection);
  }

  /** The one run on the holdout period, its record, and the end. */
  method HoldoutPhase(ports: Ports, env: Env, db: Database, chosen: Option<Candidate>, id: Id)
      returns (r: Result<Row, Error>)
    requires id == ports.row.manifest.optimizationId
    modifies ports
    ensures ports.row.manifest == old(ports.row.manifest)
    ensures Reaches(env, db, id, old(ports.View()), RunHoldout(chosen), ports.View(),
        if r.Ok? then Done else Raised(r.error))
    ensures r.Ok? ==> r.value == ports.row
  {
    hide Reaches, RunStrategy, ObjectiveFrom;
    ghost var st0 := ports.View();
    ReachesItself(env, db, id, st0, RunHoldout(chosen));
    ReachesStep(env, db, id, st0, RunHoldout(chosen), st0, RunHoldout(chosen));
    if chosen.None? || chosen.value.result.strategyId.None? {
      return Err(AssertionFailed);
    }
    var m := ports.row.manifest;
    var outcome := ports.RunPeriodOf(env, db, chosen.value.result.strategyId.value, m.partitions.holdoutStart,
        m.partitions.holdoutEnd);
    if outcome.PeriodRaised? {
      ReachesStep(env, db, id, st0, RunHoldout(chosen), ports.View(), AbortHoldout(outcome.error));
      ports.TryFail(id, RunningHoldout, outcome.error);
      return Err(outcome.error);
    }

    var objective := if outcome.bundle.terminalStatus.RunFailed? then NotAvailable(HoldoutRunFailed)
      else ObjectiveFrom(outcome.bundle, m.objectiveKey);
    ReachesStep(env, db, id, st0, RunHoldout(chosen), ports.View(),
        RecordHoldout(HoldoutRecord(outcome.runId, objective)));
    ports.RecordHoldoutResult(id, HoldoutRecord(outcome.runId, objective));
    ReachesStep(env, db, id, st0, RunHoldout(chosen), ports.View(), ToCompleted);
    var moved := ports.TransitionStatus(id, RunningHoldout, Completed, None);
    r := if moved.Ok? then Ok(ports.row) else Err(moved.error);
  }

  /** The service. What it leaves in the store, and whether it returns or what it raises, is where one
      executor ends up that makes its calls on its own. */
  method ExecuteOptimization(ports: Ports, env: Env, db: Database, id: Id) returns (r: Result<Row, Error>)
    modifies ports
    ensures Reaches(env, db, id, old(ports.View()), Start, ports.View(), if r.Ok? then Done else Raised(r.error))
    ensures r.Ok? ==> r.value == ports.row
  {
    hide Reaches, Listed, Choose, FindCandidate, RunStrategy, ObjectiveFrom;
    ghost var st0 := ports.View();
    ReachesItself(env, db, id, st0, Start);
    ReachesStep(env, db, id, st0, Start, st0, Start);
    if id != ports.row.manifest.optimizationId {
      return Err(NotFound);
    }
    if ports.row.status != Status.Created {
      return Err(NotEligible(ports.row.status));
    }

    ReachesStep(env, db, id, st0, Start, ports.View(), ToValidating);
    var moved := ports.TransitionStatus(id, Status.Created, Validating, None);
    assert moved.Ok?;
    ReachesStep(env, db, id, st0, Start, ports.View(), ToTraining);
    moved := ports.TransitionStatus(id, Validating, RunningTrainValidation, None);
    assert moved.Ok?;

    ghost var before := ports.View();
    var error := RunTrainValidationPhase(ports, env, db, id);
    ReachesAfter(env, db, id, st0, Start, before, ListPending, ports.View(),
      if error.None? then ToSelecting else Raised(error.value));
    if error.Some? {
      return Err(error.value);
    }

    ReachesStep(env, db, id, st0, Start, ports.View(), ToSelecting);
    moved := ports.TransitionStatus(id, RunningTrainValidation, Selecting, None);
    if moved.Err? {
      return Err(moved.error);
    }

    before := ports.View();
    var selection, chosen := SelectCandidatePhase(ports, env, db, id);
    ReachesAfter(env, db, id, st0, Start, before, ChooseBest, ports.View(), AfterSelection(selection, chosen));

    if selection.selected.None? {
      ReachesStep(env, db, id, st0, Start, ports.View(), FinishUnselected);
      moved := ports.TransitionStatus(id, Selecting, Failed, Some(NoEligibleCandidate));
      if moved.Err? {
        return Err(moved.error);
      }
      return Ok(ports.row);
    }

    ReachesStep(env, db, id, st0, Start, ports.View(), ToHoldout(chosen));
    moved := ports.TransitionStatus(id, Selecting, RunningHoldout, None);
    if moved.Err? {
      return Err(moved.error);
    }

    before := ports.View();
    r := HoldoutPhase(ports, env, db, chosen, id);
    ReachesAfter(env, db, id, st0, Start, before, RunHoldout(chosen), ports.View(),
      if r.Ok? then Done else Raised(r.error));
  }
}
