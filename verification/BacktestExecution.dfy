/** The store of one run as an object, and the execution of the run against it, call by call. */
module BacktestExecution {
  import opened Wrappers
  import opened Domain
  import opened Backtests
  import Artifact

  class RunStore {
    var row: Option<RunRow>
    var bundles: seq<Artifact.Bundle>

    function View(): Store
      reads this
    {
      Store(row, bundles)
    }

    /** One conditional update; when it hits nothing, a read tells why. */
    method TransitionStatus(expected: Status, next: Status, code: Option<RunFailure>) returns (r: Result<RunRow, Error>)
      modifies `row
      ensures r == Transition(old(row), expected, next, code)
      ensures row == if r.Ok? then Some(r.value) else old(row)
    {
      if !TransitionAllowed(expected, next) {
        return Err(InvalidTransition);
      }
      if row.Some? && row.value.status == expected {
        row := Some(RunRow(next, if code.Some? then code else row.value.failureCode));
        return Ok(row.value);
      }
      if row == None {
        return Err(NotFound);
      }
      r := Err(Stale(row.value.status));
    }

    /** One transaction: the whole bundle or, after a rollback, none of it. */
    method PersistArtifact(bundle: Artifact.Bundle, fails: bool) returns (ok: bool)
      modifies `bundles
      ensures ok <==> !fails
      ensures bundles == if ok then old(bundles) + [bundle] else old(bundles)
    {
      var before := bundles;
      bundles := bundles + [bundle];
      if fails {
        bundles := before;
      }
      ok := !fails;
    }
  }

  function Returned(r: Result<ExecutionResult, Error>): Executor {
    match r
    case Ok(result) => Done(result)
    case Err(e) => Raised(e)
  }

  lemma {:induction false} FinalStays(job: Job, st: Store, n: nat, m: nat)
    requires n <= m
    requires var e := Steps(job, st, Start, n).1; e.Done? || e.Raised?
    ensures Steps(job, st, Start, m) == Steps(job, st, Start, n)
  {
    hide Step;
    if n < m {
      FinalStays(job, st, n, m - 1);
      StepStays(job, Steps(job, st, Start, n).0, Steps(job, st, Start, n).1);
    }
  }

  lemma StepStays(job: Job, st: Store, e: Executor)
    requires e.Done? || e.Raised?
    ensures Step(job, st, e) == (st, e)
  {}

  /** The service: what it leaves in the store and what it returns or raises are those of one
      executor running alone. */
  method ExecuteBacktestRun(store: RunStore, job: Job) returns (r: Result<ExecutionResult, Error>)
    modifies store
    ensures (store.View(), Returned(r)) == Execute(job, old(store.View()))
  {
    hide Artifact.Build;
    ghost var st0 := store.View();
    assert Steps(job, st0, Start, 0) == (st0, Start);
    if store.row == None {
      FinalStays(job, st0, 1, ENOUGH);
      return Err(NotFound);
    }
    if store.row.value.status != Created {
      FinalStays(job, st0, 1, ENOUGH);
      return Err(NotEligible(store.row.value.status));
    }
    if !job.strategyFound {
      FinalStays(job, st0, 1, ENOUGH);
      return Err(StrategyNotFound);
    }
    if job.instrumentCount != 1 {
      assert Steps(job, st0, Start, 1) == (st0, Reject(UnsupportedMultiInstrument));
      r := RejectRun(store, UnsupportedMultiInstrument);
      FinalStays(job, st0, 2, ENOUGH);
      return;
    }
    assert Steps(job, st0, Start, 1) == (st0, LoadBars);

    if job.snapshot == None {
      assert Steps(job, st0, Start, 2) == (st0, Reject(UnresolvedInstrumentMapping));
      r := RejectRun(store, UnresolvedInstrumentMapping);
      FinalStays(job, st0, 3, ENOUGH);
      return;
    }
    var bars := job.snapshot.value;
    if bars == [] {
      assert Steps(job, st0, Start, 2) == (st0, Reject(EmptyBarSnapshot));
      r := RejectRun(store, EmptyBarSnapshot);
      FinalStays(job, st0, 3, ENOUGH);
      return;
    }
    assert Steps(job, st0, Start, 2) == (st0, Claim(bars));

    var claimed := store.TransitionStatus(Created, Running, None);
    assert claimed.Ok?;
    assert Steps(job, st0, Start, 3) == (store.View(), RunEngine(bars));

    var outcome := job.engine(bars);
    if outcome == None {
      assert Steps(job, st0, Start, 4) == (store.View(), ReportEngineError);
      var failed := store.TransitionStatus(Running, Failed, Some(Engine(EngineError)));
      FinalStays(job, st0, 5, ENOUGH);
      assert failed.Ok?;
      return Err(EngineExecution);
    }
    var result := outcome.value;
    assert Steps(job, st0, Start, 4) == (store.View(), Conclude(bars, result));

    var concluded;
    if result.terminalStatus.RunFailed? {
      concluded := store.TransitionStatus(Running, Failed, EngineCode(result));
    } else {
      concluded := store.TransitionStatus(Running, Completed, None);
    }
    assert concluded.Ok?;
    assert Steps(job, st0, Start, 5) == (store.View(), Persist(bars, result));

    if job.writer == NoWriter {
      assert Steps(job, st0, Start, 6) == (store.View(), Done(result));
      return Ok(result);
    }
    var artifact := Artifact.Build(result, bars, job.initialCash, job.basis, job.power);
    if artifact == None {
      assert Steps(job, st0, Start, 6) == (store.View(), Raised(ArtifactFailed));
      return Err(ArtifactFailed);
    }
    var written := store.PersistArtifact(artifact.value, job.writer.FailsToWrite?);
    assert Steps(job, st0, Start, 6) == (store.View(), if written then Done(result) else Raised(ArtifactFailed));
    r := if written then Ok(result) else Err(ArtifactFailed);
  }

  method RejectRun(store: RunStore, reason: RunFailure) returns (r: Result<ExecutionResult, Error>)
    modifies store
    ensures (store.View(), Returned(r)) == Move(old(store.View()), Created, Failed, Some(reason),
        Raised(Rejected(reason)))
  {
    var failed := store.TransitionStatus(Created, Failed, Some(reason));
    r := Err(if failed.Ok? then Rejected(reason) else failed.error);
  }
}
