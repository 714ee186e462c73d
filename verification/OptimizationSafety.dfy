/** The promises an optimization makes, for every schedule of any number of executors: candidates are
    tried at most once, the winner is the best on validation, the holdout is run at most once and only
    after the choice, and nothing on the holdout period can change the choice. */
module OptimizationSafety {
  import opened Wrappers
  import opened Sequences
  import opened Optimization
  import opened BarStore
  import opened OptimizationRun
  import opened OptimizationLifecycle
  import opened OptimizationSteps

  // ---- Lifecycle ----

  /** In every reachable state: candidates are as created or tried once, and rejected ones as created;
      a selection covers every candidate in its audit; no run has touched the holdout period before
      the choice was made, and no two ever do; nobody hits an internal error. */
  lemma Lifecycle(env: Env, db: Database, sys: System, schedule: seq<nat>)
    requires Fresh(sys)
    ensures var s := Interleave(env, db, sys, schedule); var st := s.store;
      && st.row.manifest == sys.store.row.manifest && |st.candidates| == |sys.store.candidates|
      && (forall i :: 0 <= i < |st.candidates| ==> CandidateOk(st, sys.store.candidates[i], st.candidates[i]))
      && (forall i :: 0 <= i < |st.candidates| && sys.store.candidates[i].result.status.Rejected? ==>
            st.candidates[i] == sys.store.candidates[i])
      && (st.row.status in {Selecting, RunningHoldout, Completed} ==> NonePending(st.candidates))
      && (st.row.selection.Some? ==>
            && NonePending(st.candidates) && st.row.selection.value == Choose(st.candidates)
            && (Unselected(st.row) <==> !SomeObjective(st.candidates))
            && AuditTells(st.candidates, st.row.selection.value.audit)
            && |st.row.selection.value.audit| == st.row.manifest.candidateCount + st.row.manifest.rejectedCount)
      && st.row.failureCode == ExpectedCode(st.row)
      && (st.row.status in {Status.Created, Validating, RunningTrainValidation, Selecting} ==> NoHoldoutRun(st))
      && AtMostOneHoldoutRun(st)
      && (forall i :: 0 <= i < |s.executors| ==> s.executors[i].Raised? ==> !Internal(s.executors[i].error))
  {
    hide TriedWith, Choose, FindCandidate, HoldoutOk, NoHoldoutRun, AtMostOneHoldoutRun, Interleave;
    AlwaysInv(env, db, sys, schedule);
    var s := Interleave(env, db, sys, schedule);
    forall i | 0 <= i < |s.executors| && s.executors[i].Raised?
      ensures !Internal(s.executors[i].error)
    {
      assert ExecutorOk(sys.store, s.store, s.executors[i]);
    }
    AuditCoversAll(s.store.candidates);
    ChosenIffObjective(s.store.candidates);
    if s.store.row.status in {RunningHoldout, Completed} {
      CompletedHasSelection(sys.store, s.store);
    }
  }

  /** The audit lists every candidate in sequence, with its status and what came of its objective. */
  predicate AuditTells(candidates: seq<Candidate>, audit: seq<AuditEntry>) {
    && |audit| == |candidates|
    && forall i :: 0 <= i < |candidates| ==> var c, a := candidates[i], audit[i];
         && a.candidateId == c.candidateId && a.sequence == i && a.windows == c.windows && a.status == c.result.status
         && match c.result.objective
            case NoObjective => a.objectiveStatus == None && a.objectiveValue == None
            case Value(v) => a.objectiveStatus == Some(IsAvailable) && a.objectiveValue == Some(v)
            case NotAvailable(_) => a.objectiveStatus == Some(IsNotAvailable) && a.objectiveValue == None
  }

  lemma AuditCoversAll(candidates: seq<Candidate>)
    ensures AuditTells(candidates, Choose(candidates).audit)
  {
    hide SelectCandidate;
  }

  lemma CompletedHasSelection(st0: Store, st: Store)
    requires StoreOk(st0, st) && st.row.status in {RunningHoldout, Completed}
    ensures st.row.selection.Some? && st.row.selection.value.selected.Some?
  {
    hide Choose, FindCandidate, TriedWith;
  }

  /** A completed optimization selected a candidate whose validation value no other one beats, and ran
      exactly one run on the holdout period, with that candidate's windows. */
  lemma CompletedMeans(env: Env, db: Database, sys: System, schedule: seq<nat>) returns (w: nat)
    requires Fresh(sys) && Interleave(env, db, sys, schedule).store.row.status == Completed
    ensures var st := Interleave(env, db, sys, schedule).store;
      && w < |st.candidates|
      && st.row.selection.Some? && st.row.selection.value.selected == Some(st.candidates[w].candidateId)
      && Unbeaten(st.candidates, st.candidates[w])
      && st.row.holdout.Some? && HoldoutOk(st, st.row.holdout.value)
      && (var run := st.runs[st.row.holdout.value.runId];
          StrategyIs(st, run.strategyId, st.candidates[w].windows))
  {
    hide Choose, FindCandidate;
    AlwaysInv(env, db, sys, schedule);
    var st := Interleave(env, db, sys, schedule).store;
    CompletedHasSelection(sys.store, st);
    w := WinnerIsTried(sys.store, st);
    FindsById(st.candidates, st.row.selection.value.selected.value);
  }

  lemma {:induction false} FindsById(candidates: seq<Candidate>, id: Id)
    ensures FindCandidate(candidates, id).Some? ==> FindCandidate(candidates, id).value.candidateId == id
  {
    if candidates != [] {
      FindsById(candidates[1..], id);
    }
  }

  /** A candidate that has been tried is never written again. */
  lemma TriedOnce(env: Env, db: Database, sys: System, schedule: seq<nat>, turn: nat, i: nat)
    requires Fresh(sys) && i < |sys.store.candidates|
    ensures var before, after := Interleave(env, db, sys, schedule).store,
        Interleave(env, db, sys, schedule + [turn]).store;
      && i < |before.candidates| == |after.candidates|
      && (before.candidates[i] != sys.store.candidates[i] ==> after.candidates[i] == before.candidates[i])
  {
    AlwaysInv(env, db, sys, schedule);
    var s := Interleave(env, db, sys, schedule);
    assert Init(schedule + [turn]) == schedule && Last(schedule + [turn]) == turn;
    if turn < |s.executors| {
      StepTriesOnce(env, db, s.store.row.manifest.optimizationId, sys.store, s.store, s.executors[turn], i);
    }
  }

  lemma StepTriesOnce(env: Env, db: Database, id: Id, st0: Store, st: Store, e: Executor, i: nat)
    requires Initial(st0) && StoreOk(st0, st) && ExecutorOk(st0, st, e) && i < |st0.candidates|
    ensures var next := Step(env, db, id, st, e).0;
      |next.candidates| == |st.candidates| && (st.candidates[i] != st0.candidates[i] ==>
          next.candidates[i] == st.candidates[i])
  {
    hide StoreOk, Initial, RunPeriod, Choose, FindCandidate;
    if e.Record? {
      RecordTriesOnce(st0, st, e, i);
    } else {
      assert Step(env, db, id, st, e).0.candidates == st.candidates;
      SameNumber(st0, st);
    }
  }

  lemma SameNumber(st0: Store, st: Store)
    requires StoreOk(st0, st)
    ensures |st.candidates| == |st0.candidates|
  {}

  lemma RecordTriesOnce(st0: Store, st: Store, e: Executor, i: nat)
    requires Initial(st0) && StoreOk(st0, st) && ExecutorOk(st0, st, e) && e.Record? && i < |st0.candidates|
    ensures |st.candidates| == |st0.candidates|
    ensures st.candidates[i] != st0.candidates[i] ==>
      RecordCandidate(st.candidates, e.c.candidateId, e.result)[i] == st.candidates[i]
  {
    hide TriedWith, SelectionOk, CandidateOk;
    PendingIsValid(st0, e.c, e.todo);
    RecordedOk(st0, st, e, |st0.candidates| - |e.todo| - 1, i);
  }

  // ---- Status ----

  lemma StepStatus(env: Env, db: Database, id: Id, st: Store, e: Executor)
    ensures var next := Step(env, db, id, st, e).0.row.status;
      next == st.row.status || TransitionAllowed(st.row.status, next)
  {
    hide RunPeriod, Choose, FindCandidate, RecordCandidate;
  }

  /** The errors of an executor that did not get in: the optimization is another one, or somebody else
      moved it first. */
  predicate CameSecond(e: Error) {
    e.NotFound? || e.NotEligible? || e.Stale?
  }

  /** Whoever got in and raised has failed the optimization. */
  ghost predicate RaisedFailed(sys: System) {
    forall i :: 0 <= i < |sys.executors| && sys.executors[i].Raised? && !CameSecond(sys.executors[i].error) ==>
      sys.store.row.status == Failed
  }

  lemma StepFails(env: Env, db: Database, st0: Store, st: Store, e: Executor)
    requires Initial(st0) && StoreOk(st0, st) && ExecutorOk(st0, st, e)
    ensures var (next, e') := Step(env, db, st.row.manifest.optimizationId, st, e);
      && (e'.Raised? && !CameSecond(e'.error) && !e.Raised? ==> next.row.status == Failed)
      && (e.Raised? ==> next == st && e' == e)
      && (st.row.status == Failed ==> next.row.status == Failed)
  {
    hide RunStrategy, Choose, RecordCandidate, ObjectiveFrom, DealtWith, NonePending, Chosen, HoldoutOk, TriedWith;
    if e.RunHoldout? {
      WinnerHasStrategy(st0, st, e);
    }
    StepStatus(env, db, st.row.manifest.optimizationId, st, e);
  }

  lemma WinnerHasStrategy(st0: Store, st: Store, e: Executor)
    requires Initial(st0) && StoreOk(st0, st) && ExecutorOk(st0, st, e) && e.RunHoldout?
    ensures e.chosen.Some? && e.chosen.value.result.strategyId.Some?
    ensures e.chosen.value.result.strategyId.value in st.strategies
  {
    hide Choose, FindCandidate, StoreOk, CandidateOk;
    var w := WinnerIsTried(st0, st);
  }

  /** An executor that raises anything but that it came second leaves the optimization failed, for good. */
  lemma {:induction false} ErrorsFail(env: Env, db: Database, sys: System, schedule: seq<nat>)
    requires Fresh(sys)
    ensures RaisedFailed(Interleave(env, db, sys, schedule))
  {
    hide Step, Initial, StoreOk, ExecutorOk;
    if schedule != [] {
      ErrorsFail(env, db, sys, Init(schedule));
      AlwaysInv(env, db, sys, Init(schedule));
      var s, i := Interleave(env, db, sys, Init(schedule)), Last(schedule);
      if i < |s.executors| {
        StepFails(env, db, sys.store, s.store, s.executors[i]);
      }
    }
  }

  /** How often the status changed along a schedule. */
  function Changes(env: Env, db: Database, sys: System, schedule: seq<nat>): nat {
    if schedule == [] then 0
    else
      Changes(env, db, sys, Init(schedule)) +
      if Interleave(env, db, sys, schedule).store.row.status ==
          Interleave(env, db, sys, Init(schedule)).store.row.status then 0 else 1
  }

  /** The status only moves along the graph, so it changes at most five times and a terminal one is
      final. */
  lemma {:induction false} AtMostFiveChanges(env: Env, db: Database, sys: System, schedule: seq<nat>)
    ensures var last := Interleave(env, db, sys, schedule).store.row.status;
      Rank(sys.store.row.status) + Changes(env, db, sys, schedule) <= Rank(last) <= 5
  {
    hide Step;
    if schedule != [] {
      AtMostFiveChanges(env, db, sys, Init(schedule));
      var s := Interleave(env, db, sys, Init(schedule));
      if Last(schedule) < |s.executors| {
        StepStatus(env, db, s.store.row.manifest.optimizationId, s.store, s.executors[Last(schedule)]);
        EdgesClimb(s.store.row.status, Interleave(env, db, sys, schedule).store.row.status);
      }
    }
  }

  // ---- At most once ----

  /** How many turns were taken by an executor in such a position. */
  function TurnsAt(env: Env, db: Database, sys: System, schedule: seq<nat>, at: Executor -> bool): nat {
    if schedule == [] then 0
    else
      var s, i := Interleave(env, db, sys, Init(schedule)), Last(schedule);
      TurnsAt(env, db, sys, Init(schedule), at) + if i < |s.executors| && at(s.executors[i]) then 1 else 0
  }

  predicate InHoldoutPhase(e: Executor) {
    e.AbortHoldout? || e.RecordHoldout? || e.ToCompleted? || e.Done? || e.Raised?
  }

  /** The holdout has been run: whoever is not finishing up can no longer get anywhere. */
  predicate Late(sys: System) {
    && sys.store.row.status in {RunningHoldout, Completed, Failed}
    && forall i :: 0 <= i < |sys.executors| ==>
         sys.executors[i].Start? || sys.executors[i].ToValidating? || InHoldoutPhase(sys.executors[i])
  }

  lemma LateStays(env: Env, db: Database, sys: System, i: nat)
    requires Late(sys)
    ensures var next := Turn(env, db, sys, i);
      && Late(next) && next.store.candidates == sys.store.candidates
          && next.store.row.selection == sys.store.row.selection
      && next.store.row.manifest == sys.store.row.manifest
      && (i < |sys.executors| ==> InHoldoutPhase(next.executors[i]) && !sys.executors[i].RunHoldout?)
  {
    hide RunPeriod, Choose, FindCandidate, RecordCandidate;
  }

  /** Running the holdout makes it late: by then every other executor is a stranger. */
  lemma HoldoutMakesLate(env: Env, db: Database, st0: Store, sys: System, i: nat)
    requires Inv(st0, sys) && i < |sys.executors| && sys.executors[i].RunHoldout?
    ensures var next := Turn(env, db, sys, i);
      && Late(next) && next.store.candidates == sys.store.candidates && next.store.row == sys.store.row
      && InHoldoutPhase(next.executors[i])
      && (forall j :: 0 <= j < |next.executors| && j != i ==>
          !Owner(next.executors[j]) && next.executors[j] == sys.executors[j])
  {
    hide StoreOk, RunPeriod, Choose, FindCandidate;
    assert ExecutorOk(st0, sys.store, sys.executors[i]);
    assert Owner(sys.executors[i]);
  }

  const AT_HOLDOUT := (e: Executor) => e.RunHoldout?

  const AT_RECORDING := (e: Executor) => e.RecordHoldout?

  const AT_ENTRY := (e: Executor) => e.ToTraining?

  /** The holdout is run at most once, its result is recorded at most once, and at most one executor
      ever enters, however many race. */
  lemma {:induction false} HoldoutAtMostOnce(env: Env, db: Database, sys: System, schedule: seq<nat>)
    requires Fresh(sys)
    ensures TurnsAt(env, db, sys, schedule, AT_HOLDOUT) <= 1
    ensures TurnsAt(env, db, sys, schedule, AT_HOLDOUT) == 1 ==> Late(Interleave(env, db, sys, schedule))
  {
    hide Inv, Late;
    if schedule != [] {
      var before, i := Init(schedule), Last(schedule);
      HoldoutAtMostOnce(env, db, sys, before);
      AlwaysInv(env, db, sys, before);
      var s := Interleave(env, db, sys, before);
      if Late(s) {
        LateStays(env, db, s, i);
      } else if i < |s.executors| && s.executors[i].RunHoldout? {
        HoldoutMakesLate(env, db, sys.store, s, i);
      }
    }
  }

  lemma {:induction false} RecordedAtMostOnce(env: Env, db: Database, sys: System, schedule: seq<nat>)
    requires Fresh(sys)
    ensures TurnsAt(env, db, sys, schedule, AT_RECORDING) ==
        if Interleave(env, db, sys, schedule).store.row.holdout.Some? then 1 else 0
  {
    hide Step;
    if schedule != [] {
      var before, i := Init(schedule), Last(schedule);
      RecordedAtMostOnce(env, db, sys, before);
      AlwaysInv(env, db, sys, before);
      var s := Interleave(env, db, sys, before);
      if i < |s.executors| {
        assert ExecutorOk(sys.store, s.store, s.executors[i]);
        StepRecords(env, db, s.store.row.manifest.optimizationId, s.store, s.executors[i]);
      }
    }
  }

  lemma StepRecords(env: Env, db: Database, id: Id, st: Store, e: Executor)
    ensures Step(env, db, id, st, e).0.row.holdout == if e.RecordHoldout? then Some(e.holdout) else st.row.holdout
  {
    hide RunPeriod, Choose, FindCandidate, RecordCandidate;
  }

  /** Only one executor gets past the compare-and-set from `created`. */
  lemma {:induction false} EnteredAtMostOnce(env: Env, db: Database, sys: System, schedule: seq<nat>)
    requires Fresh(sys)
    ensures TurnsAt(env, db, sys, schedule, AT_ENTRY) <= 1
    ensures TurnsAt(env, db, sys, schedule, AT_ENTRY) == 1 ==>
        Rank(Interleave(env, db, sys, schedule).store.row.status) >= 2
  {
    hide Step, Inv;
    if schedule != [] {
      var before, i := Init(schedule), Last(schedule);
      EnteredAtMostOnce(env, db, sys, before);
      AlwaysInv(env, db, sys, before);
      var s := Interleave(env, db, sys, before);
      if i < |s.executors| {
        StepEnters(env, db, sys.store, s, i);
      }
    }
  }

  lemma StepEnters(env: Env, db: Database, st0: Store, s: System, i: nat)
    requires Inv(st0, s) && i < |s.executors|
    ensures Rank(s.store.row.status) <= Rank(Turn(env, db, s, i).store.row.status)
    ensures s.executors[i].ToTraining? ==>
      Rank(s.store.row.status) == 1 && Rank(Turn(env, db, s, i).store.row.status) == 2
  {
    hide StoreOk, RunPeriod, Choose, FindCandidate, RecordCandidate;
    assert ExecutorOk(st0, s.store, s.executors[i]);
    StepStatus(env, db, s.store.row.manifest.optimizationId, s.store, s.executors[i]);
    EdgesClimb(s.store.row.status, Turn(env, db, s, i).store.row.status);
  }

  // ---- The sealed holdout ----

  /** Two systems that differ, if at all, only in what the holdout run left behind. */
  ghost predicate Alike(a: System, b: System) {
    a == b ||
    (&& Late(a) && Late(b)
     && a.store.candidates == b.store.candidates && a.store.row.selection == b.store.row.selection
     && a.store.row.manifest == b.store.row.manifest
     && |a.executors| == |b.executors|
     && forall i :: 0 <= i < |a.executors| ==>
          a.executors[i] == b.executors[i] || (InHoldoutPhase(a.executors[i]) && InHoldoutPhase(b.executors[i])))
  }

  /** A call other than the holdout run does the same on two databases that agree before the holdout. */
  lemma StepIgnoresHoldout(env: Env, a: Database, b: Database, id: Id, st: Store, e: Executor)
    requires OrderedPartitions(st.row.manifest.partitions) && !e.RunHoldout?
    requires AgreeBefore(a, b, Midnight(st.row.manifest.partitions.holdoutStart))
    ensures Step(env, a, id, st, e) == Step(env, b, id, st, e)
  {
    hide AgreeBefore, RunPeriod, Choose, FindCandidate, RecordCandidate, ObjectiveFrom, Abort;
    var p := st.row.manifest.partitions;
    if e.Train? && e.strategyId in st.strategies {
      PeriodIgnoresHoldout(env, a, b, st.row.manifest, st.strategies[e.strategyId], p.trainStart, p.trainEnd,
          st.nextId);
    } else if e.Validate? && e.strategyId in st.strategies {
      PeriodIgnoresHoldout(env, a, b, st.row.manifest, st.strategies[e.strategyId], p.validationStart, p.validationEnd,
          st.nextId);
    }
  }

  lemma PeriodIgnoresHoldout(env: Env, a: Database, b: Database, m: Manifest, w: Windows, start: int, end: int,
      nextId: Id)
    requires end < m.partitions.holdoutStart && AgreeBefore(a, b, Midnight(m.partitions.holdoutStart))
    ensures RunPeriod(env, a, m, w, start, end, nextId) == RunPeriod(env, b, m, w, start, end, nextId)
  {
    hide ExecutePeriod, GetSnapshot;
    SnapshotIgnoresLater(a, b, m.datasetId, m.instrumentId, start, end, m.partitions.holdoutStart);
  }

  lemma TurnsAlike(env: Env, a: Database, b: Database, st0: Store, s: System, t: System, i: nat)
    requires Inv(st0, s) && Inv(st0, t) && Alike(s, t) && OrderedPartitions(st0.row.manifest.partitions)
    requires AgreeBefore(a, b, Midnight(st0.row.manifest.partitions.holdoutStart))
    ensures Alike(Turn(env, a, s, i), Turn(env, b, t, i))
  {
    hide AgreeBefore, StoreOk, ExecutorOk, Step, Late, InHoldoutPhase, Midnight;
    assert s.store.row.manifest == st0.row.manifest by { SameManifest(st0, s.store); }
    if s == t {
      if i < |s.executors| {
        if s.executors[i].RunHoldout? {
          HoldoutMakesLate(env, a, st0, s, i);
          HoldoutMakesLate(env, b, st0, s, i);
        } else {
          StepIgnoresHoldout(env, a, b, s.store.row.manifest.optimizationId, s.store, s.executors[i]);
        }
      }
    } else {
      LateStays(env, a, s, i);
      LateStays(env, b, t, i);
    }
  }

  lemma SameManifest(st0: Store, st: Store)
    requires StoreOk(st0, st)
    ensures st.row.manifest == st0.row.manifest
  {}

  lemma {:induction false} AlwaysAlike(env: Env, a: Database, b: Database, sys: System, schedule: seq<nat>)
    requires Fresh(sys) && AgreeBefore(a, b, Midnight(sys.store.row.manifest.partitions.holdoutStart))
    ensures Alike(Interleave(env, a, sys, schedule), Interleave(env, b, sys, schedule))
  {
    hide AgreeBefore, Alike, Inv, Midnight, Late;
    if schedule == [] {
      assert Alike(sys, sys) by { AlikeItself(sys); }
    } else {
      AlwaysAlike(env, a, b, sys, Init(schedule));
      AlwaysInv(env, a, sys, Init(schedule));
      AlwaysInv(env, b, sys, Init(schedule));
      TurnsAlike(env, a, b, sys.store, Interleave(env, a, sys, Init(schedule)),
          Interleave(env, b, sys, Init(schedule)), Last(schedule));
    }
  }

  lemma AlikeItself(sys: System)
    ensures Alike(sys, sys)
  {}

  /** The holdout cannot leak into the choice. Take one request and two databases that differ only in
      bars stamped from the first holdout day on, both good enough for creation. Then, whatever the
      schedule and the number of executors, every candidate's result, the selected candidate and the
      whole selection audit are the same at every point, in both. */
  lemma HoldoutCannotLeak(env: Env, column: Column, a: Database, b: Database, r: Request, nextId: Id,
      executors: seq<Executor>, schedule: seq<nat>)
    requires Create(column, a, r, nextId).Ok? && Create(column, b, r, nextId).Ok?
    requires AgreeBefore(a, b, Midnight(r.partitions.holdoutStart))
    requires forall i :: 0 <= i < |executors| ==> executors[i].Start?
    ensures var sa := Interleave(env, a, System(Create(column, a, r, nextId).value, executors), schedule).store;
      var sb := Interleave(env, b, System(Create(column, b, r, nextId).value, executors), schedule).store;
      sa.candidates == sb.candidates && sa.row.selection == sb.row.selection
  {
    hide AgreeBefore, Interleave, Midnight;
    CreationIgnoresBars(column, a, b, r, nextId);
    CreatedIsInitial(column, a, r, nextId);
    var sys := System(Create(column, a, r, nextId).value, executors);
    assert sys.store.row.manifest.partitions == r.partitions by { hide CheckCoverage, CanonicalizeGrid; }
    AlwaysAlike(env, a, b, sys, schedule);
  }
}
