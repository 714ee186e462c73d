/** What stands behind the records of an optimization: every artifact is what the engine makes of its
    strategy on its period, validation only ever follows a completed training run, and a candidate's
    result is what its two artifacts say. */
module OptimizationEvidence {
  import opened Wrappers
  import opened Sequences
  import opened Optimization
  import opened BarStore
  import opened OptimizationRun
  import opened OptimizationLifecycle
  import opened OptimizationSteps
  import Artifact
  import Engine
  import Metrics
  import OptimizationSafety
  import Sizing

  /** The artifact of the engine's result, set up with the policy and the windows, on the bars of the
      period; the ids of its orders follow the run's. */
  ghost predicate Genuine(env: Env, db: Database, m: Manifest, w: Windows, start: int, end: int, runId: Id,
                          bundle: Artifact.Bundle)
  {
    var p := m.policy;
    var params := Sizing.Params(p.capital, p.fraction, p.quantityIncrement, p.moneyScale, w.slow);
    var snapshot := GetSnapshot(db, m.datasetId, m.instrumentId, start, end);
    && Sizing.ValidParams(params) && snapshot.Some? && snapshot.value != []
    && var setup, fault := Engine.Setup(params, [env.sma(w)], env.broker), env.fault(w, snapshot.value);
       Some(bundle) == Artifact.Build(Engine.ExecuteGuarded(setup, snapshot.value, runId + 1, fault), snapshot.value,
                                      p.capital, p.basis, env.power)
  }

  predicate IsValidationRun(st: Store, runId: Id)
    requires runId in st.runs
  {
    && st.runs[runId].start == st.row.manifest.partitions.validationStart
    && st.runs[runId].end == st.row.manifest.partitions.validationEnd
  }

  predicate CompletedTraining(st: Store, runId: Id, strategyId: Id) {
    TrainRunIs(st, runId, strategyId) && st.runs[runId].bundle.value.terminalStatus.RunCompleted?
  }

  ghost predicate RunOk(env: Env, db: Database, st: Store, k: Id)
    requires k in st.runs
  {
    var run := st.runs[k];
    && run.strategyId in st.strategies
    && (run.bundle.Some? ==>
          Genuine(env, db, st.row.manifest, st.strategies[run.strategyId], run.start, run.end, k, run.bundle.value))
    && (IsValidationRun(st, k) ==> exists t :: CompletedTraining(st, t, run.strategyId))
  }

  ghost predicate Evidence(env: Env, db: Database, st: Store) {
    forall k :: k in st.runs ==> RunOk(env, db, st, k)
  }

  lemma RunIsGenuine(env: Env, db: Database, m: Manifest, w: Windows, start: int, end: int, nextId: Id)
    ensures var o := RunPeriod(env, db, m, w, start, end, nextId);
      o.Ran? ==> o.runId == nextId && Genuine(env, db, m, w, start, end, nextId, o.bundle)
  {
    hide Artifact.Build, Engine.ExecuteGuarded, GetSnapshot, ExecutePeriod, IdsAfter, Claims;
    RunPeriodOutcome(env, db, m, w, start, end, nextId);
    if RefuseRun(db, m, w, start, end).None? {
      RunPeriodExactly(env, m, w, GetSnapshot(db, m.datasetId, m.instrumentId, start, end), nextId);
    }
  }

  /** More strategies and runs leave the evidence there was. */
  lemma GrowthKeepsEvidence(env: Env, db: Database, st: Store, next: Store)
    requires Evidence(env, db, st) && next.row.manifest == st.row.manifest
    requires Inside(st.strategies, next.strategies) && Inside(st.runs, next.runs)
    ensures forall k :: k in st.runs ==> k in next.runs && RunOk(env, db, next, k)
  {
    hide Genuine;
    forall k | k in st.runs
      ensures k in next.runs && RunOk(env, db, next, k)
    {
      assert RunOk(env, db, st, k);
      if IsValidationRun(st, k) {
        var t :| CompletedTraining(st, t, st.runs[k].strategyId);
        assert CompletedTraining(next, t, st.runs[k].strategyId);
      }
    }
  }

  /** A run adds good evidence, if a validation run has its completed training run. */
  lemma RunKeepsEvidence(env: Env, db: Database, st0: Store, st: Store, strategyId: Id, start: int, end: int, t: Id)
    requires StoreOk(st0, st) && Evidence(env, db, st) && strategyId in st.strategies
    requires start == st.row.manifest.partitions.validationStart ==> CompletedTraining(st, t, strategyId)
    ensures Evidence(env, db, RunStrategy(env, db, st, strategyId, start, end).0)
  {
    hide RunPeriod, Genuine, StoreOk, CandidateOk;
    RunStrategyKeeps(env, db, st0, st, strategyId, start, end);
    RunIsGenuine(env, db, st.row.manifest, st.strategies[strategyId], start, end, st.nextId);
    var next := RunStrategy(env, db, st, strategyId, start, end).0;
    GrowthKeepsEvidence(env, db, st, next);
    if CompletedTraining(st, t, strategyId) {
      assert CompletedTraining(next, t, strategyId);
    }
  }

  lemma StepKeepsEvidence(env: Env, db: Database, id: Id, st0: Store, st: Store, e: Executor)
    requires Initial(st0) && StoreOk(st0, st) && ExecutorOk(st0, st, e) && Evidence(env, db, st)
    ensures Evidence(env, db, Step(env, db, id, st, e).0)
  {
    hide RunStrategy, Evidence, StoreOk, Choose, FindCandidate, RecordCandidate, ObjectiveFrom;
    var p := st.row.manifest.partitions;
    SameManifestAndIds(st0, st);
    match e
    case Train(_, _, s) => RunKeepsEvidence(env, db, st0, st, s, p.trainStart, p.trainEnd, 0);
    case Validate(_, _, s, t) => RunKeepsEvidence(env, db, st0, st, s, p.validationStart, p.validationEnd, t);
    case RunHoldout(chosen) =>
      if chosen.Some? && chosen.value.result.strategyId.Some? {
        OptimizationSafety.WinnerHasStrategy(st0, st, e);
        RunKeepsEvidence(env, db, st0, st, chosen.value.result.strategyId.value, p.holdoutStart, p.holdoutEnd, 0);
      }
    case Derive(_, _) =>
      var next := Step(env, db, id, st, e).0;
      EvidenceOf(env, db, st, next);
    case _ => EvidenceOf(env, db, st, Step(env, db, id, st, e).0);
  }

  lemma EvidenceOf(env: Env, db: Database, st: Store, next: Store)
    requires Evidence(env, db, st) && next.row.manifest == st.row.manifest
    requires Inside(st.strategies, next.strategies) && next.runs == st.runs
    ensures Evidence(env, db, next)
  {
    GrowthKeepsEvidence(env, db, st, next);
  }

  lemma SameManifestAndIds(st0: Store, st: Store)
    requires Initial(st0) && StoreOk(st0, st)
    ensures OrderedPartitions(st.row.manifest.partitions)
    ensures forall k :: k in st.strategies ==> k < st.nextId
  {}

  /** In every reachable state, every artifact is genuine, and no strategy was run on the validation
      period that does not have a completed run on the training period. */
  lemma {:induction false} AlwaysEvidence(env: Env, db: Database, sys: System, schedule: seq<nat>)
    requires Fresh(sys)
    ensures Evidence(env, db, Interleave(env, db, sys, schedule).store)
  {
    hide Step, Evidence, Initial, StoreOk, ExecutorOk;
    if schedule == [] {
      NoRunsYet(env, db, sys.store);
    } else {
      AlwaysEvidence(env, db, sys, Init(schedule));
      AlwaysInv(env, db, sys, Init(schedule));
      var s, i := Interleave(env, db, sys, Init(schedule)), Last(schedule);
      if i < |s.executors| {
        StepKeepsEvidence(env, db, s.store.row.manifest.optimizationId, sys.store, s.store, s.executors[i]);
      }
    }
  }

  lemma NoRunsYet(env: Env, db: Database, st: Store)
    requires Initial(st)
    ensures Evidence(env, db, st)
  {}

  // ---- What a result rests on ----

  /** The objective that a metric gives. */
  function Reported(status: Metrics.MetricStatus): Objective {
    match status
    case Available(value) => Value(value)
    case NotAvailable(reason) => OptimizationRun.NotAvailable(FromMetrics(Metrics.MetricUnavailable(reason)))
  }

  /** In a full set of metrics the objective is the one that the metric with its key gives. */
  lemma ObjectiveIsReported(bundle: Artifact.Bundle, key: Metrics.MetricKey, j: nat)
    requires Metrics.Keys(bundle.metrics) == Metrics.KEYS && j < |bundle.metrics| && bundle.metrics[j].key == key
    ensures ObjectiveFrom(bundle, key) == Reported(bundle.metrics[j].status)
  {
    forall i | 0 <= i < |bundle.metrics|
      ensures bundle.metrics[i].key == Metrics.KEYS[i]
    {
      assert Metrics.Keys(bundle.metrics)[i] == bundle.metrics[i].key;
    }
    Metrics.FindAt(bundle.metrics, key, j);
  }

  lemma GenuineMetrics(env: Env, db: Database, m: Manifest, w: Windows, start: int, end: int, runId: Id,
                       bundle: Artifact.Bundle)
    requires Genuine(env, db, m, w, start, end, runId, bundle)
    ensures bundle.terminalStatus.RunCompleted? ==> Metrics.Keys(bundle.metrics) == Metrics.KEYS
  {
    hide Artifact.Build, Engine.ExecuteGuarded, GetSnapshot;
    var p, bars := m.policy, GetSnapshot(db, m.datasetId, m.instrumentId, start, end).value;
    var params := Sizing.Params(p.capital, p.fraction, p.quantityIncrement, p.moneyScale, w.slow);
    var r := Engine.ExecuteGuarded(Engine.Setup(params, [env.sma(w)], env.broker), bars, runId + 1, env.fault(w, bars));
    Artifact.BundleConsistent(r, bars, p.capital, p.basis, env.power, Metrics.FinalEquity);
  }

  /** This run of the candidate's strategy over the period left a genuine artifact. */
  ghost predicate Ran(env: Env, db: Database, st: Store, c: Candidate, run: Option<Id>, start: int, end: int) {
    && c.result.strategyId.Some? && run.Some? && RunIs(st, run.value, c.result.strategyId.value, start, end)
    && Genuine(env, db, st.row.manifest, c.windows, start, end, run.value, st.runs[run.value].bundle.value)
  }

  /** What was recorded of a tried candidate, from the artifacts of its own runs. It is completed only
      after both runs completed, and its objective is then the metric of the validation run; it failed
      either in training, and was not validated, or in validation. */
  lemma ResultsFollowRuns(env: Env, db: Database, sys: System, schedule: seq<nat>, i: nat)
    requires Fresh(sys) && i < |sys.store.candidates|
    ensures var st := Interleave(env, db, sys, schedule).store;
      && i < |st.candidates|
      && var c, p := st.candidates[i], st.row.manifest.partitions;
         c == sys.store.candidates[i] ||
         (&& Ran(env, db, st, c, c.result.trainRun, p.trainStart, p.trainEnd)
          && var train := st.runs[c.result.trainRun.value].bundle.value;
             if c.result.validationRun.None? then
               && train.terminalStatus.RunFailed? && c.result.status == CandidateFailed
               && c.result.objective == OptimizationRun.NotAvailable(TrainRunFailed)
               && c.result.warningCount == train.warningCount
             else
               && train.terminalStatus.RunCompleted?
               && Ran(env, db, st, c, c.result.validationRun, p.validationStart, p.validationEnd)
               && var v := st.runs[c.result.validationRun.value].bundle.value;
                  && c.result.warningCount == train.warningCount + v.warningCount
                  && if v.terminalStatus.RunFailed? then
                       c.result.status == CandidateFailed
                       && c.result.objective == OptimizationRun.NotAvailable(ValidationRunFailed)
                     else
                       && c.result.status == CandidateCompleted
                       && forall j :: 0 <= j < |v.metrics| && v.metrics[j].key == st.row.manifest.objectiveKey ==>
                            c.result.objective == Reported(v.metrics[j].status))
  {
    hide Interleave, Genuine, SelectionOk, ObjectiveFrom, Initial;
    AlwaysInv(env, db, sys, schedule);
    AlwaysEvidence(env, db, sys, schedule);
    var st := Interleave(env, db, sys, schedule).store;
    var c := st.candidates[i];
    if c != sys.store.candidates[i] {
      assert CandidateOk(st, sys.store.candidates[i], c);
      assert RunOk(env, db, st, c.result.trainRun.value);
      if c.result.validationRun.Some? {
        var k := c.result.validationRun.value;
        assert RunOk(env, db, st, k);
        var run := st.runs[k];
        var v := run.bundle.value;
        GenuineMetrics(env, db, st.row.manifest, c.windows, run.start, run.end, k, v);
        if v.terminalStatus.RunCompleted? {
          forall j | 0 <= j < |v.metrics| && v.metrics[j].key == st.row.manifest.objectiveKey
            ensures c.result.objective == Reported(v.metrics[j].status)
          {
            ObjectiveIsReported(v, st.row.manifest.objectiveKey, j);
          }
        }
      }
    }
  }

  /** And what was recorded of the holdout, from the artifact of its run, which is one of the selected
      candidate's strategy. */
  lemma HoldoutFollowsRun(env: Env, db: Database, sys: System, schedule: seq<nat>) returns (w: nat)
    requires Fresh(sys) && Interleave(env, db, sys, schedule).store.row.status == Completed
    ensures var st := Interleave(env, db, sys, schedule).store;
      && w < |st.candidates| && Unbeaten(st.candidates, st.candidates[w])
      && st.row.selection.Some? && st.row.selection.value.selected == Some(st.candidates[w].candidateId)
      && st.row.holdout.Some?
      && var h, p := st.row.holdout.value, st.row.manifest.partitions;
         && Ran(env, db, st, st.candidates[w], Some(h.runId), p.holdoutStart, p.holdoutEnd)
         && var b := st.runs[h.runId].bundle.value;
            if b.terminalStatus.RunFailed? then h.objective == OptimizationRun.NotAvailable(HoldoutRunFailed)
            else forall j :: 0 <= j < |b.metrics| && b.metrics[j].key == st.row.manifest.objectiveKey ==>
                   h.objective == Reported(b.metrics[j].status)
  {
    hide Interleave, Genuine, ObjectiveFrom, Initial, Choose, FindCandidate;
    AlwaysInv(env, db, sys, schedule);
    AlwaysEvidence(env, db, sys, schedule);
    w := OptimizationSafety.CompletedMeans(env, db, sys, schedule);
    var st := Interleave(env, db, sys, schedule).store;
    var x := WinnerIsTried(sys.store, st);
    OptimizationSafety.FindsById(st.candidates, st.row.selection.value.selected.value);
    assert st.candidates[x].candidateId == st.candidates[w].candidateId;
    IdsStayDistinct(sys.store, st);
    assert x == w;
    var h := st.row.holdout.value;
    assert RunOk(env, db, st, h.runId);
    var b := st.runs[h.runId].bundle.value;
    var run := st.runs[h.runId];
    GenuineMetrics(env, db, st.row.manifest, st.candidates[w].windows, run.start, run.end, h.runId, b);
    if b.terminalStatus.RunCompleted? {
      forall j | 0 <= j < |b.metrics| && b.metrics[j].key == st.row.manifest.objectiveKey
        ensures h.objective == Reported(b.metrics[j].status)
      {
        ObjectiveIsReported(b, st.row.manifest.objectiveKey, j);
      }
    }
  }
}
