/** The execution service on its own is one of the schedules, so what holds of every schedule holds of
    the store it leaves. */
module OptimizationService {
  import opened Sequences
  import opened Optimization
  import opened BarStore
  import opened OptimizationRun
  import opened OptimizationLifecycle
  import opened OptimizationSteps
  import opened OptimizationExecution
  import opened OptimizationFeasibility

  function Turns(n: nat): seq<nat> {
    seq(n, _ => 0)
  }

  lemma StepKeepsManifest(env: Env, db: Database, id: Id, st: Store, e: Executor)
    ensures Step(env, db, id, st, e).0.row.manifest == st.row.manifest
  {
    hide RunPeriod, Choose, FindCandidate, RecordCandidate;
  }

  lemma {:induction false} AloneIsASchedule(env: Env, db: Database, st0: Store, n: nat)
    ensures var (st, e) := Steps(env, db, st0.row.manifest.optimizationId, st0, Start, n);
      st.row.manifest == st0.row.manifest && Interleave(env, db, System(st0, [Start]), Turns(n)) == System(st, [e])
  {
    hide Step;
    if n > 0 {
      AloneIsASchedule(env, db, st0, n - 1);
      assert Init(Turns(n)) == Turns(n - 1) && Last(Turns(n)) == 0;
      var (st, e) := Steps(env, db, st0.row.manifest.optimizationId, st0, Start, n - 1);
      StepKeepsManifest(env, db, st0.row.manifest.optimizationId, st, e);
      assert [e][0 := Step(env, db, st0.row.manifest.optimizationId, st, e).1]
          == [Step(env, db, st0.row.manifest.optimizationId, st, e).1];
    }
  }

  lemma {:induction false} StrangerDoesNothing(env: Env, db: Database, id: Id, st0: Store, n: nat)
    requires id != st0.row.manifest.optimizationId
    ensures Steps(env, db, id, st0, Start, n) == (st0, if n == 0 then Start else Raised(NotFound))
  {
    if n > 0 {
      StrangerDoesNothing(env, db, id, st0, n - 1);
    }
  }

  /** Executing a freshly created optimization returns only when it completed or failed for want of
      a candidate, raises only errors the caller can meet, and keeps the whole lifecycle. */
  lemma ServiceKeepsLifecycle(env: Env, db: Database, id: Id, st0: Store, st: Store, e: Executor)
    requires Initial(st0) && Reaches(env, db, id, st0, Start, st, e)
    ensures StoreOk(st0, st)
    ensures e.Done? ==> st.row.status in {Completed, Failed}
    ensures e.Raised? ==> !Internal(e.error)
    ensures id != st0.row.manifest.optimizationId ==> st == st0
  {
    hide Step, Steps, StoreOk, Initial, Interleave;
    var n: nat :| Steps(env, db, id, st0, Start, n) == (st, e);
    var sys := System(st0, [Start]);
    if id == st0.row.manifest.optimizationId {
      AloneIsASchedule(env, db, st0, n);
      AlwaysInv(env, db, sys, Turns(n));
      assert ExecutorOk(st0, st, System(st, [e]).executors[0]);
      NeverCancelled(st0, st);
    } else {
      StrangerDoesNothing(env, db, id, st0, n);
      FreshInv(sys);
    }
  }

  lemma NeverCancelled(st0: Store, st: Store)
    requires StoreOk(st0, st)
    ensures st.row.status != Cancelled
  {}

  // ---- When it completes ----

  /** What else holds of an executor that nobody interferes with: the optimization waits for it, it never
      comes second, and it ends in failure only for want of a candidate or over an error. */
  predicate Unhindered(st: Store, e: Executor) {
    && (e.Start? || e.ToValidating? ==> st.row.status == Status.Created)
    && (e.FinishUnselected? || (e.Done? && st.row.status == Failed) ==> Unselected(st.row))
    && (e.Raised? ==> !e.error.NotEligible? && !e.error.Stale?)
    && ((e.AbortTraining? || e.AbortHoldout?) ==> !e.error.NotEligible? && !e.error.Stale?)
  }

  lemma PeriodErrors(env: Env, db: Database, st: Store, strategyId: Id, start: int, end: int)
    ensures var o := RunStrategy(env, db, st, strategyId, start, end).1;
      o.PeriodRaised? ==> !o.error.NotEligible? && !o.error.Stale?
  {
    hide ExecutePeriod, GetSnapshot;
    if strategyId in st.strategies {
      var m, w := st.row.manifest, st.strategies[strategyId];
      if RefuseRun(db, m, w, start, end).None? {
        RunPeriodExactly(env, m, w, GetSnapshot(db, m.datasetId, m.instrumentId, start, end), st.nextId);
      }
    }
  }

  lemma StepStaysUnhindered(env: Env, db: Database, st0: Store, st: Store, e: Executor)
    requires ExecutorOk(st0, st, e) && Unhindered(st, e)
    ensures var (next, e') := Step(env, db, st.row.manifest.optimizationId, st, e); Unhindered(next, e')
  {
    hide RunStrategy, Choose, FindCandidate, RecordCandidate, ObjectiveFrom, Working, NonePending, Chosen, HoldoutOk,
         TriedWith, DealtWith, RunPeriod;
    var p := st.row.manifest.partitions;
    if e.Train? {
      PeriodErrors(env, db, st, e.strategyId, p.trainStart, p.trainEnd);
    } else if e.Validate? {
      PeriodErrors(env, db, st, e.strategyId, p.validationStart, p.validationEnd);
    } else if e.RunHoldout? && e.chosen.Some? && e.chosen.value.result.strategyId.Some? {
      PeriodErrors(env, db, st, e.chosen.value.result.strategyId.value, p.holdoutStart, p.holdoutEnd);
    }
  }

  lemma {:induction false} AlwaysUnhindered(env: Env, db: Database, st0: Store, n: nat)
    requires Initial(st0)
    ensures var (st, e) := Steps(env, db, st0.row.manifest.optimizationId, st0, Start, n); Unhindered(st, e)
  {
    hide Step, Initial, StoreOk, ExecutorOk;
    if n == 0 {
      assert st0.row.status == Status.Created by { StartsCreated(st0); }
    } else {
      AlwaysUnhindered(env, db, st0, n - 1);
      AloneIsASchedule(env, db, st0, n - 1);
      AlwaysInv(env, db, System(st0, [Start]), Turns(n - 1));
      var (st, e) := Steps(env, db, st0.row.manifest.optimizationId, st0, Start, n - 1);
      assert ExecutorOk(st0, st, System(st, [e]).executors[0]);
      StepStaysUnhindered(env, db, st0, st, e);
    }
  }

  lemma StartsCreated(st: Store)
    requires Initial(st)
    ensures st.row.status == Status.Created
  {}

  /** Executed on its own on an accepted request whose periods are runnable, with artifacts reliable and
      nobody else executing its runs, the service returns; and the optimization is then completed
      exactly when some candidate got an available objective, and failed otherwise. */
  lemma ServiceCompletesIff(env: Env, column: Column, db: Database, r: Request, nextId: Id, st: Store, e: Executor)
    requires Create(column, db, r, nextId).Ok? && Reliable(env)
    requires AllRunnable(db, Create(column, db, r, nextId).value.row.manifest)
    requires var st0 := Create(column, db, r, nextId).value;
      Reaches(env, db, st0.row.manifest.optimizationId, st0, Start, st, e) && (e.Done? || e.Raised?)
    ensures e.Done?
    ensures st.row.status == if SomeObjective(st.candidates) then Completed else Failed
    ensures st.row.selection.Some? && st.row.holdout.Some? == SomeObjective(st.candidates)
  {
    hide Step, Steps, Create, Initial, Interleave, AllRunnable, Reliable, SomeObjective;
    var st0 := Create(column, db, r, nextId).value;
    var id := st0.row.manifest.optimizationId;
    CreatedIsInitial(column, db, r, nextId);
    var n: nat :| Steps(env, db, id, st0, Start, n) == (st, e);
    AloneIsASchedule(env, db, st0, n);
    AlwaysUnhindered(env, db, st0, n);
    RunnableNeverErrs(env, column, db, r, nextId, [Start], Turns(n));
    assert System(st, [e]).executors[0] == e;
    ServiceKeepsLifecycle(env, db, id, st0, st, e);
    DoneMeans(st0, st);
  }

  /** A good store that is completed or failed has the selection to show for it. */
  lemma DoneMeans(st0: Store, st: Store)
    requires StoreOk(st0, st) && (st.row.status == Completed || (st.row.status == Failed && Unselected(st.row)))
    ensures st.row.selection.Some?
    ensures st.row.status == Completed <==> SomeObjective(st.candidates)
    ensures st.row.holdout.Some? <==> st.row.status == Completed
  {
    hide Choose, FindCandidate, TriedWith;
    ChosenIffObjective(st.candidates);
  }
}
