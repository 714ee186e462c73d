/** Every call of every executor keeps the lifecycle invariant, and what follows for whole schedules. */
module OptimizationSteps {
  import opened Wrappers
  import opened Sequences
  import opened Optimization
  import opened BarStore
  import opened OptimizationRun
  import opened OptimizationLifecycle

  /** After a call by an executor in a good position on a good store, both are good again; only an
      executor that owns the optimization, or just claimed it, may have written anything. */
  ghost predicate Kept(st0: Store, st: Store, e: Executor, next: (Store, Executor)) {
    && StoreOk(st0, next.0) && ExecutorOk(st0, next.0, next.1)
    && (Owner(e) || (e.ToValidating? && st.row.status == Status.Created) || (next.0 == st && !Owner(next.1)))
  }

  // ---- Calls that only move the status, or only read ----

  predicate MovesEarly(e: Executor) {
    e.ToValidating? || e.ToTraining? || e.ToSelecting? || e.AbortTraining?
  }

  predicate MovesLate(e: Executor) {
    e.FinishUnselected? || e.ToHoldout? || e.ToCompleted? || e.AbortHoldout?
  }

  lemma MoveEarlyKept(env: Env, db: Database, id: Id, st0: Store, st: Store, e: Executor)
    requires StoreOk(st0, st) && ExecutorOk(st0, st, e) && MovesEarly(e)
    ensures Kept(st0, st, e, Step(env, db, id, st, e))
  {
    hide Choose, FindCandidate, CandidateOk, TriedWith, ObjectiveFrom;
    SameCandidates(st0, st, Step(env, db, id, st, e).0);
    HoldoutIsARun(st);
  }

  lemma MoveLateKept(env: Env, db: Database, id: Id, st0: Store, st: Store, e: Executor)
    requires StoreOk(st0, st) && ExecutorOk(st0, st, e) && MovesLate(e)
    ensures Kept(st0, st, e, Step(env, db, id, st, e))
  {
    hide Choose, FindCandidate, CandidateOk, TriedWith, ObjectiveFrom;
    SameCandidates(st0, st, Step(env, db, id, st, e).0);
    HoldoutIsARun(st);
  }

  lemma SameCandidates(st0: Store, st: Store, next: Store)
    requires StoreOk(st0, st)
    requires next.candidates == st.candidates && next.strategies == st.strategies && next.runs == st.runs
    requires next.row.manifest == st.row.manifest
    ensures forall i :: 0 <= i < |next.candidates| ==> CandidateOk(next, st0.candidates[i], next.candidates[i])
  {
    hide TriedWith, SelectionOk;
    forall i | 0 <= i < |next.candidates|
      ensures CandidateOk(next, st0.candidates[i], next.candidates[i])
    {
      assert CandidateOk(st, st0.candidates[i], st.candidates[i]);
      SameTried(st, next, next.candidates[i]);
    }
  }

  lemma SameTried(a: Store, b: Store, c: Candidate)
    requires a.strategies == b.strategies && a.runs == b.runs && a.row.manifest == b.row.manifest
    ensures TriedWith(a, c.windows, c.result) == TriedWith(b, c.windows, c.result)
  {}

  predicate OnlyReads(e: Executor) {
    e.Start? || e.ListPending? || e.NextCandidate? || e.ChooseBest? || e.Done? || e.Raised?
  }

  lemma ReadKept(env: Env, db: Database, id: Id, st0: Store, st: Store, e: Executor)
    requires Initial(st0) && StoreOk(st0, st) && ExecutorOk(st0, st, e) && OnlyReads(e)
    ensures Kept(st0, st, e, Step(env, db, id, st, e))
  {
    hide ChooseStep, CandidateOk, SelectionOk, Listed, TriedWith, Choose, FindCandidate, HoldoutOk;
    ListsAll(st0, st);
    if e.NextCandidate? && e.todo != [] {
      TakeNext(st0, st, e.todo);
    } else if e.ChooseBest? {
      ChoosesWell(st0, st);
    }
  }

  lemma ListsAll(st0: Store, st: Store)
    requires Initial(st0) && StoreOk(st0, st)
    ensures Listed(st) == st.candidates
  {}

  lemma ChoosesWell(st0: Store, st: Store)
    requires st.row.status == Selecting && st.row.holdout == None
    ensures ExecutorOk(st0, st, ChooseStep(st.candidates))
  {
    hide Choose, FindCandidate;
  }

  lemma TakeNext(st0: Store, st: Store, todo: seq<Candidate>)
    requires Suffix(st0.candidates, todo) && todo != [] && DealtWith(st0, st, |st0.candidates| - |todo|)
    ensures [todo[0]] + todo[1..] == todo && Suffix(st0.candidates, todo[1..])
    ensures !todo[0].result.status.Pending? ==> DealtWith(st0, st, |st0.candidates| - |todo| + 1)
    ensures |todo| == 1 && !todo[0].result.status.Pending? ==> NonePending(st.candidates)
  {
    var k := |st0.candidates| - |todo|;
    assert todo[0] == st0.candidates[k] == st.candidates[k];
    assert todo[1..] == st0.candidates[k + 1..];
  }

  // ---- Calls that add a strategy or a run ----

  lemma GrowthKeepsTried(st: Store, next: Store, w: Windows, r: Evaluation)
    requires next.row.manifest == st.row.manifest && Inside(st.strategies, next.strategies)
        && Inside(st.runs, next.runs)
    requires TriedWith(st, w, r)
    ensures TriedWith(next, w, r)
  {}

  lemma GrowthKeepsCandidates(st0: Store, st: Store, next: Store)
    requires StoreOk(st0, st) && next.row == st.row && next.candidates == st.candidates
    requires Inside(st.strategies, next.strategies) && Inside(st.runs, next.runs)
    ensures forall i :: 0 <= i < |next.candidates| ==> CandidateOk(next, st0.candidates[i], next.candidates[i])
  {
    hide TriedWith, SelectionOk;
    forall i | 0 <= i < |next.candidates|
      ensures CandidateOk(next, st0.candidates[i], next.candidates[i])
    {
      assert CandidateOk(st, st0.candidates[i], st.candidates[i]);
      if TriedWith(st, st.candidates[i].windows, st.candidates[i].result) {
        GrowthKeepsTried(st, next, st.candidates[i].windows, st.candidates[i].result);
      }
    }
  }

  lemma DeriveKept(env: Env, db: Database, id: Id, st0: Store, st: Store, e: Executor)
    requires Initial(st0) && StoreOk(st0, st) && ExecutorOk(st0, st, e) && e.Derive?
    ensures Kept(st0, st, e, Step(env, db, id, st, e))
  {
    hide CandidateOk, Choose, FindCandidate;
    PendingIsValid(st0, e.c, e.todo);
    var next := Step(env, db, id, st, e).0;
    GrowthKeepsCandidates(st0, st, next);
  }

  lemma PendingIsValid(st0: Store, c: Candidate, todo: seq<Candidate>)
    requires Initial(st0) && Suffix(st0.candidates, [c] + todo) && c.result.status.Pending?
    ensures 1 <= c.windows.fast && 1 <= c.windows.slow && ValidPair(c.windows)
    ensures c == st0.candidates[|st0.candidates| - |todo| - 1]
  {
    var k := |st0.candidates| - |todo| - 1;
    assert ([c] + todo)[0] == st0.candidates[k..][0];
  }

  /** What running a strategy for a period does to a good store. */
  lemma RunStrategyKeeps(env: Env, db: Database, st0: Store, st: Store, strategyId: Id, start: int, end: int)
    requires StoreOk(st0, st) && strategyId in st.strategies
    ensures var (next, o) := RunStrategy(env, db, st, strategyId, start, end);
      && next.row == st.row && next.candidates == st.candidates && next.strategies == st.strategies
      && Inside(st.runs, next.runs)
      && (forall i :: 0 <= i < |next.candidates| ==> CandidateOk(next, st0.candidates[i], next.candidates[i]))
      && (forall k :: k in next.strategies ==> k < next.nextId) && (forall k :: k in next.runs ==> k < next.nextId)
      && (o.Ran? ==>
            next.runs == st.runs[o.runId := RunRecord(strategyId, start, end, Some(o.bundle))] && o.runId !in st.runs)
      && (forall k :: k in next.runs && k !in st.runs ==> k == st.nextId && next.runs[k].start == start)
      && (o.PeriodRaised? ==> !Internal(o.error))
  {
    hide RunPeriod, CandidateOk, SelectionOk;
    RunPeriodOutcome(env, db, st.row.manifest, st.strategies[strategyId], start, end, st.nextId);
    var (next, o) := RunStrategy(env, db, st, strategyId, start, end);
    GrowthKeepsCandidates(st0, st, next);
  }

  /** As long as no run over the holdout period is added, the selection facts stay as they are. */
  lemma OtherPeriodKeeps(st: Store, next: Store)
    requires SelectionOk(st) && st.row.selection == None && st.row.holdout == None
        && st.row.status == RunningTrainValidation
    requires next.row == st.row
    requires forall r :: r in next.runs ==>
      (r in st.runs && next.runs[r] == st.runs[r]) || next.runs[r].start != st.row.manifest.partitions.holdoutStart
    ensures SelectionOk(next) && AtMostOneHoldoutRun(next)
  {
    forall r | r in next.runs ensures !IsHoldoutRun(next, r) {
      if r in st.runs { assert !IsHoldoutRun(st, r); }
    }
  }

  lemma NoHoldoutWhileTraining(st: Store)
    requires SelectionOk(st) && st.row.status == RunningTrainValidation
    ensures st.row.selection == None && st.row.holdout == None
  {
    HoldoutIsARun(st);
  }

  lemma HoldoutIsARun(st: Store)
    ensures st.row.holdout.Some? && HoldoutOk(st, st.row.holdout.value) ==> !NoHoldoutRun(st)
  {
    assert st.row.holdout.Some? && HoldoutOk(st, st.row.holdout.value) ==> IsHoldoutRun(st, st.row.holdout.value.runId);
  }

  lemma TrainKept(env: Env, db: Database, id: Id, st0: Store, st: Store, e: Executor)
    requires Initial(st0) && StoreOk(st0, st) && ExecutorOk(st0, st, e) && e.Train?
    ensures Kept(st0, st, e, Step(env, db, id, st, e))
  {
    hide CandidateOk, RunStrategy, SelectionOk;
    var p := st.row.manifest.partitions;
    RunStrategyKeeps(env, db, st0, st, e.strategyId, p.trainStart, p.trainEnd);
    var (next, o) := RunStrategy(env, db, st, e.strategyId, p.trainStart, p.trainEnd);
    NoHoldoutWhileTraining(st);
    OtherPeriodKeeps(st, next);
  }

  lemma ValidateKept(env: Env, db: Database, id: Id, st0: Store, st: Store, e: Executor)
    requires Initial(st0) && StoreOk(st0, st) && ExecutorOk(st0, st, e) && e.Validate?
    ensures Kept(st0, st, e, Step(env, db, id, st, e))
  {
    hide CandidateOk, RunStrategy, SelectionOk, ObjectiveFrom;
    var p := st.row.manifest.partitions;
    RunStrategyKeeps(env, db, st0, st, e.strategyId, p.validationStart, p.validationEnd);
    var (next, o) := RunStrategy(env, db, st, e.strategyId, p.validationStart, p.validationEnd);
    NoHoldoutWhileTraining(st);
    OtherPeriodKeeps(st, next);
  }

  // ---- Recording a candidate ----

  lemma RecordKept(env: Env, db: Database, id: Id, st0: Store, st: Store, e: Executor)
    requires Initial(st0) && StoreOk(st0, st) && ExecutorOk(st0, st, e) && e.Record?
    ensures Kept(st0, st, e, Step(env, db, id, st, e))
  {
    hide SelectionOk, TriedWith, CandidateOk, RecordCandidate;
    var k := |st0.candidates| - |e.todo| - 1;
    PendingIsValid(st0, e.c, e.todo);
    var next := Step(env, db, id, st, e).0;
    forall i | 0 <= i < |next.candidates|
      ensures i != k ==> next.candidates[i] == st.candidates[i]
      ensures CandidateOk(next, st0.candidates[i], next.candidates[i])
    {
      RecordedOk(st0, st, e, k, i);
    }
    RecordedOk(st0, st, e, k, k);
    TriedIsSettled(st, e.c.windows, e.result);
    RestOfSuffix(st0.candidates, e.c, e.todo);
    NoHoldoutWhileTraining(st);
    OtherPeriodKeeps(st, next);
  }

  lemma RestOfSuffix(all: seq<Candidate>, c: Candidate, todo: seq<Candidate>)
    requires Suffix(all, [c] + todo)
    ensures Suffix(all, todo)
  {
    assert todo == ([c] + todo)[1..] == all[|all| - |todo| - 1..][1..];
  }

  lemma TriedIsSettled(st: Store, w: Windows, r: Evaluation)
    requires TriedWith(st, w, r)
    ensures !r.status.Pending?
  {}

  lemma RecordedOk(st0: Store, st: Store, e: Executor, k: nat, i: nat)
    requires Initial(st0) && StoreOk(st0, st) && ExecutorOk(st0, st, e) && e.Record? && i < |st0.candidates|
    requires k == |st0.candidates| - |e.todo| - 1 && e.c == st0.candidates[k]
    ensures var next := RecordCandidate(st.candidates, e.c.candidateId, e.result);
      && (i != k ==> next[i] == st.candidates[i])
      && next[k].result == e.result
      && CandidateOk(st.(candidates := next), st0.candidates[i], next[i])
  {
    hide SelectionOk, TriedWith;
    var next := st.(candidates := RecordCandidate(st.candidates, e.c.candidateId, e.result));
    assert CandidateOk(st, st0.candidates[i], st.candidates[i]);
    assert CandidateOk(st, st0.candidates[k], st.candidates[k]);
    SameTried(st, next, next.candidates[i]);
  }

  // ---- Selection ----

  lemma {:induction false} ScoresExactly(candidates: seq<Candidate>, s: Scored)
    requires s in Scores(candidates)
    ensures exists i ::
      0 <= i < |candidates| && candidates[i].result.status.CandidateCompleted? && Score(candidates[i]) == s
  {
    if candidates != [] {
      var last := |candidates| - 1;
      if s in Scores(Init(candidates)) {
        ScoresExactly(Init(candidates), s);
        var i :| 0 <= i < last && Init(candidates)[i].result.status.CandidateCompleted?
            && Score(Init(candidates)[i]) == s;
        assert Score(candidates[i]) == s;
      } else {
        assert Score(candidates[last]) == s;
      }
    }
  }

  lemma {:induction false} ScoresAll(candidates: seq<Candidate>, i: nat)
    requires i < |candidates| && candidates[i].result.status.CandidateCompleted?
    ensures Score(candidates[i]) in Scores(candidates)
  {
    if i < |candidates| - 1 {
      ScoresAll(Init(candidates), i);
    }
  }

  predicate DistinctIds(candidates: seq<Candidate>) {
    forall i, j :: 0 <= i < j < |candidates| ==> candidates[i].candidateId != candidates[j].candidateId
  }

  lemma {:induction false} FindDistinct(candidates: seq<Candidate>, i: nat)
    requires DistinctIds(candidates) && i < |candidates|
    ensures FindCandidate(candidates, candidates[i].candidateId) == Some(candidates[i])
  {
    if i > 0 {
      FindDistinct(candidates[1..], i - 1);
    }
  }

  lemma IdsStayDistinct(st0: Store, st: Store)
    requires Initial(st0) && StoreOk(st0, st)
    ensures DistinctIds(st.candidates)
  {
    hide TriedWith, SelectionOk;
    forall i | 0 <= i < |st.candidates| ensures st.candidates[i].candidateId == st0.candidates[i].candidateId {
      assert CandidateOk(st, st0.candidates[i], st.candidates[i]);
    }
  }

  predicate GotObjective(c: Candidate) {
    c.result.status.CandidateCompleted? && c.result.objective.Value?
  }

  predicate SomeObjective(candidates: seq<Candidate>) {
    exists i :: 0 <= i < |candidates| && GotObjective(candidates[i])
  }

  /** A higher objective, or the same and a shorter slow window, or then a shorter fast one; the ids
      decide last. */
  predicate Ahead(a: Candidate, b: Candidate)
    requires GotObjective(a) && GotObjective(b)
  {
    var x, y := a.result.objective.value, b.result.objective.value;
    y < x || (x == y && (a.windows.slow < b.windows.slow || (a.windows.slow == b.windows.slow
      && (a.windows.fast < b.windows.fast || (a.windows.fast == b.windows.fast && a.candidateId < b.candidateId)))))
  }

  predicate Unbeaten(candidates: seq<Candidate>, winner: Candidate) {
    GotObjective(winner) && forall c :: c in candidates && GotObjective(c) && c.candidateId != winner.candidateId ==>
      Ahead(winner, c)
  }

  /** The choice falls on nobody exactly when no completed candidate has an objective. */
  lemma ChosenIffObjective(candidates: seq<Candidate>)
    ensures Choose(candidates).selected.Some? <==> SomeObjective(candidates)
  {
    var scores := Scores(candidates);
    SelectedIsBest(scores);
    if i :| 0 <= i < |candidates| && GotObjective(candidates[i]) {
      ScoresAll(candidates, i);
      assert Score(candidates[i]) in scores && Score(candidates[i]).value.Some?;
    }
    if s :| s in scores && s.value.Some? {
      ScoresExactly(candidates, s);
      var i :| 0 <= i < |candidates| && candidates[i].result.status.CandidateCompleted? && Score(candidates[i]) == s;
      assert GotObjective(candidates[i]);
    }
  }

  /** The chosen candidate exists, is completed and has an objective with which it is ahead of every
      other one; and it was tried, so it has a strategy with its windows. */
  lemma WinnerIsTried(st0: Store, st: Store) returns (w: nat)
    requires Initial(st0) && StoreOk(st0, st) && Choose(st.candidates).selected.Some?
    ensures w < |st.candidates| && FindCandidate(st.candidates, Choose(st.candidates).selected.value) ==
        Some(st.candidates[w])
    ensures TriedWith(st, st.candidates[w].windows, st.candidates[w].result)
    ensures Unbeaten(st.candidates, st.candidates[w])
  {
    hide SelectionOk, TriedWith;
    var c := st.candidates;
    SelectedIsBest(Scores(c));
    var best := SelectCandidate(Scores(c)).value;
    ScoresExactly(c, best);
    w :| 0 <= w < |c| && c[w].result.status.CandidateCompleted? && Score(c[w]) == best;
    IdsStayDistinct(st0, st);
    FindDistinct(c, w);
    assert CandidateOk(st, st0.candidates[w], c[w]);
    forall x | x in c && GotObjective(x) && x.candidateId != c[w].candidateId
      ensures Ahead(c[w], x)
    {
      var i :| 0 <= i < |c| && c[i] == x;
      ScoresAll(c, i);
    }
  }

  lemma SelectKept(env: Env, db: Database, id: Id, st0: Store, st: Store, e: Executor)
    requires StoreOk(st0, st) && ExecutorOk(st0, st, e) && e.RecordSelection?
    ensures Kept(st0, st, e, Step(env, db, id, st, e))
  {
    hide Choose, FindCandidate, CandidateOk;
    var next := Step(env, db, id, st, e).0;
    SameCandidates(st0, st, next);
    forall r | r in next.runs ensures !IsHoldoutRun(next, r) {
      assert !IsHoldoutRun(st, r);
    }
  }

  // ---- Holdout ----

  lemma HoldoutKept(env: Env, db: Database, id: Id, st0: Store, st: Store, e: Executor)
    requires Initial(st0) && StoreOk(st0, st) && ExecutorOk(st0, st, e) && e.RunHoldout?
    ensures Kept(st0, st, e, Step(env, db, id, st, e))
  {
    hide CandidateOk, RunStrategy, Choose, FindCandidate, ObjectiveFrom;
    var w := WinnerIsTried(st0, st);
    assert e.chosen == Some(st.candidates[w]);
    var m, s := st.row.manifest, st.candidates[w].result.strategyId.value;
    RunStrategyKeeps(env, db, st0, st, s, m.partitions.holdoutStart, m.partitions.holdoutEnd);
    var (next, o) := RunStrategy(env, db, st, s, m.partitions.holdoutStart, m.partitions.holdoutEnd);
    forall r | r in next.runs && IsHoldoutRun(next, r) ensures r == st.nextId {
      assert r in st.runs ==> !IsHoldoutRun(st, r);
    }
  }

  lemma HoldoutRecordedKept(env: Env, db: Database, id: Id, st0: Store, st: Store, e: Executor)
    requires StoreOk(st0, st) && ExecutorOk(st0, st, e) && e.RecordHoldout?
    ensures Kept(st0, st, e, Step(env, db, id, st, e))
  {
    hide Choose, FindCandidate, CandidateOk, ObjectiveFrom;
    var next := Step(env, db, id, st, e).0;
    SameCandidates(st0, st, next);
    forall r | r in next.runs && IsHoldoutRun(next, r) ensures r == e.holdout.runId {
      assert IsHoldoutRun(st, r);
    }
  }

  // ---- Every call, every schedule ----

  lemma StepKept(env: Env, db: Database, id: Id, st0: Store, st: Store, e: Executor)
    requires Initial(st0) && StoreOk(st0, st) && ExecutorOk(st0, st, e)
    ensures Kept(st0, st, e, Step(env, db, id, st, e))
  {
    hide StoreOk, ExecutorOk, Kept, Step, Initial;
    if MovesEarly(e) { MoveEarlyKept(env, db, id, st0, st, e); }
    else if MovesLate(e) { MoveLateKept(env, db, id, st0, st, e); }
    else if OnlyReads(e) { ReadKept(env, db, id, st0, st, e); }
    else if e.Derive? { DeriveKept(env, db, id, st0, st, e); }
    else if e.Train? { TrainKept(env, db, id, st0, st, e); }
    else if e.Validate? { ValidateKept(env, db, id, st0, st, e); }
    else if e.Record? { RecordKept(env, db, id, st0, st, e); }
    else if e.RecordSelection? { SelectKept(env, db, id, st0, st, e); }
    else if e.RunHoldout? { HoldoutKept(env, db, id, st0, st, e); }
    else { HoldoutRecordedKept(env, db, id, st0, st, e); }
  }

  /** Executors that do not own the optimization are indifferent to the store, and while it is
      `created` nobody owns it. */
  lemma StrangerOk(st0: Store, st: Store, next: Store, e: Executor)
    requires ExecutorOk(st0, st, e)
    ensures !Owner(e) ==> ExecutorOk(st0, next, e)
    ensures st.row.status == Status.Created ==> !Owner(e)
  {
    hide DealtWith, Choose, FindCandidate, TriedWith, HoldoutOk;
  }

  lemma TurnKept(env: Env, db: Database, st0: Store, sys: System, i: nat)
    requires Initial(st0) && Inv(st0, sys)
    ensures Inv(st0, Turn(env, db, sys, i))
  {
    hide StoreOk, ExecutorOk, Initial, Step;
    if i < |sys.executors| {
      var next := Turn(env, db, sys, i);
      StepKept(env, db, sys.store.row.manifest.optimizationId, st0, sys.store, sys.executors[i]);
      forall j | 0 <= j < |next.executors|
        ensures ExecutorOk(st0, next.store, next.executors[j])
        ensures j != i ==> !(Owner(next.executors[i]) && Owner(next.executors[j]))
      {
        if j != i {
          StrangerOk(st0, sys.store, next.store, sys.executors[j]);
        }
      }
    }
  }

  /** Any number of executors, none of which has made a call yet, on a store just created. */
  predicate Fresh(sys: System) {
    Initial(sys.store) && forall i :: 0 <= i < |sys.executors| ==> sys.executors[i].Start?
  }

  lemma FreshInv(sys: System)
    requires Fresh(sys)
    ensures Inv(sys.store, sys)
  {}

  lemma {:induction false} AlwaysInv(env: Env, db: Database, sys: System, schedule: seq<nat>)
    requires Fresh(sys)
    ensures Inv(sys.store, Interleave(env, db, sys, schedule))
  {
    hide Inv, Initial;
    if schedule == [] {
      FreshInv(sys);
    } else {
      AlwaysInv(env, db, sys, Init(schedule));
      TurnKept(env, db, sys.store, Interleave(env, db, sys, Init(schedule)), Last(schedule));
    }
  }
}
