/** Schema migrations: discovering the known list, and applying what the ledger does not have yet, one
    transaction per migration. */
module Migrations {
  import opened Wrappers
  import opened Sequences

  /** A statement either creates the ledger table or does something else, kept only as a tag. */
  datatype Statement = CreateLedger | Other(tag: nat)

  datatype Migration = Migration(version: int, statements: seq<Statement>, checksum: nat)

  /** The ledger maps applied versions to checksums, once its table exists; `effects` is every other
      statement that has taken effect, in order. */
  datatype Database = Database(ledger: Option<map<int, nat>>, effects: seq<nat>)

  datatype MigrationError = NewerThanKnown | ChecksumMismatch(version: int) | Failed(version: int)

  /** Does statement `i` of the migration of this version fail, in this run? Statement `|statements|`
      is the insertion into the ledger. */
  type Faults = (int, nat) -> bool

  function ExecuteStatement(db: Database, s: Statement): Option<Database> {
    match s
    case CreateLedger => if db.ledger.Some? then None else Some(db.(ledger := Some(map[])))
    case Other(tag) => Some(db.(effects := db.effects + [tag]))
  }

  /** The first `n` statements of a migration; `None` once one has failed. */
  function ExecuteStatements(db: Database, m: Migration, n: nat, faults: Faults): Option<Database>
    requires n <= |m.statements|
  {
    if n == 0 then Some(db)
    else
      var before := ExecuteStatements(db, m, n - 1, faults);
      if before.None? || faults(m.version, n - 1) then None
      else ExecuteStatement(before.value, m.statements[n - 1])
  }

  function InsertIntoLedger(db: Database, m: Migration): Option<Database> {
    if db.ledger.None? || m.version in db.ledger.value then None
    else Some(db.(ledger := Some(db.ledger.value[m.version := m.checksum])))
  }

  /** The whole transaction of one migration, or `None` when it is rolled back. */
  function Apply(db: Database, m: Migration, faults: Faults): Option<Database> {
    var done := ExecuteStatements(db, m, |m.statements|, faults);
    if done.None? || faults(m.version, |m.statements|) then None else InsertIntoLedger(done.value, m)
  }

  function Applied(db: Database): map<int, nat> {
    if db.ledger.None? then map[] else db.ledger.value
  }

  /** The loop over the known migrations, against the ledger as it was read at the start. */
  function RunFrom(db: Database, ms: seq<Migration>, applied: map<int, nat>, faults: Faults)
    : (Database, Option<MigrationError>)
    decreases |ms|
  {
    if ms == [] then (db, None)
    else if ms[0].version in applied then
      if applied[ms[0].version] != ms[0].checksum then (db, Some(ChecksumMismatch(ms[0].version)))
      else RunFrom(db, ms[1..], applied, faults)
    else
      var next := Apply(db, ms[0], faults);
      if next.None? then (db, Some(Failed(ms[0].version)))
      else RunFrom(next.value, ms[1..], applied, faults)
  }

  predicate KnowsAll(ms: seq<Migration>, applied: map<int, nat>) {
    forall v :: v in applied ==> v <= (if ms == [] then 0 else Last(ms).version)
  }

  function Run(db: Database, ms: seq<Migration>, faults: Faults): (Database, Option<MigrationError>) {
    if !KnowsAll(ms, Applied(db)) then (db, Some(NewerThanKnown)) else RunFrom(db, ms, Applied(db), faults)
  }

  // ---- What the list must be like ----

  predicate Contiguous(ms: seq<Migration>) {
    forall i :: 0 <= i < |ms| ==> ms[i].version == i + 1
  }

  function LedgersIn(statements: seq<Statement>): nat {
    if statements == [] then 0 else LedgersIn(Init(statements)) + if Last(statements).CreateLedger? then 1 else 0
  }

  /** The first migration creates the ledger, once, and no other one does. */
  predicate LedgerFirst(ms: seq<Migration>) {
    forall i :: 0 <= i < |ms| ==> LedgersIn(ms[i].statements) == if i == 0 then 1 else 0
  }

  function Tags(statements: seq<Statement>): seq<nat> {
    if statements == [] then []
    else Tags(Init(statements)) + if Last(statements).CreateLedger? then [] else [Last(statements).tag]
  }

  function Effects(ms: seq<Migration>): seq<nat> {
    if ms == [] then [] else Effects(Init(ms)) + Tags(Last(ms).statements)
  }

  function LedgerOf(ms: seq<Migration>): map<int, nat> {
    if ms == [] then map[] else LedgerOf(Init(ms))[Last(ms).version := Last(ms).checksum]
  }

  /** The database that has had exactly these migrations, each once and in order, since it was empty. */
  function After(ms: seq<Migration>): Database {
    Database(if ms == [] then None else Some(LedgerOf(ms)), Effects(ms))
  }

  // ---- One migration ----

  lemma {:induction false} StatementsTakeEffect(db: Database, m: Migration, n: nat, faults: Faults)
    requires n <= |m.statements|
    ensures var r := ExecuteStatements(db, m, n, faults); var done := m.statements[..n];
      r.Some? ==>
        && r.value.effects == db.effects + Tags(done)
        && (LedgersIn(done) == 0 ==> r.value.ledger == db.ledger)
        && (LedgersIn(done) == 1 ==> db.ledger.None? && r.value.ledger == Some(map[]))
  {
    if n > 0 {
      StatementsTakeEffect(db, m, n - 1, faults);
      assert Init(m.statements[..n]) == m.statements[..n - 1];
    }
  }

  lemma {:induction false} LedgerVersions(ms: seq<Migration>)
    requires Contiguous(ms)
    ensures forall v :: v in LedgerOf(ms) <==> 1 <= v <= |ms|
    ensures forall i :: 0 <= i < |ms| ==> i + 1 in LedgerOf(ms) && LedgerOf(ms)[i + 1] == ms[i].checksum
  {
    if ms != [] {
      LedgerVersions(Init(ms));
    }
  }

  lemma ApplyAdvances(ms: seq<Migration>, k: nat, faults: Faults)
    requires Contiguous(ms) && LedgerFirst(ms) && k < |ms|
    ensures var r := Apply(After(ms[..k]), ms[k], faults); r.Some? ==> r.value == After(ms[..k + 1])
  {
    var db, m := After(ms[..k]), ms[k];
    assert m.statements[..|m.statements|] == m.statements;
    assert LedgersIn(m.statements) == if k == 0 then 1 else 0;
    StatementsTakeEffect(db, m, |m.statements|, faults);
    LedgerVersions(ms[..k]);
    assert Init(ms[..k + 1]) == ms[..k] && Last(ms[..k + 1]) == m;
    assert LedgerOf(ms[..k + 1]) == LedgerOf(ms[..k])[m.version := m.checksum];
    assert Effects(ms[..k + 1]) == Effects(ms[..k]) + Tags(m.statements);
    assert k == 0 ==> LedgerOf(ms[..k]) == map[];
  }

  /** With no faults, the next migration always goes through. */
  lemma ApplySucceeds(ms: seq<Migration>, k: nat, faults: Faults)
    requires Contiguous(ms) && LedgerFirst(ms) && k < |ms|
    requires forall v, i :: !faults(v, i)
    ensures Apply(After(ms[..k]), ms[k], faults) == Some(After(ms[..k + 1]))
  {
    var db, m := After(ms[..k]), ms[k];
    assert m.statements[..|m.statements|] == m.statements;
    assert LedgersIn(m.statements) == if k == 0 then 1 else 0;
    StatementsSucceed(db, m, |m.statements|, faults);
    StatementsTakeEffect(db, m, |m.statements|, faults);
    LedgerVersions(ms[..k]);
    ApplyAdvances(ms, k, faults);
  }

  lemma {:induction false} StatementsSucceed(db: Database, m: Migration, n: nat, faults: Faults)
    requires n <= |m.statements| && forall v, i :: !faults(v, i)
    requires LedgersIn(m.statements[..n]) == 0 || (LedgersIn(m.statements[..n]) == 1 && db.ledger.None?)
    ensures ExecuteStatements(db, m, n, faults).Some?
  {
    if n > 0 {
      assert Init(m.statements[..n]) == m.statements[..n - 1];
      StatementsSucceed(db, m, n - 1, faults);
      StatementsTakeEffect(db, m, n - 1, faults);
    }
  }

  /** A migration in which a statement or the insertion into the ledger fails is rolled back. */
  lemma FaultRollsBack(db: Database, m: Migration, at: nat, faults: Faults)
    requires at <= |m.statements| && faults(m.version, at)
    ensures Apply(db, m, faults) == None
  {
    if at < |m.statements| {
      FaultFails(db, m, at, |m.statements|, faults);
    }
  }

  lemma {:induction false} FaultFails(db: Database, m: Migration, at: nat, n: nat, faults: Faults)
    requires at < n <= |m.statements| && faults(m.version, at)
    ensures ExecuteStatements(db, m, n, faults) == None
  {
    if at < n - 1 {
      FaultFails(db, m, at, n - 1, faults);
    }
  }

  // ---- One run ----

  lemma {:induction false} RunFromTail(ms: seq<Migration>, k: nat, from: nat, faults: Faults) returns (to: nat)
    requires Contiguous(ms) && LedgerFirst(ms) && k <= from <= |ms|
    ensures from <= to <= |ms| && RunFrom(After(ms[..from]), ms[from..], LedgerOf(ms[..k]), faults).0 == After(ms[..to])
    ensures var r := RunFrom(After(ms[..from]), ms[from..], LedgerOf(ms[..k]), faults);
      if to == |ms| then r.1 == None else r.1 == Some(Failed(to + 1))
    ensures (forall v, i :: !faults(v, i)) ==> to == |ms|
    decreases |ms| - from
  {
    hide Apply, After;
    to := from;
    if from < |ms| {
      LedgerVersions(ms[..k]);
      assert ms[from..][0] == ms[from] && ms[from..][1..] == ms[from + 1..];
      ApplyAdvances(ms, from, faults);
      if forall v, i :: !faults(v, i) { ApplySucceeds(ms, from, faults); }
      if Apply(After(ms[..from]), ms[from], faults).Some? {
        to := RunFromTail(ms, k, from + 1, faults);
      }
    }
  }

  /** Migrations already in the ledger are passed over. */
  lemma {:induction false} RunFromHead(ms: seq<Migration>, k: nat, from: nat, faults: Faults)
    requires Contiguous(ms) && from <= k <= |ms|
    ensures RunFrom(After(ms[..k]), ms[from..], LedgerOf(ms[..k]), faults) ==
        RunFrom(After(ms[..k]), ms[k..], LedgerOf(ms[..k]), faults)
    decreases k - from
  {
    if from < k {
      LedgerVersions(ms[..k]);
      assert ms[from..][0] == ms[from] && ms[from..][1..] == ms[from + 1..];
      RunFromHead(ms, k, from + 1, faults);
    }
  }

  /** A run on a database that has had the first `k` migrations ends having had the first `to`, with
      `to` at least `k`: everything, or up to the one that failed. Without faults it is everything. */
  lemma RunAdvances(ms: seq<Migration>, k: nat, faults: Faults) returns (to: nat)
    requires Contiguous(ms) && LedgerFirst(ms) && k <= |ms|
    ensures k <= to <= |ms| && Run(After(ms[..k]), ms, faults).0 == After(ms[..to])
    ensures if to == |ms| then Run(After(ms[..k]), ms, faults).1 == None
        else Run(After(ms[..k]), ms, faults).1 == Some(Failed(to + 1))
    ensures (forall v, i :: !faults(v, i)) ==> to == |ms|
  {
    hide RunFrom, After;
    to := RunFromTail(ms, k, k, faults);
    RunFromHead(ms, k, 0, faults);
    assert ms[0..] == ms;
    LedgerVersions(ms[..k]);
    AppliedIs(ms[..k]);
  }

  lemma AppliedIs(ms: seq<Migration>)
    ensures Applied(After(ms)) == LedgerOf(ms)
  {}

  // ---- Any number of runs ----

  /** The database after running the list once per fault pattern, from an empty database. */
  function RunAll(ms: seq<Migration>, faults: seq<Faults>): Database {
    if faults == [] then After([]) else Run(RunAll(ms, Init(faults)), ms, Last(faults)).0
  }

  /** However often runs crash and wherever, the ledger and the effects are those of a prefix of the
      list: each migration of the prefix took effect exactly once, in order, with its own checksum. */
  lemma {:induction false} AlwaysPrefix(ms: seq<Migration>, faults: seq<Faults>) returns (k: nat)
    requires Contiguous(ms) && LedgerFirst(ms)
    ensures k <= |ms| && RunAll(ms, faults) == After(ms[..k])
  {
    hide Run, After;
    if faults == [] {
      k := 0;
      assert ms[..0] == [];
    } else {
      var before := AlwaysPrefix(ms, Init(faults));
      k := RunAdvances(ms, before, Last(faults));
    }
  }

  /** After any history of crashes, one run without faults completes the list, and running again
      changes nothing and reports nothing. */
  lemma ResumeCompletes(ms: seq<Migration>, faults: seq<Faults>, clean: Faults, again: Faults)
    requires Contiguous(ms) && LedgerFirst(ms) && forall v, i :: !clean(v, i)
    ensures Run(RunAll(ms, faults), ms, clean) == (After(ms), None)
    ensures Run(After(ms), ms, again) == (After(ms), None)
  {
    hide Run, After;
    var k := AlwaysPrefix(ms, faults);
    var to := RunAdvances(ms, k, clean);
    assert ms[..|ms|] == ms;
    var end := RunAdvances(ms, |ms|, again);
  }

  /** Upgrading in stages is upgrading at once: running a list and later an extension of it leaves the
      database that running the extension from scratch leaves. */
  lemma ExtensionIsFromScratch(ms: seq<Migration>, extended: seq<Migration>, clean: Faults)
    requires Contiguous(extended) && LedgerFirst(extended) && ms <= extended && forall v, i :: !clean(v, i)
    ensures Run(Run(After([]), ms, clean).0, extended, clean) == Run(After([]), extended, clean) ==
        (After(extended), None)
  {
    hide Run, After;
    assert ms[..0] == [] && ms[..|ms|] == ms && extended[..0] == [] && extended[..|extended|] == extended;
    assert extended[..|ms|] == ms;
    var a := RunAdvances(ms, 0, clean);
    var b := RunAdvances(extended, |ms|, clean);
    var c := RunAdvances(extended, 0, clean);
  }

  // ---- Refusals ----

  /** A ledger with a version beyond the known list is refused before anything is done. */
  lemma NewerRefused(db: Database, ms: seq<Migration>, faults: Faults)
    requires !KnowsAll(ms, Applied(db))
    ensures Run(db, ms, faults) == (db, Some(NewerThanKnown))
  {}

  /** So after any runs of an extended list, going back to the shorter list is refused as too old
      exactly when some of what was added had been applied; otherwise the shorter list runs as before. */
  lemma OlderListRefusedIff(ms: seq<Migration>, extended: seq<Migration>, history: seq<Faults>, faults: Faults)
    requires Contiguous(extended) && LedgerFirst(extended) && ms <= extended
    ensures var db := RunAll(extended, history);
      && (Run(db, ms, faults) == (db, Some(NewerThanKnown)) <==> |ms| < |Applied(db)|)
      && (|Applied(db)| <= |ms| ==> Run(db, ms, faults).1 != Some(NewerThanKnown))
  {
    hide Run, RunAll, Effects;
    var k := AlwaysPrefix(extended, history);
    LedgerVersions(extended[..k]);
    LedgerSize(extended[..k]);
    AppliedIs(extended[..k]);
    if |ms| < k {
      assert k in Applied(RunAll(extended, history));
      NewerRefused(RunAll(extended, history), ms, faults);
    } else {
      assert extended[..k] == ms[..k];
      var to := RunAdvances(ms, k, faults);
    }
  }

  predicate Edited(m: Migration, applied: map<int, nat>) {
    m.version in applied && applied[m.version] != m.checksum
  }

  /** The ledger only grows. */
  ghost predicate Grown(db: Database, next: Database) {
    db.ledger.Some? ==> next.ledger.Some? && db.ledger.value.Keys <= next.ledger.value.Keys
  }

  lemma {:induction false} StatementsGrow(db: Database, m: Migration, n: nat, faults: Faults)
    requires n <= |m.statements|
    ensures ExecuteStatements(db, m, n, faults).Some? ==> Grown(db, ExecuteStatements(db, m, n, faults).value)
  {
    if n > 0 {
      StatementsGrow(db, m, n - 1, faults);
    }
  }

  lemma ApplyGrows(db: Database, m: Migration, faults: Faults)
    ensures var r := Apply(db, m, faults);
      r.Some? ==>
        Grown(db, r.value) && r.value.ledger.Some? && m.version in r.value.ledger.value && m.version !in Applied(db)
  {
    StatementsGrow(db, m, |m.statements|, faults);
  }

  lemma {:induction false} RunGrows(db: Database, ms: seq<Migration>, applied: map<int, nat>, faults: Faults)
    ensures Grown(db, RunFrom(db, ms, applied, faults).0)
    decreases |ms|
  {
    hide Apply;
    if ms != [] {
      ApplyGrows(db, ms[0], faults);
      if ms[0].version in applied {
        RunGrows(db, ms[1..], applied, faults);
      } else if Apply(db, ms[0], faults).Some? {
        RunGrows(Apply(db, ms[0], faults).value, ms[1..], applied, faults);
      }
    }
  }

  /** A migration that was edited after it was applied is refused with the database untouched exactly
      when everything before the first edited migration had been applied: otherwise the loop has
      already applied, or failed on, a migration that was missing before it. */
  lemma {:induction false} EditRefusedIff(db: Database, ms: seq<Migration>, applied: map<int, nat>, at: nat,
      faults: Faults)
    requires at < |ms| && Edited(ms[at], applied) && (forall i :: 0 <= i < at ==> !Edited(ms[i], applied))
    ensures (forall i :: 0 <= i < at ==> ms[i].version in applied) <==>
            RunFrom(db, ms, applied, faults) == (db, Some(ChecksumMismatch(ms[at].version)))
  {
    hide Apply;
    if at > 0 {
      var rest := ms[1..];
      assert forall i :: 0 <= i < at - 1 ==> rest[i] == ms[i + 1];
      assert forall i :: 1 <= i < at ==> ms[i] == rest[i - 1];
      if ms[0].version in applied {
        EditRefusedIff(db, rest, applied, at - 1, faults);
      } else {
        ApplyGrows(db, ms[0], faults);
        if Apply(db, ms[0], faults).Some? {
          RunGrows(Apply(db, ms[0], faults).value, rest, applied, faults);
        }
      }
    }
  }

  /** In every state that runs can leave behind, an edit of an applied migration is refused with the
      database unchanged, also when the edited list goes on with new migrations. */
  lemma EditedHistoryRefused(ms: seq<Migration>, history: seq<Faults>, edited: seq<Migration>, at: nat, faults: Faults)
    requires Contiguous(ms) && LedgerFirst(ms) && Contiguous(edited) && |ms| <= |edited|
    requires at < |ms| && Edited(edited[at], Applied(RunAll(ms, history)))
    requires forall i :: 0 <= i < at ==> edited[i].checksum == ms[i].checksum
    ensures Run(RunAll(ms, history), edited, faults) == (RunAll(ms, history), Some(ChecksumMismatch(at + 1)))
  {
    hide RunFrom, RunAll;
    var k := AlwaysPrefix(ms, history);
    LedgerVersions(ms[..k]);
    AppliedIs(ms[..k]);
    EditRefusedIff(RunAll(ms, history), edited, Applied(RunAll(ms, history)), at, faults);
  }

  // ---- Readiness ----

  predicate Ready(db: Database, ms: seq<Migration>) {
    db.ledger.Some? && |db.ledger.value| == |ms|
  }

  /** Counting ledger rows is enough: in every state that runs can leave behind, the count matches
      exactly when every migration has been applied and there is one, without which there is no
      ledger to count. */
  lemma ReadyIff(ms: seq<Migration>, history: seq<Faults>)
    requires Contiguous(ms) && LedgerFirst(ms)
    ensures Ready(RunAll(ms, history), ms) <==> ms != [] && RunAll(ms, history) == After(ms)
  {
    hide RunAll, Effects;
    var k := AlwaysPrefix(ms, history);
    LedgerSize(ms[..k]);
    LedgerSize(ms);
    assert ms[..|ms|] == ms;
  }

  lemma {:induction false} LedgerSize(ms: seq<Migration>)
    requires Contiguous(ms)
    ensures |LedgerOf(ms)| == |ms|
  {
    if ms != [] {
      LedgerSize(Init(ms));
      LedgerVersions(Init(ms));
    }
  }
}
