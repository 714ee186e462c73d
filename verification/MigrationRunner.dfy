/** The migration runner on a database connection, with its transactions and rollbacks, and the
    discovery of the list from file names. */
module MigrationRunner {
  import opened Wrappers
  import opened Migrations

  class Connection {
    var ledger: Option<map<int, nat>>
    var effects: seq<nat>
    var saved: Database

    function View(): Database
      reads this
    {
      Database(ledger, effects)
    }

    method Begin()
      modifies `saved
      ensures saved == old(View())
    {
      saved := Database(ledger, effects);
    }

    method Rollback()
      modifies `ledger, `effects
      ensures View() == old(saved)
    {
      ledger, effects := saved.ledger, saved.effects;
    }

    method ExecuteOne(s: Statement) returns (ok: bool)
      modifies `ledger, `effects
      ensures ok <==> ExecuteStatement(old(View()), s).Some?
      ensures View() == if ok then ExecuteStatement(old(View()), s).value else old(View())
    {
      match s
      case CreateLedger =>
        if ledger.Some? { return false; }
        ledger := Some(map[]);
        ok := true;
      case Other(tag) =>
        effects := effects + [tag];
        ok := true;
    }

    method RecordApplied(m: Migration) returns (ok: bool)
      modifies `ledger
      ensures ok <==> InsertIntoLedger(old(View()), m).Some?
      ensures View() == if ok then InsertIntoLedger(old(View()), m).value else old(View())
    {
      if ledger == None || m.version in ledger.value {
        return false;
      }
      ledger := Some(ledger.value[m.version := m.checksum]);
      ok := true;
    }

    /** One migration in one transaction: all of it or, after a rollback, none of it. */
    method ApplyInTransaction(m: Migration, faults: Faults) returns (ok: bool)
      modifies this
      ensures ok <==> Apply(old(View()), m, faults).Some?
      ensures View() == if ok then Apply(old(View()), m, faults).value else old(View())
    {
      Begin();
      for i := 0 to |m.statements|
        invariant saved == old(View())
        invariant ExecuteStatements(old(View()), m, i, faults) == Some(View())
      {
        if faults(m.version, i) {
          StaysFailed(old(View()), m, i + 1, |m.statements|, faults);
          Rollback();
          return false;
        }
        var executed := ExecuteOne(m.statements[i]);
        if !executed {
          StaysFailed(old(View()), m, i + 1, |m.statements|, faults);
          Rollback();
          return false;
        }
      }
      if faults(m.version, |m.statements|) {
        Rollback();
        return false;
      }
      ok := RecordApplied(m);
      if !ok {
        Rollback();
      }
    }

    method RunMigrations(ms: seq<Migration>, faults: Faults) returns (error: Option<MigrationError>)
      modifies this
      ensures (View(), error) == Run(old(View()), ms, faults)
    {
      hide Apply;
      var applied: map<int, nat> := if ledger == None then map[] else ledger.value;
      var maxKnown := if ms == [] then 0 else ms[|ms| - 1].version;
      if exists v :: v in applied && maxKnown < v {
        return Some(NewerThanKnown);
      }
      assert ms[0..] == ms;
      for i := 0 to |ms|
        invariant RunFrom(View(), ms[i..], applied, faults) == RunFrom(old(View()), ms, applied, faults)
      {
        var m := ms[i];
        assert ms[i..][0] == m && ms[i..][1..] == ms[i + 1..];
        if m.version in applied {
          if applied[m.version] != m.checksum {
            return Some(ChecksumMismatch(m.version));
          }
          continue;
        }
        var ok := ApplyInTransaction(m, faults);
        if !ok {
          return Some(Failed(m.version));
        }
      }
      error := None;
    }
  }

  /** Once a statement has failed, nothing later in the migration takes effect. */
  lemma {:induction false} StaysFailed(db: Database, m: Migration, i: nat, n: nat, faults: Faults)
    requires i <= n <= |m.statements| && ExecuteStatements(db, m, i, faults).None?
    ensures ExecuteStatements(db, m, n, faults).None?
  {
    if i < n {
      StaysFailed(db, m, i, n - 1, faults);
    }
  }

  // ---- Discovery ----

  /** A `.sql` file: what its name says, if it has the right form, and what it holds. */
  datatype File = File(version: Option<int>, statements: seq<Statement>, checksum: nat)

  datatype DiscoveryError =
    | DirectoryNotFound
    | MalformedFilename
    | DuplicateVersion(version: int)
    | NotContiguous(version: int, position: int)

  function InsertByVersion(m: Migration, sorted: seq<Migration>): seq<Migration> {
    if sorted == [] || m.version < sorted[0].version then [m] + sorted
    else [sorted[0]] + InsertByVersion(m, sorted[1..])
  }

  function SortByVersion(ms: seq<Migration>): seq<Migration> {
    if ms == [] then [] else InsertByVersion(ms[|ms| - 1], SortByVersion(ms[..|ms| - 1]))
  }

  predicate Sorted(ms: seq<Migration>) {
    forall i, j :: 0 <= i < j < |ms| ==> ms[i].version <= ms[j].version
  }

  lemma {:induction false} InsertByVersionOk(m: Migration, sorted: seq<Migration>)
    requires Sorted(sorted)
    ensures Sorted(InsertByVersion(m, sorted))
    ensures forall x :: x in InsertByVersion(m, sorted) <==> x == m || x in sorted
    ensures |InsertByVersion(m, sorted)| == |sorted| + 1
  {
    if sorted != [] && sorted[0].version <= m.version {
      InsertByVersionOk(m, sorted[1..]);
      var rest := InsertByVersion(m, sorted[1..]);
      forall j | 0 <= j < |rest| ensures sorted[0].version <= rest[j].version {
        assert rest[j] in rest;
      }
      forall x ensures x in [sorted[0]] + rest <==> x == m || x in sorted {
        assert x in sorted <==> x == sorted[0] || x in sorted[1..];
      }
    }
  }

  lemma {:induction false} SortByVersionOk(ms: seq<Migration>)
    ensures Sorted(SortByVersion(ms)) && |SortByVersion(ms)| == |ms|
    ensures forall x :: x in SortByVersion(ms) <==> x in ms
  {
    if ms != [] {
      var last := |ms| - 1;
      SortByVersionOk(ms[..last]);
      InsertByVersionOk(ms[last], SortByVersion(ms[..last]));
      assert ms == ms[..last] + [ms[last]];
    }
  }

  predicate WellNamed(files: seq<File>) {
    forall i :: 0 <= i < |files| ==> files[i].version.Some?
  }

  predicate DistinctVersions(files: seq<File>) {
    forall i, j :: 0 <= i < j < |files| && files[i].version.Some? && files[j].version.Some? ==>
        files[i].version != files[j].version
  }

  /** Every version from 1 to the number of files has a file. */
  predicate Covers(files: seq<File>) {
    forall v {:trigger HasVersion(files, v)} :: 1 <= v <= |files| ==> HasVersion(files, v)
  }

  predicate HasVersion(files: seq<File>, v: int) {
    exists i :: 0 <= i < |files| && files[i].version == Some(v)
  }

  function Parsed(f: File): Migration
    requires f.version.Some?
  {
    Migration(f.version.value, f.statements, f.checksum)
  }

  /** The first file in order that has no proper name or repeats a version; or, when there is none, where
      the versions in order first leave 1, 2, ... */
  predicate Explains(files: seq<File>, e: DiscoveryError) {
    match e
    case DirectoryNotFound => false
    case MalformedFilename =>
      exists i :: 0 <= i < |files| && WellNamed(files[..i]) && DistinctVersions(files[..i]) && files[i].version.None?
    case DuplicateVersion(v) =>
      exists i :: 0 <= i < |files| && WellNamed(files[..i]) && DistinctVersions(files[..i])
                  && files[i].version == Some(v) && HasVersion(files[..i], v)
    case NotContiguous(v, position) =>
      && WellNamed(files) && DistinctVersions(files) && v != position && HasVersion(files, v)
      && 1 <= position && forall u :: 1 <= u < position ==> HasVersion(files, u)
  }

  /** Discovery succeeds exactly when there is a directory, all names in it are well formed, versions are
      distinct and they cover 1 to n; it then returns every file's migration, in the order of versions. */
  method DiscoverMigrations(directory: Option<seq<File>>) returns (r: Result<seq<Migration>, DiscoveryError>)
    ensures r.Ok? <==> directory.Some? && WellNamed(directory.value) && DistinctVersions(directory.value)
                       && Covers(directory.value)
    ensures r.Ok? ==> Contiguous(r.value) && |r.value| == |directory.value|
    ensures r.Ok? ==> forall i :: 0 <= i < |directory.value| ==> var f := directory.value[i];
              f.version.Some? && Migration(f.version.value, f.statements, f.checksum) in r.value
    ensures r.Err? ==> if directory.None? then r.error == DirectoryNotFound else Explains(directory.value, r.error)
  {
    if directory == None {
      return Err(DirectoryNotFound);
    }
    var files := directory.value;
    var migrations: seq<Migration> := [];
    var seen: set<int> := {};
    for i := 0 to |files|
      invariant WellNamed(files[..i]) && DistinctVersions(files[..i])
      invariant |migrations| == i && forall j :: 0 <= j < i ==> migrations[j] == Parsed(files[j])
      invariant forall v :: v in seen <==> HasVersion(files[..i], v)
    {
      if files[i].version == None {
        assert Explains(files, MalformedFilename);
        return Err(MalformedFilename);
      }
      var version := files[i].version.value;
      if version in seen {
        assert Explains(files, DuplicateVersion(version));
        return Err(DuplicateVersion(version));
      }
      SeenGrows(files, i);
      seen := seen + {version};
      migrations := migrations + [Parsed(files[i])];
    }
    assert files[..|files|] == files;
    ghost var unsorted := migrations;
    SortByVersionOk(migrations);
    migrations := SortByVersion(migrations);
    for i := 0 to |migrations|
      invariant forall j :: 0 <= j < i ==> migrations[j].version == j + 1
    {
      if migrations[i].version != i + 1 {
        MissesVersion(files, unsorted, migrations, i);
        AllHaveFiles(files, unsorted, migrations, i);
        forall u | 1 <= u <= i ensures HasVersion(files, u) {
          assert migrations[u - 1].version == u;
        }
        return Err(NotContiguous(migrations[i].version, i + 1));
      }
    }
    CoversAll(files, unsorted, migrations);
    r := Ok(migrations);
  }

  lemma SeenGrows(files: seq<File>, i: nat)
    requires i < |files| && files[i].version.Some?
    ensures forall v :: HasVersion(files[..i + 1], v) <==> HasVersion(files[..i], v) || v == files[i].version.value
  {
    forall v ensures HasVersion(files[..i + 1], v) <==> HasVersion(files[..i], v) || v == files[i].version.value {
      if HasVersion(files[..i], v) {
        var j :| 0 <= j < i && files[..i][j].version == Some(v);
        assert files[..i + 1][j].version == Some(v);
      }
      if v == files[i].version.value {
        assert files[..i + 1][i].version == Some(v);
      }
      if HasVersion(files[..i + 1], v) && v != files[i].version.value {
        var j :| 0 <= j < i + 1 && files[..i + 1][j].version == Some(v);
        assert files[..i][j].version == Some(v);
      }
    }
  }

  lemma AllHaveFiles(files: seq<File>, unsorted: seq<Migration>, sorted: seq<Migration>, i: nat)
    requires |unsorted| == |sorted| == |files| && WellNamed(files) && i < |files|
    requires forall j :: 0 <= j < |files| ==> unsorted[j] == Parsed(files[j])
    requires forall x :: x in sorted <==> x in unsorted
    ensures forall j :: 0 <= j <= i ==> HasVersion(files, sorted[j].version)
  {
    forall j | 0 <= j <= i ensures HasVersion(files, sorted[j].version) {
      assert sorted[j] in sorted;
      var k :| 0 <= k < |unsorted| && unsorted[k] == sorted[j];
      assert files[k].version == Some(sorted[j].version);
    }
  }

  lemma CoversAll(files: seq<File>, unsorted: seq<Migration>, sorted: seq<Migration>)
    requires |unsorted| == |sorted| == |files| && WellNamed(files)
    requires forall j :: 0 <= j < |files| ==> unsorted[j] == Parsed(files[j])
    requires forall x :: x in sorted <==> x in unsorted
    requires Contiguous(sorted)
    ensures Covers(files)
    ensures forall i :: 0 <= i < |files| ==> Parsed(files[i]) in sorted
  {
    forall v | 1 <= v <= |files| ensures HasVersion(files, v) {
      assert sorted[v - 1] in sorted;
      var j :| 0 <= j < |unsorted| && unsorted[j] == sorted[v - 1];
      assert files[j].version == Some(v);
    }
    forall i | 0 <= i < |files| ensures Parsed(files[i]) in sorted {
      assert unsorted[i] in unsorted;
    }
  }

  /** When the sorted list first leaves 1, 2, ... at position `i`, version `i + 1` has no file or the
      versions are not distinct. */
  lemma MissesVersion(files: seq<File>, unsorted: seq<Migration>, sorted: seq<Migration>, i: nat)
    requires |unsorted| == |sorted| == |files| && WellNamed(files) && DistinctVersions(files)
    requires forall j :: 0 <= j < |files| ==> unsorted[j] == Parsed(files[j])
    requires Sorted(sorted) && (forall x :: x in sorted <==> x in unsorted)
    requires i < |sorted| && (forall j :: 0 <= j < i ==> sorted[j].version == j + 1) && sorted[i].version != i + 1
    ensures !Covers(files)
  {
    hide Covers, DistinctVersions;
    if Covers(files) {
      var at := AllVersions(files, unsorted, sorted);
      VersionsInOrder(sorted, at, i);
    }
  }

  /** Where each version 1 to n stands in the sorted list. */
  lemma AllVersions(files: seq<File>, unsorted: seq<Migration>, sorted: seq<Migration>) returns (at: seq<nat>)
    requires |unsorted| == |sorted| == |files| && WellNamed(files) && Covers(files)
    requires forall j :: 0 <= j < |files| ==> unsorted[j] == Parsed(files[j])
    requires forall x :: x in sorted <==> x in unsorted
    ensures |at| == |sorted| && forall v :: 0 <= v < |at| ==> at[v] < |sorted| && sorted[at[v]].version == v + 1
  {
    at := [];
    while |at| < |sorted|
      invariant |at| <= |sorted|
      invariant forall v :: 0 <= v < |at| ==> at[v] < |sorted| && sorted[at[v]].version == v + 1
    {
      assert HasVersion(files, |at| + 1);
      var j :| 0 <= j < |files| && files[j].version == Some(|at| + 1);
      assert unsorted[j] in unsorted;
      var k: nat :| k < |sorted| && sorted[k] == unsorted[j];
      at := at + [k];
    }
  }

  /** A sorted list that holds every version 1 to n, n being its length, is 1, 2, ..., n. */
  lemma {:induction false} VersionsInOrder(sorted: seq<Migration>, at: seq<nat>, i: nat)
    requires Sorted(sorted) && |at| == |sorted| && i < |sorted|
    requires forall v :: 0 <= v < |at| ==> at[v] < |sorted| && sorted[at[v]].version == v + 1
    ensures sorted[i].version == i + 1
  {
    PositionsClimb(sorted, at, i);
    PositionsBounded(sorted, at, i);
  }

  lemma {:induction false} PositionsClimb(sorted: seq<Migration>, at: seq<nat>, v: nat)
    requires Sorted(sorted) && |at| == |sorted| && v < |sorted|
    requires forall v :: 0 <= v < |at| ==> at[v] < |sorted| && sorted[at[v]].version == v + 1
    ensures v <= at[v]
  {
    if v > 0 {
      PositionsClimb(sorted, at, v - 1);
      assert sorted[at[v - 1]].version < sorted[at[v]].version;
      assert at[v - 1] < at[v];
    }
  }

  lemma {:induction false} PositionsBounded(sorted: seq<Migration>, at: seq<nat>, v: nat)
    requires Sorted(sorted) && |at| == |sorted| && v < |sorted|
    requires forall v :: 0 <= v < |at| ==> at[v] < |sorted| && sorted[at[v]].version == v + 1
    ensures at[v] <= v
    decreases |at| - v
  {
    if v + 1 < |at| {
      PositionsBounded(sorted, at, v + 1);
      assert sorted[at[v]].version < sorted[at[v + 1]].version;
      assert at[v] < at[v + 1];
    }
  }
}
