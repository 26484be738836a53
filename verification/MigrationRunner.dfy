/** Applying numbered migrations: the list of files is the schema's history, and
  * a file's version is its place in the list. What one statement does to the
  * database is a parameter.
  */
module MigrationRunner {
  import opened Values
  import Splitter

  datatype State<D> = State(db: D, versions: set<nat>)

  datatype Outcome<D> = Done(state: State<D>) | Failed(version: nat)

  // The text of a listed file, None when it was never embedded.
  type File = Option<string>

  type Engine<!D> = (D, string) -> Option<D>

  /* ---- one file ---- */

  predicate Space(c: char) {
    c == ' ' || c == '\t' || c == '\n' || c == '\r' || c == '\U{000B}' || c == '\U{000C}'
  }

  function TrimLeft(s: string): string {
    if s != "" && Space(s[0]) then TrimLeft(s[1..]) else s
  }

  function TrimRight(s: string): string {
    if s != "" && Space(s[|s| - 1]) then TrimRight(s[..|s| - 1]) else s
  }

  function Trim(s: string): string {
    TrimRight(TrimLeft(s))
  }

  // Every CR LF becomes LF.
  function UnixLines(s: string): string {
    if s == "" then ""
    else if |s| > 1 && s[0] == '\r' && s[1] == '\n' then "\n" + UnixLines(s[2..])
    else s[..1] + UnixLines(s[1..])
  }

  // The chunks in order, each trimmed, blank ones passed over, up to a failure.
  function Execute<D>(exec: Engine<D>, db: D, chunks: seq<string>): Option<D> {
    if chunks == [] then Some(db)
    else
      match Execute(exec, db, chunks[..|chunks| - 1])
      case None => None
      case Some(d) =>
        var chunk := Trim(chunks[|chunks| - 1]);
        if chunk == "" then Some(d) else exec(d, chunk)
  }

  ghost function ApplyBody<D>(exec: Engine<D>, db: D, sql: string): Option<D> {
    Execute(exec, db, Splitter.Chunks(Trim(UnixLines(sql))))
  }

  ghost function ApplyFile<D>(exec: Engine<D>, s: State<D>, file: File, version: nat): Outcome<D> {
    if version in s.versions then Done(s)
    else
      match file
      case None => Failed(version)
      case Some(sql) =>
        match ApplyBody(exec, s.db, sql)
        case None => Failed(version)
        case Some(db) => Done(State(db, s.versions + {version}))
  }

  /* ---- the whole list ---- */

  ghost function UpTo<D>(exec: Engine<D>, s: State<D>, files: seq<File>, n: nat): Outcome<D>
    requires n <= |files|
  {
    if n == 0 then Done(s)
    else
      match UpTo(exec, s, files, n - 1)
      case Failed(v) => Failed(v)
      case Done(t) => ApplyFile(exec, t, files[n - 1], n)
  }

  ghost function Upgraded<D>(exec: Engine<D>, s: State<D>, files: seq<File>): Outcome<D> {
    UpTo(exec, s, files, |files|)
  }

  // One transaction: a failing migration leaves database and version table alone.
  ghost function After<D>(exec: Engine<D>, s: State<D>, files: seq<File>): State<D> {
    match Upgraded(exec, s, files)
    case Done(t) => t
    case Failed(_) => s
  }

  ghost predicate Succeeds<D>(exec: Engine<D>, s: State<D>, files: seq<File>) {
    Upgraded(exec, s, files).Done?
  }

  lemma {:induction false} UpRecords<D>(exec: Engine<D>, s: State<D>, files: seq<File>, n: nat)
    requires n <= |files| && UpTo(exec, s, files, n).Done?
    ensures var t := UpTo(exec, s, files, n).state;
            forall v: nat :: v in t.versions <==> v in s.versions || 1 <= v <= n
  {
    if n > 0 {
      UpRecords(exec, s, files, n - 1);
    }
  }

  lemma {:induction false} RecordedAreSkipped<D>(exec: Engine<D>, s: State<D>, files: seq<File>, n: nat)
    requires n <= |files| && forall v: nat :: 1 <= v <= n ==> v in s.versions
    ensures UpTo(exec, s, files, n) == Done(s)
  {
    if n > 0 {
      RecordedAreSkipped(exec, s, files, n - 1);
    }
  }

  lemma {:induction false} SamePrefix<D>(exec: Engine<D>, s: State<D>, a: seq<File>, b: seq<File>, n: nat)
    requires n <= |a| && n <= |b| && a[..n] == b[..n]
    ensures UpTo(exec, s, a, n) == UpTo(exec, s, b, n)
  {
    if n > 0 {
      assert a[n - 1] == a[..n][n - 1] == b[..n][n - 1] == b[n - 1];
      assert a[..n - 1] == a[..n][..n - 1] == b[..n][..n - 1] == b[..n - 1];
      SamePrefix(exec, s, a, b, n - 1);
    }
  }

  // From a state reached part of the way, the run goes on as it would have.
  lemma {:induction false} Resumes<D>(exec: Engine<D>, s: State<D>, files: seq<File>, k: nat, n: nat)
    requires k <= n <= |files| && UpTo(exec, s, files, k).Done?
    ensures UpTo(exec, UpTo(exec, s, files, k).state, files, n) == UpTo(exec, s, files, n)
    decreases n
  {
    var t := UpTo(exec, s, files, k).state;
    if n == k {
      UpRecords(exec, s, files, k);
      RecordedAreSkipped(exec, t, files, k);
    } else {
      Resumes(exec, s, files, k, n - 1);
    }
  }

  // A file that fails keeps failing, at the same version, however the list grows.
  lemma {:induction false} StaysFailed<D>(exec: Engine<D>, s: State<D>, files: seq<File>, k: nat, n: nat)
    requires k <= n <= |files| && UpTo(exec, s, files, k).Failed?
    ensures UpTo(exec, s, files, n) == UpTo(exec, s, files, k)
    decreases n
  {
    if k < n {
      StaysFailed(exec, s, files, k, n - 1);
    }
  }

  // Upgrading to a longer list after a shorter one, whether or not that worked,
  // does what upgrading to the longer list alone does.
  lemma UpgradeInTwoSteps<D>(exec: Engine<D>, s: State<D>, a: seq<File>, b: seq<File>)
    requires a <= b
    ensures Upgraded(exec, After(exec, s, a), b) == Upgraded(exec, s, b)
    ensures Succeeds(exec, s, b) ==> Succeeds(exec, s, a)
  {
    SamePrefix(exec, s, a, b, |a|);
    match Upgraded(exec, s, a)
    case Done(t) =>
      Resumes(exec, s, b, |a|, |b|);
    case Failed(v) =>
      StaysFailed(exec, s, b, |a|, |b|);
  }

  lemma RepeatChangesNothing<D>(exec: Engine<D>, s: State<D>, files: seq<File>)
    ensures After(exec, After(exec, s, files), files) == After(exec, s, files)
    ensures Succeeds(exec, s, files) ==> Upgraded(exec, After(exec, s, files), files) == Done(After(exec, s, files))
  {
    UpgradeInTwoSteps(exec, s, files, files);
  }

  /* ---- a series of releases ---- */

  predicate Growing(releases: seq<seq<File>>) {
    forall i, j :: 0 <= i <= j < |releases| ==> releases[i] <= releases[j]
  }

  ghost function Through<D>(exec: Engine<D>, s: State<D>, releases: seq<seq<File>>): State<D> {
    if releases == [] then s
    else After(exec, Through(exec, s, releases[..|releases| - 1]), releases[|releases| - 1])
  }

  // How many releases, from the first on, succeed on their own from s.
  ghost function Working<D>(exec: Engine<D>, s: State<D>, releases: seq<seq<File>>): (n: nat)
    ensures n <= |releases|
  {
    if releases == [] then 0
    else if Succeeds(exec, s, releases[|releases| - 1]) then |releases|
    else Working(exec, s, releases[..|releases| - 1])
  }

  // Any series of growing lists ends where one run of the longest list that works
  // would have ended, from any starting point; where none works nothing changes.
  lemma {:induction false} UpgradePathDoesNotMatter<D>(exec: Engine<D>, s: State<D>, releases: seq<seq<File>>)
    requires Growing(releases)
    ensures var n := Working(exec, s, releases);
            Through(exec, s, releases) == if n == 0 then s else After(exec, s, releases[n - 1])
  {
    if releases != [] {
      var front, last := releases[..|releases| - 1], releases[|releases| - 1];
      UpgradePathDoesNotMatter(exec, s, front);
      var n := Working(exec, s, front);
      if n > 0 {
        assert front[n - 1] == releases[n - 1] <= last;
        UpgradeInTwoSteps(exec, s, front[n - 1], last);
      }
    }
  }

  // In particular, when the final list works from a fresh database.
  lemma FinalListDecides<D>(exec: Engine<D>, s: State<D>, releases: seq<seq<File>>)
    requires Growing(releases) && releases != [] && Succeeds(exec, s, releases[|releases| - 1])
    ensures Done(Through(exec, s, releases)) == Upgraded(exec, s, releases[|releases| - 1])
  {
    UpgradePathDoesNotMatter(exec, s, releases);
  }

  // Why a list is only ever appended to: put a file among the ones already run
  // and it is never run, while the last of them runs again under a new version.
  lemma InsertedFileIsSkipped<D>(exec: Engine<D>, s: State<D>, a: seq<File>, x: File, b: seq<File>)
    requires Succeeds(exec, s, a + b) && b != []
    requires |a| + |b| + 1 !in s.versions
    ensures var t := After(exec, s, a + b);
            Upgraded(exec, t, a + [x] + b) == ApplyFile(exec, t, b[|b| - 1], |a| + |b| + 1)
  {
    var n := |a| + |b|;
    var t := After(exec, s, a + b);
    var files := a + [x] + b;
    UpRecords(exec, s, a + b, n);
    RecordedAreSkipped(exec, t, files, n);
    assert files[n] == b[|b| - 1];
  }

  /* ---- the runner ---- */

  method ExecSQL<D>(exec: Engine<D>, db: D, body: string) returns (r: Option<D>)
    ensures r == ApplyBody(exec, db, body)
  {
    var sql := Trim(UnixLines(body));
    if sql == "" {
      NothingToExecute(exec, db);
      return Some(db);
    }
    var chunks := Splitter.SplitStatements(sql);
    r := Some(db);
    for i := 0 to |chunks|
      invariant r.Some? && r == Execute(exec, db, chunks[..i])
    {
      assert chunks[..i + 1][..i] == chunks[..i];
      var chunk := Trim(chunks[i]);
      if chunk == "" {
        continue;
      }
      r := exec(r.value, chunk);
      if r.None? {
        ExecutionStops(exec, db, chunks, i + 1);
        return;
      }
    }
    assert chunks[..|chunks|] == chunks;
  }

  lemma NothingToExecute<D>(exec: Engine<D>, db: D)
    ensures Execute(exec, db, Splitter.Chunks("")) == Some(db)
  {
    assert Splitter.Chunks("") == [""];
    assert Execute(exec, db, []) == Some(db);
  }

  lemma {:induction false} ExecutionStops<D>(exec: Engine<D>, db: D, chunks: seq<string>, n: nat)
    requires n <= |chunks| && Execute(exec, db, chunks[..n]).None?
    ensures Execute(exec, db, chunks).None?
    decreases |chunks| - n
  {
    if n == |chunks| {
      assert chunks[..n] == chunks;
    } else {
      assert chunks[..n + 1][..n] == chunks[..n];
      ExecutionStops(exec, db, chunks, n + 1);
    }
  }

  class Database<D> {
    var db: D
    var versions: set<nat>

    constructor (db: D)
      ensures this.db == db && versions == {}
    {
      this.db := db;
      this.versions := {};
    }

    ghost function Tables(): State<D>
      reads this
    {
      State(db, versions)
    }

    // Returns the version that failed, if one did.
    method Up(exec: Engine<D>, files: seq<File>) returns (failed: Option<nat>)
      modifies this
      ensures Tables() == After(exec, old(Tables()), files)
      ensures match Upgraded(exec, old(Tables()), files)
              case Done(_) => failed == None
              case Failed(v) => failed == Some(v)
    {
      var oldDb, oldVersions := db, versions;
      for i := 0 to |files|
        invariant Done(Tables()) == UpTo(exec, old(Tables()), files, i)
      {
        var version := i + 1;
        if version in versions {
          continue;
        }
        var applied := None;
        if files[i].Some? {
          applied := ExecSQL(exec, db, files[i].value);
        }
        if applied.None? {
          StaysFailed(exec, old(Tables()), files, i + 1, |files|);
          db, versions := oldDb, oldVersions;
          return Some(version);
        }
        db, versions := applied.value, versions + {version};
      }
      return None;
    }
  }
}
