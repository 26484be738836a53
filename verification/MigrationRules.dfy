/** When an upgrade succeeds and where it leads, said of the engine and the
  * statements alone; and what the statements of a file are.
  */
module MigrationRules {
  import opened Values
  import Splitter
  import opened MigrationRunner

  /* ---- the text of a file ---- */

  predicate Blank(c: char) {
    c == ' ' || c == '\t' || c == '\n' || c == '\r' || c == '\U{000B}' || c == '\U{000C}'
  }

  predicate AllBlank(s: string) {
    forall i :: 0 <= i < |s| ==> Blank(s[i])
  }

  // s is t with white space around it, and t neither starts nor ends with any.
  ghost predicate TrimmedTo(s: string, t: string) {
    && (t != "" ==> !Blank(t[0]) && !Blank(t[|t| - 1]))
    && exists a, b :: AllBlank(a) && AllBlank(b) && s == a + t + b
  }

  lemma {:induction false} LeftTrimmed(s: string)
    ensures exists a :: AllBlank(a) && s == a + TrimLeft(s)
    ensures TrimLeft(s) != "" ==> !Blank(TrimLeft(s)[0])
  {
    if s != "" && Space(s[0]) {
      LeftTrimmed(s[1..]);
      var a :| AllBlank(a) && s[1..] == a + TrimLeft(s[1..]);
      assert AllBlank([s[0]] + a);
      assert s == ([s[0]] + a) + TrimLeft(s);
    } else {
      assert AllBlank("") && s == "" + TrimLeft(s);
    }
  }

  lemma {:induction false} RightTrimmed(s: string)
    ensures exists b :: AllBlank(b) && s == TrimRight(s) + b
    ensures TrimRight(s) != "" ==> !Blank(TrimRight(s)[|TrimRight(s)| - 1]) && TrimRight(s)[0] == s[0]
    decreases |s|
  {
    if s != "" && Space(s[|s| - 1]) {
      var front := s[..|s| - 1];
      RightTrimmed(front);
      var b :| AllBlank(b) && front == TrimRight(front) + b;
      assert AllBlank(b + [s[|s| - 1]]);
      assert s == TrimRight(s) + (b + [s[|s| - 1]]);
    } else {
      assert AllBlank("") && s == TrimRight(s) + "";
    }
  }

  lemma TrimTrims(s: string)
    ensures TrimmedTo(s, Trim(s))
  {
    LeftTrimmed(s);
    RightTrimmed(TrimLeft(s));
    var a :| AllBlank(a) && s == a + TrimLeft(s);
    var b :| AllBlank(b) && TrimLeft(s) == Trim(s) + b;
    assert s == a + Trim(s) + b;
  }

  // Where the text that is left begins and ends.
  lemma InkBounds(s: string, a: string, t: string, b: string)
    requires s == a + t + b && AllBlank(a) && AllBlank(b) && t != "" && !Blank(t[0]) && !Blank(t[|t| - 1])
    ensures |a| < |a| + |t| <= |s| && t == s[|a|..|a| + |t|]
    ensures !Blank(s[|a|]) && forall i :: 0 <= i < |a| ==> Blank(s[i])
    ensures !Blank(s[|a| + |t| - 1]) && forall i :: |a| + |t| <= i < |s| ==> Blank(s[i])
  {
    assert s[|a|] == t[0] && s[|a| + |t| - 1] == t[|t| - 1];
    forall i | |a| + |t| <= i < |s| ensures Blank(s[i]) {
      assert s[i] == b[i - |a| - |t|];
    }
  }

  lemma BlankHasNoInk(a: string, t: string, b: string)
    requires AllBlank(a + t + b)
    ensures AllBlank(t)
  {
    forall i | 0 <= i < |t| ensures Blank(t[i]) {
      assert (a + t + b)[|a| + i] == t[i];
    }
  }

  lemma BlankJoins(a: string, b: string)
    requires AllBlank(a) && AllBlank(b)
    ensures AllBlank(a + "" + b)
  {}

  // There is one such text, so this says what trimming does.
  lemma TrimmedOnce(s: string, t: string, u: string)
    requires TrimmedTo(s, t) && TrimmedTo(s, u)
    ensures t == u
  {
    var a, b :| AllBlank(a) && AllBlank(b) && s == a + t + b;
    var c, d :| AllBlank(c) && AllBlank(d) && s == c + u + d;
    if t == "" {
      BlankJoins(a, b);
      BlankHasNoInk(c, u, d);
    } else if u == "" {
      BlankJoins(c, d);
      BlankHasNoInk(a, t, b);
    } else {
      InkBounds(s, a, t, b);
      InkBounds(s, c, u, d);
    }
  }

  lemma PairBecomesUnix(rest: string)
    ensures UnixLines("\r\n" + rest) == "\n" + UnixLines(rest)
  {
    var s := "\r\n" + rest;
    assert s[0] == '\r' && s[1] == '\n' && s[2..] == rest;
  }

  lemma CharacterStays(c: char, rest: string)
    requires !(c == '\r' && rest != "" && rest[0] == '\n')
    ensures UnixLines([c] + rest) == [c] + UnixLines(rest)
  {
    var s := [c] + rest;
    assert s[..1] == [c] && s[1..] == rest;
  }

  lemma Regroup(a: string, b: string, c: string)
    ensures (a + b) + c == a + (b + c)
  {}

  lemma SplitAfterPair(front: string, tail: string, end: string)
    requires UnixLines(front + tail) == UnixLines(front) + end
    ensures UnixLines("\r\n" + front + tail) == UnixLines("\r\n" + front) + end
  {
    PairBecomesUnix(front);
    PairBecomesUnix(front + tail);
    Regroup("\r\n", front, tail);
    Regroup("\n", UnixLines(front), end);
  }

  lemma SplitAfterCharacter(c: char, front: string, tail: string, end: string)
    requires UnixLines(front + tail) == UnixLines(front) + end
    requires tail != "" && tail[0] == '\r' && !(c == '\r' && front != "" && front[0] == '\n')
    ensures UnixLines([c] + front + tail) == UnixLines([c] + front) + end
  {
    CharacterStays(c, front);
    CharacterStays(c, front + tail);
    Regroup([c], front, tail);
    Regroup([c], UnixLines(front), end);
  }

  lemma {:induction false} LinesSplitBeforeCR(a: string, tail: string, end: string)
    requires tail != "" && tail[0] == '\r' && UnixLines(tail) == end
    ensures UnixLines(a + tail) == UnixLines(a) + end
    decreases |a|
  {
    if a == "" {
      assert a + tail == tail && UnixLines(a) + end == end;
    } else if |a| > 1 && a[0] == '\r' && a[1] == '\n' {
      var front := a[2..];
      LinesSplitBeforeCR(front, tail, end);
      SplitAfterPair(front, tail, end);
      assert a == "\r\n" + front;
    } else {
      var front := a[1..];
      LinesSplitBeforeCR(front, tail, end);
      SplitAfterCharacter(a[0], front, tail, end);
      assert a == [a[0]] + front;
    }
  }

  // Every CR LF becomes LF, and nothing else changes.
  lemma LineEndsBecomeUnix(a: string, b: string)
    ensures UnixLines(a + "\r\n" + b) == UnixLines(a) + "\n" + UnixLines(b)
  {
    var tail := "\r\n" + b;
    LinesSplitBeforeCR(a, tail, UnixLines(tail));
    PairBecomesUnix(b);
    assert a + "\r\n" + b == a + tail;
  }

  lemma {:induction false} OtherTextStays(s: string)
    requires forall i :: 0 <= i < |s| - 1 ==> !(s[i] == '\r' && s[i + 1] == '\n')
    ensures UnixLines(s) == s
  {
    if s != "" {
      forall i | 0 <= i < |s[1..]| - 1 ensures !(s[1..][i] == '\r' && s[1..][i + 1] == '\n') {
        assert s[1..][i] == s[i + 1] && s[1..][i + 1] == s[i + 2];
      }
      OtherTextStays(s[1..]);
      assert s == s[..1] + s[1..];
    }
  }

  /* ---- the statements of a file ---- */

  function NonBlank(chunks: seq<string>): seq<string> {
    if chunks == [] then []
    else
      var t := Trim(chunks[0]);
      (if t == "" then [] else [t]) + NonBlank(chunks[1..])
  }

  // The non-blank chunks of the text, trimmed, in order.
  ghost function Statements(text: string): seq<string> {
    NonBlank(Splitter.Chunks(Trim(UnixLines(text))))
  }

  // Each statement is accepted by the engine and leads from one database to the next.
  ghost predicate Chain<D(!new)>(exec: Engine<D>, dbs: seq<D>, statements: seq<string>) {
    && |dbs| == |statements| + 1
    && forall i :: 0 <= i < |statements| ==> exec(dbs[i], statements[i]) == Some(dbs[i + 1])
  }

  lemma ChainOne<D(!new)>(exec: Engine<D>, dbs: seq<D>, statements: seq<string>, statement: string, db: D)
    requires Chain(exec, dbs, statements) && exec(dbs[|statements|], statement) == Some(db)
    ensures Chain(exec, dbs + [db], statements + [statement])
  {
    var longer, all := dbs + [db], statements + [statement];
    forall i | 0 <= i < |all| ensures exec(longer[i], all[i]) == Some(longer[i + 1]) {
      assert i < |statements| ==> all[i] == statements[i] && longer[i] == dbs[i] && longer[i + 1] == dbs[i + 1];
    }
  }

  lemma {:induction false} ChainIsUnique<D(!new)>(exec: Engine<D>, a: seq<D>, b: seq<D>,
                                                   statements: seq<string>, n: nat)
    requires Chain(exec, a, statements) && Chain(exec, b, statements) && a[0] == b[0] && n <= |statements|
    ensures a[n] == b[n]
  {
    if n > 0 {
      ChainIsUnique(exec, a, b, statements, n - 1);
      assert exec(a[n - 1], statements[n - 1]) == Some(a[n]);
      assert exec(b[n - 1], statements[n - 1]) == Some(b[n]);
    }
  }

  lemma {:induction false} NonBlankAdds(a: seq<string>, b: seq<string>)
    ensures NonBlank(a + b) == NonBlank(a) + NonBlank(b)
  {
    if a == [] {
      assert a + b == b;
    } else {
      assert (a + b)[1..] == a[1..] + b;
      NonBlankAdds(a[1..], b);
    }
  }

  lemma OneChunk(chunk: string)
    ensures NonBlank([chunk]) == if Trim(chunk) == "" then [] else [Trim(chunk)]
  {
    assert [chunk][1..] == [];
  }

  ghost predicate Leads<D(!new)>(exec: Engine<D>, db: D, statements: seq<string>, end: D) {
    exists dbs :: Chain(exec, dbs, statements) && dbs[0] == db && dbs[|statements|] == end
  }

  lemma LeadsNowhere<D(!new)>(exec: Engine<D>, db: D)
    ensures Leads(exec, db, [], db)
  {
    assert Chain(exec, [db], []);
  }

  lemma LeadsOn<D(!new)>(exec: Engine<D>, db: D, statements: seq<string>, mid: D, statement: string, end: D)
    requires Leads(exec, db, statements, mid) && exec(mid, statement) == Some(end)
    ensures Leads(exec, db, statements + [statement], end)
  {
    var dbs :| Chain(exec, dbs, statements) && dbs[0] == db && dbs[|statements|] == mid;
    ChainOne(exec, dbs, statements, statement, end);
    var longer, all := dbs + [end], statements + [statement];
    assert Chain(exec, longer, all) && longer[0] == db && longer[|all|] == end;
  }

  // A way through more statements goes through the first of them.
  lemma LeadsThrough<D(!new)>(exec: Engine<D>, db: D, a: seq<string>, b: seq<string>, end: D) returns (mid: D)
    requires Leads(exec, db, a + b, end)
    ensures Leads(exec, db, a, mid) && Leads(exec, mid, b, end)
  {
    var all := a + b;
    var dbs :| Chain(exec, dbs, all) && dbs[0] == db && dbs[|all|] == end;
    mid := dbs[|a|];
    var first, second := dbs[..|a| + 1], dbs[|a|..];
    forall i | 0 <= i < |a| ensures exec(first[i], a[i]) == Some(first[i + 1]) {
      assert all[i] == a[i];
    }
    forall i | 0 <= i < |b| ensures exec(second[i], b[i]) == Some(second[i + 1]) {
      assert all[|a| + i] == b[i];
    }
    assert Chain(exec, first, a) && first[0] == db && first[|a|] == mid;
    assert Chain(exec, second, b) && second[0] == mid && second[|b|] == end;
  }

  lemma LeadsJoin<D(!new)>(exec: Engine<D>, db: D, a: seq<string>, mid: D, b: seq<string>, end: D)
    requires Leads(exec, db, a, mid) && Leads(exec, mid, b, end)
    ensures Leads(exec, db, a + b, end)
  {
    var x :| Chain(exec, x, a) && x[0] == db && x[|a|] == mid;
    var y :| Chain(exec, y, b) && y[0] == mid && y[|b|] == end;
    var all, dbs := a + b, x + y[1..];
    forall i | 0 <= i < |all| ensures exec(dbs[i], all[i]) == Some(dbs[i + 1]) {
      if i < |a| {
        assert all[i] == a[i];
      } else {
        assert all[i] == b[i - |a|] && dbs[i] == y[i - |a|] && dbs[i + 1] == y[i + 1 - |a|];
      }
    }
    assert Chain(exec, dbs, all) && dbs[0] == db && dbs[|all|] == end;
  }

  lemma LeadsToOne<D(!new)>(exec: Engine<D>, db: D, statements: seq<string>, a: D, b: D)
    requires Leads(exec, db, statements, a) && Leads(exec, db, statements, b)
    ensures a == b
  {
    var x :| Chain(exec, x, statements) && x[0] == db && x[|statements|] == a;
    var y :| Chain(exec, y, statements) && y[0] == db && y[|statements|] == b;
    ChainIsUnique(exec, x, y, statements, |statements|);
  }

  lemma LeadsByOne<D(!new)>(exec: Engine<D>, db: D, statement: string, end: D)
    ensures Leads(exec, db, [statement], end) <==> exec(db, statement) == Some(end)
  {
    if exec(db, statement) == Some(end) {
      LeadsNowhere(exec, db);
      LeadsOn(exec, db, [], db, statement, end);
      assert [] + [statement] == [statement];
    }
    if Leads(exec, db, [statement], end) {
      var dbs :| Chain(exec, dbs, [statement]) && dbs[0] == db && dbs[|[statement]|] == end;
      assert exec(dbs[0], [statement][0]) == Some(dbs[1]);
    }
  }

  /* ---- one file ---- */

  // Executing the chunks succeeds exactly when their statements lead somewhere,
  // and ends there.
  lemma {:induction false} ExecutionLeads<D(!new)>(exec: Engine<D>, db: D, chunks: seq<string>, end: D)
    ensures Execute(exec, db, chunks) == Some(end) <==> Leads(exec, db, NonBlank(chunks), end)
    decreases |chunks|, 0
  {
    if chunks == [] {
      LeadsNowhere(exec, db);
      if Leads(exec, db, [], end) {
        LeadsToOne(exec, db, [], db, end);
      }
    } else {
      var front, last := chunks[..|chunks| - 1], chunks[|chunks| - 1];
      assert chunks == front + [last];
      NonBlankAdds(front, [last]);
      OneChunk(last);
      if Execute(exec, db, chunks) == Some(end) {
        ExecutedLeads(exec, db, front, last, end);
      }
      if Leads(exec, db, NonBlank(chunks), end) {
        LeadsExecuted(exec, db, front, last, end);
      }
    }
  }

  lemma ExecutedLeads<D(!new)>(exec: Engine<D>, db: D, front: seq<string>, last: string, end: D)
    requires Execute(exec, db, front + [last]) == Some(end)
    ensures Leads(exec, db, NonBlank(front) + NonBlank([last]), end)
    decreases |front|, 1
  {
    assert (front + [last])[..|front|] == front;
    OneChunk(last);
    var mid := Execute(exec, db, front).value;
    ExecutionLeads(exec, db, front, mid);
    if Trim(last) == "" {
      assert NonBlank(front) + [] == NonBlank(front);
    } else {
      LeadsOn(exec, db, NonBlank(front), mid, Trim(last), end);
    }
  }

  lemma LeadsExecuted<D(!new)>(exec: Engine<D>, db: D, front: seq<string>, last: string, end: D)
    requires Leads(exec, db, NonBlank(front) + NonBlank([last]), end)
    ensures Execute(exec, db, front + [last]) == Some(end)
    decreases |front|, 1
  {
    assert (front + [last])[..|front|] == front;
    OneChunk(last);
    var mid := LeadsThrough(exec, db, NonBlank(front), NonBlank([last]), end);
    ExecutionLeads(exec, db, front, mid);
    if Trim(last) == "" {
      LeadsNowhere(exec, mid);
      LeadsToOne(exec, mid, [], mid, end);
    } else {
      LeadsByOne(exec, mid, Trim(last), end);
    }
  }

  lemma BodyLeads<D(!new)>(exec: Engine<D>, db: D, text: string, end: D)
    ensures ApplyBody(exec, db, text) == Some(end) <==> Leads(exec, db, Statements(text), end)
  {
    ExecutionLeads(exec, db, Splitter.Chunks(Trim(UnixLines(text))), end);
  }

  /* ---- a list of files ---- */

  ghost function OwnStatements(last: File, n: nat, versions: set<nat>): seq<string> {
    if n in versions || last.None? then [] else Statements(last.value)
  }

  // The statements of the files whose numbers are not in the version table.
  ghost function NewStatements(files: seq<File>, versions: set<nat>): seq<string> {
    if files == [] then []
    else
      var front, last := files[..|files| - 1], files[|files| - 1];
      NewStatements(front, versions) + OwnStatements(last, |files|, versions)
  }

  ghost predicate AllEmbedded(files: seq<File>, versions: set<nat>) {
    forall i :: 0 <= i < |files| && i + 1 !in versions ==> files[i].Some?
  }

  ghost predicate EndsIn<D(!new)>(exec: Engine<D>, s: State<D>, files: seq<File>, n: nat, end: D)
    requires n <= |files|
  {
    UpTo(exec, s, files, n).Done? && UpTo(exec, s, files, n).state.db == end
  }

  // A run ends in a database exactly when every new file is there and their
  // statements, one after the other, lead to it.
  lemma {:induction false} RunLeads<D(!new)>(exec: Engine<D>, s: State<D>, files: seq<File>, n: nat, end: D)
    requires n <= |files|
    ensures EndsIn(exec, s, files, n, end) <==>
            AllEmbedded(files[..n], s.versions) && Leads(exec, s.db, NewStatements(files[..n], s.versions), end)
    decreases n, 0
  {
    if n == 0 {
      LeadsNowhere(exec, s.db);
      if Leads(exec, s.db, [], end) {
        LeadsToOne(exec, s.db, [], s.db, end);
      }
    } else {
      assert files[..n] == files[..n - 1] + [files[n - 1]];
      StatementsOneMore(files[..n - 1], files[n - 1], s.versions);
      if EndsIn(exec, s, files, n, end) {
        RunLedHere(exec, s, files, n - 1, end);
      }
      if AllEmbedded(files[..n], s.versions) && Leads(exec, s.db, NewStatements(files[..n], s.versions), end) {
        LeadIsRun(exec, s, files, n - 1, end);
      }
    }
  }

  lemma RunLedHere<D(!new)>(exec: Engine<D>, s: State<D>, files: seq<File>, n: nat, end: D)
    requires n < |files| && EndsIn(exec, s, files, n + 1, end)
    ensures AllEmbedded(files[..n + 1], s.versions)
    ensures Leads(exec, s.db, NewStatements(files[..n], s.versions) + OwnStatements(files[n], n + 1, s.versions), end)
    decreases n, 1
  {
    var mid := UpTo(exec, s, files, n).state;
    RunLeads(exec, s, files, n, mid.db);
    UpRecords(exec, s, files, n);
    LastFileLeads(exec, s, mid, files[n], n + 1, end);
    var before, own := NewStatements(files[..n], s.versions), OwnStatements(files[n], n + 1, s.versions);
    LeadsJoin(exec, s.db, before, mid.db, own, end);
    EmbeddedOneMore(files, s.versions, n);
  }

  lemma LeadIsRun<D(!new)>(exec: Engine<D>, s: State<D>, files: seq<File>, n: nat, end: D)
    requires n < |files| && AllEmbedded(files[..n + 1], s.versions)
    requires Leads(exec, s.db, NewStatements(files[..n], s.versions) + OwnStatements(files[n], n + 1, s.versions), end)
    ensures EndsIn(exec, s, files, n + 1, end)
    decreases n, 1
  {
    EmbeddedOneMore(files, s.versions, n);
    var before, own := NewStatements(files[..n], s.versions), OwnStatements(files[n], n + 1, s.versions);
    var mid := LeadsThrough(exec, s.db, before, own, end);
    RunLeads(exec, s, files, n, mid);
    UpRecords(exec, s, files, n);
    LastFileIsReached(exec, s, UpTo(exec, s, files, n).state, files[n], n + 1, end);
  }

  lemma EmbeddedOneMore(files: seq<File>, versions: set<nat>, n: nat)
    requires n < |files|
    ensures AllEmbedded(files[..n + 1], versions) <==>
            AllEmbedded(files[..n], versions) && (n + 1 !in versions ==> files[n].Some?)
  {
    assert files[..n + 1][n] == files[n];
    assert forall i :: 0 <= i < n ==> files[..n][i] == files[..n + 1][i];
  }

  lemma StatementsOneMore(front: seq<File>, last: File, versions: set<nat>)
    ensures NewStatements(front + [last], versions) ==
            NewStatements(front, versions) + OwnStatements(last, |front| + 1, versions)
  {
    assert (front + [last])[..|front|] == front;
  }

  lemma LastFileLeads<D(!new)>(exec: Engine<D>, s: State<D>, mid: State<D>, last: File, n: nat, end: D)
    requires n in mid.versions <==> n in s.versions
    requires ApplyFile(exec, mid, last, n).Done? && ApplyFile(exec, mid, last, n).state.db == end
    ensures Leads(exec, mid.db, OwnStatements(last, n, s.versions), end) && (n !in s.versions ==> last.Some?)
  {
    if n in s.versions {
      LeadsNowhere(exec, mid.db);
    } else {
      BodyLeads(exec, mid.db, last.value, end);
    }
  }

  lemma LastFileIsReached<D(!new)>(exec: Engine<D>, s: State<D>, mid: State<D>, last: File, n: nat, end: D)
    requires (n in mid.versions <==> n in s.versions) && (n !in s.versions ==> last.Some?)
    requires Leads(exec, mid.db, OwnStatements(last, n, s.versions), end)
    ensures ApplyFile(exec, mid, last, n).Done? && ApplyFile(exec, mid, last, n).state.db == end
  {
    if n in s.versions {
      LeadsNowhere(exec, mid.db);
      LeadsToOne(exec, mid.db, [], mid.db, end);
    } else {
      BodyLeads(exec, mid.db, last.value, end);
    }
  }

  // An upgrade succeeds exactly when every new file is embedded and there is a chain
  // of databases along which the engine accepts each of their statements in order.
  // It ends in the last of the chain with the numbers of the files recorded; a
  // refused statement leaves database and version table as they were.
  lemma UpgradeFollowsTheStatements<D(!new)>(exec: Engine<D>, s: State<D>, files: seq<File>)
    ensures Succeeds(exec, s, files) <==>
              && AllEmbedded(files, s.versions)
              && exists end :: Leads(exec, s.db, NewStatements(files, s.versions), end)
    ensures Succeeds(exec, s, files) ==>
              var t := After(exec, s, files);
              && Leads(exec, s.db, NewStatements(files, s.versions), t.db)
              && forall v: nat :: v in t.versions <==> v in s.versions || 1 <= v <= |files|
    ensures !Succeeds(exec, s, files) ==> After(exec, s, files) == s
  {
    assert files[..|files|] == files;
    if Succeeds(exec, s, files) {
      RunLeads(exec, s, files, |files|, Upgraded(exec, s, files).state.db);
      UpRecords(exec, s, files, |files|);
    }
    if AllEmbedded(files, s.versions) && exists end :: Leads(exec, s.db, NewStatements(files, s.versions), end) {
      var end :| Leads(exec, s.db, NewStatements(files, s.versions), end);
      RunLeads(exec, s, files, |files|, end);
    }
  }

  ghost predicate Refused<D(!new)>(exec: Engine<D>, db: D, statements: seq<string>) {
    forall end :: !Leads(exec, db, statements, end)
  }

  lemma BodyRefused<D(!new)>(exec: Engine<D>, db: D, text: string)
    requires ApplyBody(exec, db, text).None?
    ensures Refused(exec, db, Statements(text))
  {
    var statements := Statements(text);
    forall end ensures !Leads(exec, db, statements, end) {
      BodyLeads(exec, db, text, end);
    }
  }

  // A file the runner finds bad is the first new one that is missing or refused.
  lemma FailureNamesTheFirst<D(!new)>(exec: Engine<D>, s: State<D>, files: seq<File>, n: nat)
    requires 1 <= n <= |files| && UpTo(exec, s, files, n - 1).Done? && UpTo(exec, s, files, n).Failed?
    ensures Upgraded(exec, s, files) == Failed(n)
    ensures n !in s.versions
    ensures files[n - 1].None? || Refused(exec, UpTo(exec, s, files, n - 1).state.db, Statements(files[n - 1].value))
  {
    StaysFailed(exec, s, files, n, |files|);
    UpRecords(exec, s, files, n - 1);
    if files[n - 1].Some? {
      BodyRefused(exec, UpTo(exec, s, files, n - 1).state.db, files[n - 1].value);
    }
  }
}
