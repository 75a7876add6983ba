/** Applying a directory of migration files in name order, with a failure possible at every call. */
module Migrations {
  import opened Names

  datatype DirEntry = DirEntry(name: string, isDir: bool)

  /** How the database and the file system treat one file in one run. */
  datatype Outcome = Fine | LookupFails | ReadFails | ExecFails | RecordFails

  /** `recorded` is the schema_migrations table; `executed` lists the files whose contents have been given to
      the database, which may have failed part of the way through one. */
  datatype Log = Log(recorded: seq<string>, executed: seq<string>)

  predicate IsMigration(e: DirEntry) {
    !e.isDir && |e.name| >= 4 && e.name[|e.name| - 4..] == ".sql"
  }

  function SqlFiles(entries: seq<DirEntry>): seq<string> {
    if entries == [] then []
    else (if IsMigration(entries[0]) then [entries[0].name] else []) + SqlFiles(entries[1..])
  }

  /** The name of a file of the directory that ends in ".sql". */
  ghost predicate IsFile(entries: seq<DirEntry>, name: string) {
    && (exists e :: e in entries && e.name == name && !e.isDir)
    && (exists stem: string :: name == stem + ".sql")
  }

  lemma {:induction false} SqlFilesAre(entries: seq<DirEntry>, name: string)
    ensures name in SqlFiles(entries) <==> exists e :: e in entries && IsMigration(e) && e.name == name
  {
    if entries != [] {
      SqlFilesAre(entries[1..], name);
    }
  }

  lemma FilesIff(entries: seq<DirEntry>, name: string)
    ensures name in SqlFiles(entries) <==> IsFile(entries, name)
  {
    SqlFilesAre(entries, name);
    if |name| >= 4 && name[|name| - 4..] == ".sql" {
      assert name == name[..|name| - 4] + ".sql";
    }
    forall stem: string | name == stem + ".sql" ensures |name| >= 4 && name[|name| - 4..] == ".sql" {
      assert (stem + ".sql")[|stem|..] == ".sql";
    }
  }

  ghost predicate NamesDiffer(entries: seq<DirEntry>) {
    forall i, j :: 0 <= i < j < |entries| ==> entries[i].name != entries[j].name
  }

  lemma {:induction false} FilesDistinct(entries: seq<DirEntry>)
    requires NamesDiffer(entries)
    ensures Distinct(SqlFiles(entries))
  {
    if entries != [] {
      assert forall i :: 0 <= i < |entries[1..]| ==> entries[1..][i] == entries[i + 1];
      FilesDistinct(entries[1..]);
      SqlFilesAre(entries[1..], entries[0].name);
    }
  }

  // ---------- one run ----------

  datatype Result = Result(log: Log, ok: bool)

  function ApplyFiles(files: seq<string>, log: Log, outcome: string -> Outcome): Result
    decreases |files|
  {
    if files == [] then Result(log, true)
    else
      var file := files[0];
      var o := outcome(file);
      if o.LookupFails? then Result(log, false)
      else if file in log.recorded then ApplyFiles(files[1..], log, outcome)
      else if o.ReadFails? then Result(log, false)
      else
        var executed := log.executed + [file];
        if o.ExecFails? || o.RecordFails? then Result(Log(log.recorded, executed), false)
        else ApplyFiles(files[1..], Log(log.recorded + [file], executed), outcome)
  }

  /** The files a run has still to apply, in order. */
  function Pending(files: seq<string>, recorded: seq<string>): seq<string> {
    if files == [] then []
    else (if files[0] in recorded then [] else [files[0]]) + Pending(files[1..], recorded)
  }

  lemma {:induction false} PendingAfter(files: seq<string>, recorded: seq<string>, done: string)
    requires done !in files
    ensures Pending(files, recorded + [done]) == Pending(files, recorded)
  {
    if files != [] {
      PendingAfter(files[1..], recorded, done);
    }
  }

  /** The run got `k` pending files recorded, and executed them, and possibly the one that failed. */
  ghost predicate Progressed(log: Log, r: Result, pending: seq<string>, k: nat) {
    && k <= |pending|
    && r.log.recorded == log.recorded + pending[..k]
    && (r.log.executed == log.executed + pending[..k]
        || (!r.ok && k < |pending| && r.log.executed == log.executed + pending[..k + 1]))
    && (r.ok ==> k == |pending|)
  }

  lemma PrefixCons(x: string, rest: seq<string>, k: nat, before: seq<string>)
    requires k <= |rest|
    ensures before + [x] + rest[..k] == before + ([x] + rest)[..k + 1]
  {
  }

  lemma ProgressCons(log: Log, x: string, r: Result, rest: seq<string>, j: nat)
    requires Progressed(Log(log.recorded + [x], log.executed + [x]), r, rest, j)
    ensures Progressed(log, r, [x] + rest, j + 1)
  {
    PrefixCons(x, rest, j, log.recorded);
    PrefixCons(x, rest, j, log.executed);
    if j < |rest| {
      PrefixCons(x, rest, j + 1, log.executed);
    }
  }

  /** A run records and executes the pending files in order up to its first failure, each once, and all of
      them when it succeeds; at most the one file whose execution or recording failed is executed, in part or
      in whole, without being recorded. */
  lemma {:induction false} RunAppliesPending(files: seq<string>, log: Log, outcome: string -> Outcome) returns (k: nat)
    requires Distinct(files)
    ensures Progressed(log, ApplyFiles(files, log, outcome), Pending(files, log.recorded), k)
    decreases |files|
  {
    var r, pending := ApplyFiles(files, log, outcome), Pending(files, log.recorded);
    k := 0;
    assert log.recorded + pending[..0] == log.recorded && log.executed + pending[..0] == log.executed;
    if files != [] && !outcome(files[0]).LookupFails? {
      assert forall i :: 0 <= i < |files[1..]| ==> files[1..][i] == files[i + 1];
      var rest := Pending(files[1..], log.recorded);
      if files[0] in log.recorded {
        k := RunAppliesPending(files[1..], log, outcome);
        assert pending == rest;
      } else if outcome(files[0]).ExecFails? || outcome(files[0]).RecordFails? {
        assert pending[..1] == [files[0]];
      } else if outcome(files[0]).Fine? {
        var next := Log(log.recorded + [files[0]], log.executed + [files[0]]);
        var j := RunAppliesPending(files[1..], next, outcome);
        PendingAfter(files[1..], log.recorded, files[0]);
        ProgressCons(log, files[0], r, rest, j);
        k := j + 1;
      }
    }
  }

  /** A run succeeds exactly when it can look every file up, and read, execute and record every pending one. */
  lemma {:induction false} RunOkIff(files: seq<string>, log: Log, outcome: string -> Outcome)
    requires Distinct(files)
    ensures ApplyFiles(files, log, outcome).ok
      <==> forall file :: file in files ==>
        outcome(file) != LookupFails && (file !in log.recorded ==> outcome(file) == Fine)
    decreases |files|
  {
    if files != [] {
      var rest := files[1..];
      assert forall i :: 0 <= i < |rest| ==> rest[i] == files[i + 1];
      assert files[0] !in rest && forall file :: file in files <==> file == files[0] || file in rest;
      RunOkIff(rest, log, outcome);
      RunOkIff(rest, Log(log.recorded + [files[0]], log.executed + [files[0]]), outcome);
    }
  }

  // ---------- series of runs ----------

  /** Several runs over the same directory, each with failures of its own. */
  function ApplySeries(files: seq<string>, log: Log, outcomes: seq<string -> Outcome>): Log
    decreases |outcomes|
  {
    if outcomes == [] then log else ApplySeries(files, ApplyFiles(files, log, outcomes[0]).log, outcomes[1..])
  }

  lemma {:induction false} PendingAll(files: seq<string>, recorded: seq<string>, n: nat)
    requires Distinct(files) && n <= |files|
    requires forall i :: 0 <= i < |files| ==> (files[i] in recorded <==> i < n)
    ensures Pending(files, recorded) == files[n..]
    decreases |files|
  {
    if files != [] {
      var rest := files[1..];
      assert forall i :: 0 <= i < |rest| ==> rest[i] == files[i + 1];
      PendingAll(rest, recorded, if n == 0 then 0 else n - 1);
    }
  }

  lemma RunFromPrefix(files: seq<string>, log: Log, n: nat, outcome: string -> Outcome) returns (k: nat)
    requires Distinct(files) && n <= |files| && log.recorded == files[..n]
    ensures n + k <= |files| && ApplyFiles(files, log, outcome).log.recorded == files[..n + k]
    ensures Progressed(log, ApplyFiles(files, log, outcome), files[n..], k)
  {
    assert forall i :: 0 <= i < |files| ==> (files[i] in files[..n] <==> i < n);
    PendingAll(files, log.recorded, n);
    k := RunAppliesPending(files, log, outcome);
    assert files[..n] + files[n..][..k] == files[..n + k];
  }

  /** From an empty table, the recorded versions are at every point a prefix of the directory in ascending
      order, however many runs failed and wherever. */
  lemma {:induction false} RecordedIsPrefix(files: seq<string>, log: Log, n: nat, outcomes: seq<string -> Outcome>)
      returns (m: nat)
    requires Distinct(files) && n <= |files| && log.recorded == files[..n]
    ensures n <= m <= |files| && ApplySeries(files, log, outcomes).recorded == files[..m]
    decreases |outcomes|
  {
    m := n;
    if outcomes != [] {
      var k := RunFromPrefix(files, log, n, outcomes[0]);
      m := RecordedIsPrefix(files, ApplyFiles(files, log, outcomes[0]).log, n + k, outcomes[1..]);
    }
  }

  /** Any series of runs that ends with a successful one records the whole directory in ascending order,
      and a further run, failing or not, executes and records nothing. */
  lemma SeriesConverges(entries: seq<DirEntry>, outcomes: seq<string -> Outcome>, last: string -> Outcome,
      extra: string -> Outcome)
    requires NamesDiffer(entries)
    requires var files := SortNames(SqlFiles(entries));
      ApplyFiles(files, ApplySeries(files, Log([], []), outcomes), last).ok
    ensures var files := SortNames(SqlFiles(entries));
      var log := ApplyFiles(files, ApplySeries(files, Log([], []), outcomes), last).log;
      && log.recorded == files && Ascending(files) && (forall x :: x in files <==> IsFile(entries, x))
      && ApplyFiles(files, log, extra).log == log
  {
    var files := SortNames(SqlFiles(entries));
    FilesDistinct(entries);
    SortAscending(SqlFiles(entries));
    AscendingDistinct(files);
    forall x ensures x in files <==> IsFile(entries, x) {
      FilesIff(entries, x);
    }
    hide SqlFiles, IsFile;
    var before := ApplySeries(files, Log([], []), outcomes);
    var n := RecordedIsPrefix(files, Log([], []), 0, outcomes);
    var k := RunFromPrefix(files, before, n, last);
    var log := ApplyFiles(files, before, last).log;
    assert log.recorded == files[..|files|] == files;
    var j := RunFromPrefix(files, log, |files|, extra);
    assert files[|files|..] == [];
  }
}
