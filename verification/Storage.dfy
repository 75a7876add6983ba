/** The store: the code's functions over its tables, with every database call able to fail. A transaction
    works on copies of the tables and puts them back at Commit; returning early is the rollback. */
module Storage {
  import opened Wrappers
  import opened Text
  import Tokens
  import Reservations
  import Rollups
  import Migrations
  import Names

  datatype DomainRow = DomainRow(tunnelID: string, status: string)

  type Domains = map<string, DomainRow>

  /** Adds or overwrites a domain's row under its normalised name; refused by the foreign key. */
  function PutDomain(tunnels: set<string>, domains: Domains, domain: string, row: DomainRow): Option<Domains> {
    var key := Key(domain);
    if key == "" || row.tunnelID !in tunnels then None
    else Some(domains[key := if row.status == "" then row.(status := "pending") else row])
  }

  function FindDomain(domains: Domains, domain: string): Option<DomainRow> {
    var key := Key(domain);
    if key != "" && key in domains then Some(domains[key]) else None
  }

  class Store {
    const hash: Tokens.Hash
    var tokens: Tokens.Table
    var tables: Reservations.Tables
    var rollup: Rollups.Rollup
    var domains: Domains
    var migrations: Migrations.Log
    var faults: seq<bool>  // which of the coming database calls fail; after them none does

    constructor (hash: Tokens.Hash, faults: seq<bool>)
      ensures this.hash == hash && this.faults == faults && tokens == [] && rollup == map[] && domains == map[]
      ensures tables == Reservations.Tables(map[], map[], []) && migrations == Migrations.Log([], [])
    {
      this.hash, this.faults := hash, faults;
      tokens, rollup, domains := [], map[], map[];
      tables, migrations := Reservations.Tables(map[], map[], []), Migrations.Log([], []);
    }

    ghost predicate Healthy()
      reads this
    {
      forall i :: 0 <= i < |faults| ==> !faults[i]
    }

    method Reach() returns (ok: bool)
      modifies this`faults
      ensures old(Healthy()) ==> ok && Healthy()
    {
      ok := faults == [] || !faults[0];
      faults := if faults == [] then [] else faults[1..];
    }

    // ---------- tokens ----------

    method HasActiveToken() returns (ok: bool, active: bool)
      modifies this`faults
      ensures ok ==> (active <==> Tokens.HasActive(tokens))
      ensures old(Healthy()) ==> ok && Healthy()
    {
      ok := Reach();
      active := Tokens.HasActive(tokens);
    }

    method ValidateToken(raw: string) returns (ok: bool, valid: bool)
      modifies this`faults
      ensures ok ==> (valid <==> Tokens.Validate(hash, tokens, raw))
      ensures old(Healthy()) ==> ok && Healthy()
    {
      if TrimSpace(raw) == "" {
        return true, false;
      }
      ok := Reach();
      valid := Tokens.Validate(hash, tokens, raw);
    }

    method InsertToken(raw: string) returns (ok: bool)
      modifies this`tokens, this`faults
      ensures ok ==> Tokens.Inserted(hash, old(tokens), raw) == Some(tokens)
      ensures !ok ==> tokens == old(tokens)
      ensures old(Healthy()) ==> Healthy() && (ok <==> Tokens.Inserted(hash, old(tokens), raw).Some?)
    {
      var trimmed := TrimSpace(raw);
      if trimmed == "" {
        return false;
      }
      ok := Reach();
      var inserted := Tokens.AddRow(tokens, hash(trimmed));
      if !ok || inserted.None? {
        return false;
      }
      tokens := inserted.value;
    }

    method EnsureToken(raw: string) returns (ok: bool)
      modifies this`tokens, this`faults
      ensures ok ==> Tokens.Ensured(hash, old(tokens), raw) == Some(tokens)
      ensures !ok ==> tokens == old(tokens)
      ensures old(Healthy()) ==> Healthy() && (ok <==> Tokens.Ensured(hash, old(tokens), raw).Some?)
    {
      var active;
      ok, active := HasActiveToken();
      if !ok || active {
        return;
      }
      if TrimSpace(raw) == "" {
        return false;
      }
      ok := InsertToken(raw);
    }

    method RotateToken(raw: string) returns (ok: bool)
      modifies this`tokens, this`faults
      ensures ok ==> Tokens.Rotated(hash, old(tokens), raw) == Some(tokens)
      ensures !ok ==> tokens == old(tokens)
      ensures old(Healthy()) ==> Healthy() && (ok <==> Tokens.Rotated(hash, old(tokens), raw).Some?)
    {
      var trimmed := TrimSpace(raw);
      if trimmed == "" {
        return false;
      }
      ok := Reach();  // Begin
      if !ok {
        return;
      }
      var tx := tokens;
      ok := Reach();
      if !ok {
        return;
      }
      tx := Tokens.RevokeAll(tx);
      ok := Reach();
      var inserted := Tokens.AddRow(tx, hash(trimmed));
      if !ok || inserted.None? {
        return false;
      }
      tx := inserted.value;
      ok := Reach();  // Commit
      if ok {
        tokens := tx;
      }
    }

    // ---------- reservations ----------

    method UpsertHTTPReservation(res: Reservations.Reservation) returns (ok: bool)
      modifies this`tables, this`faults
      ensures ok ==> Reservations.Reserve(old(tables), res) == Some(tables)
      ensures !ok ==> tables == old(tables)
      ensures old(Healthy()) ==> Healthy() && (ok <==> Reservations.Reserve(old(tables), res).Some?)
    {
      if res.subdomain == "" {
        return false;
      }
      ok := Reach();  // Begin
      if !ok {
        return;
      }
      ok := Reach();
      var put := Reservations.PutSubdomain(tables, res.subdomain, res.tunnelID);
      if !ok || put.None? {
        return false;
      }
      var tx := put.value;
      if res.tunnelID != "" {
        ok := Reach();
        if !ok {
          return;
        }
        tx := Reservations.ClearAllow(tx, res.tunnelID);
        var i := 0;
        while i < |res.allowlist|
          invariant 0 <= i <= |res.allowlist| && ok && tables == old(tables)
          invariant Reservations.PutAllows(tx, res.tunnelID, res.allowlist[i..])
            == Reservations.Reserve(old(tables), res)
          invariant old(Healthy()) ==> Healthy()
        {
          ok := Reach();
          var cidr := res.allowlist[i];
          assert res.allowlist[i..][0] == cidr && res.allowlist[i..][1..] == res.allowlist[i + 1..];
          put := Reservations.PutAllow(tx, res.tunnelID, cidr);
          if !ok || put.None? {
            return false;
          }
          tx := put.value;
          i := i + 1;
        }
      }
      ok := Reach();  // Commit
      if ok {
        tables := tx;
      }
    }

    method QueryReservations() returns (ok: bool, rows: seq<Reservations.QueryRow>)
      modifies this`faults
      ensures ok ==> Reservations.Answers(rows, tables)
      ensures old(Healthy()) ==> ok && Healthy()
    {
      ok := Reach();
      rows := [];
      if !ok {
        return;
      }
      var names, todo := [], tables.subdomains.Keys;
      while todo != {}
        invariant todo <= tables.subdomains.Keys && Names.Distinct(names)
        invariant forall s :: s in names <==> s in tables.subdomains && s !in todo
        decreases todo
      {
        var s :| s in todo;
        names, todo := names + [s], todo - {s};
      }
      Names.SortAscending(names);
      names := Names.SortNames(names);
      for n := 0 to |names|
        invariant |rows| == n
        invariant forall i :: 0 <= i < n ==> rows[i].subdomain == names[i] && Reservations.IsRow(rows[i], tables)
      {
        assert names[n] in names;
        var tunnelID := tables.subdomains[names[n]];
        rows := rows + [Reservations.QueryRow(names[n], tunnelID, Reservations.Allowlist(tables.allow, tunnelID))];
      }
    }

    method ListHTTPReservations() returns (ok: bool, results: seq<Reservations.Reservation>)
      modifies this`faults
      ensures ok ==> exists rows :: Reservations.Answers(rows, tables) && Reservations.ListedFrom(results, rows)
      ensures old(Healthy()) ==> ok && Healthy()
    {
      results := [];
      var rows;
      ok, rows := QueryReservations();
      if !ok {
        return;
      }
      hide Reservations.Answers, Reservations.ListedFrom, Reservations.Join, Reservations.Split;
      assert Reservations.ListedFrom(results, rows[..0]) by {
        Reservations.ListedNone();
      }
      for n := 0 to |rows|
        invariant ok
        invariant old(Healthy()) ==> Healthy()
        invariant Reservations.ListedFrom(results, rows[..n])
      {
        ok := Reach();
        if !ok {
          return;
        }
        var allowlist := Reservations.Join(rows[n].values);
        var allowlistValues := [];
        if allowlist != "" {
          allowlistValues := Reservations.Split(allowlist);
        }
        Reservations.ListedNext(results, rows, n);
        results := results + [Reservations.Reservation(rows[n].tunnelID, rows[n].subdomain, allowlistValues)];
      }
      assert rows[..|rows|] == rows;
    }

    method UpsertTunnel(id: string, row: Reservations.TunnelRow) returns (ok: bool)
      modifies this`tables, this`faults
      ensures ok ==> id != "" && row.protocol != ""
      ensures ok ==>
        tables == Reservations.PutTunnel(old(tables), id, if row.status == "" then row.(status := "active") else row)
      ensures !ok ==> tables == old(tables)
      ensures old(Healthy()) ==> Healthy() && (ok <==> id != "" && row.protocol != "")
    {
      if id == "" || row.protocol == "" {
        return false;
      }
      ok := Reach();
      if ok {
        tables := Reservations.PutTunnel(tables, id, if row.status == "" then row.(status := "active") else row);
      }
    }

    // ---------- metrics ----------

    /** The time is the one given, or the clock's if none is; both are in seconds. */
    method AddMetric(tunnelID: string, ts: Option<int>, now: int, delta: Rollups.Counters) returns (ok: bool)
      modifies this`rollup, this`faults
      ensures var call := Rollups.Call(tunnelID, if ts.Some? then ts.value else now, delta, !ok);
        rollup == Rollups.Apply(tables.tunnels.Keys, old(rollup), call)
      ensures ok ==> tunnelID == "" || tunnelID in tables.tunnels
      ensures old(Healthy()) ==> Healthy() && (ok <==> tunnelID == "" || tunnelID in tables.tunnels)
    {
      if tunnelID == "" {
        return true;
      }
      var unix := if ts.Some? then ts.value else now;
      ok := Reach();
      var put := Rollups.Upsert(tables.tunnels.Keys, rollup, Rollups.Key(tunnelID, Rollups.MinuteBucket(unix)), delta);
      if !ok || put.None? {
        return false;
      }
      rollup := put.value;
    }

    // ---------- custom domains ----------

    method UpsertCustomDomain(domain: string, row: DomainRow) returns (ok: bool)
      modifies this`domains, this`faults
      ensures ok ==> PutDomain(tables.tunnels.Keys, old(domains), domain, row) == Some(domains)
      ensures !ok ==> domains == old(domains)
      ensures old(Healthy()) ==> Healthy() && (ok <==> PutDomain(tables.tunnels.Keys, old(domains), domain, row).Some?)
    {
      if Key(domain) == "" {
        return false;
      }
      ok := Reach();
      var put := PutDomain(tables.tunnels.Keys, domains, domain, row);
      if !ok || put.None? {
        return false;
      }
      domains := put.value;
    }

    method GetCustomDomain(domain: string) returns (ok: bool, row: Option<DomainRow>)
      modifies this`faults
      ensures ok ==> row == FindDomain(domains, domain)
      ensures old(Healthy()) ==> ok && Healthy()
    {
      var cleanDomain := Key(domain);
      if cleanDomain == "" {
        return true, None;
      }
      ok := Reach();
      row := if cleanDomain in domains then Some(domains[cleanDomain]) else None;
    }

    // ---------- migrations ----------

    method FindMigrations(entries: seq<Migrations.DirEntry>) returns (files: seq<string>)
      ensures files == Migrations.SqlFiles(entries)
    {
      files := [];
      for n := 0 to |entries|
        invariant Migrations.SqlFiles(entries) == files + Migrations.SqlFiles(entries[n..])
      {
        assert entries[n..][0] == entries[n] && entries[n..][1..] == entries[n + 1..];
        if Migrations.IsMigration(entries[n]) {
          files := files + [entries[n].name];
        }
      }
    }

    /** `ready` is whether the directory is named and can be read and the version table can be made;
        `outcome` says how the database and the file system treat each file in this run. */
    method ApplyMigrations(ready: bool, entries: seq<Migrations.DirEntry>, outcome: string -> Migrations.Outcome)
        returns (ok: bool)
      modifies this`migrations
      ensures !ready ==> !ok && migrations == old(migrations)
      ensures ready ==> var files := Names.SortNames(Migrations.SqlFiles(entries));
        Migrations.Result(migrations, ok) == Migrations.ApplyFiles(files, old(migrations), outcome)
    {
      hide Migrations.SqlFiles, Names.SortNames;
      if !ready {
        return false;
      }
      var files := FindMigrations(entries);
      files := Names.SortNames(files);
      ghost var all := Migrations.ApplyFiles(files, migrations, outcome);
      var i := 0;
      while i < |files|
        invariant 0 <= i <= |files|
        invariant Migrations.ApplyFiles(files[i..], migrations, outcome) == all
      {
        var file := files[i];
        assert files[i..][0] == file && files[i..][1..] == files[i + 1..];
        var o := outcome(file);
        i := i + 1;
        if o.LookupFails? {
          return false;
        }
        if file in migrations.recorded {
          continue;
        }
        if o.ReadFails? {
          return false;
        }
        migrations := migrations.(executed := migrations.executed + [file]);
        if o.ExecFails? || o.RecordFails? {
          return false;
        }
        migrations := migrations.(recorded := migrations.recorded + [file]);
      }
      return true;
    }
  }
}
