/** Tunnels, subdomain reservations and allowlists as tables with UNIQUE and foreign-key constraints,
    checked statement by statement. */
module Reservations {
  import opened Wrappers
  import opened Names

  datatype TunnelRow = TunnelRow(protocol: string, localHost: string, localPort: int, status: string)

  datatype AllowRow = AllowRow(tunnelID: string, cidr: string)

  datatype Tables = Tables(tunnels: map<string, TunnelRow>, subdomains: map<string, string>, allow: seq<AllowRow>)

  datatype Reservation = Reservation(tunnelID: string, subdomain: string, allowlist: seq<string>)

  // ---------- statements ----------

  /** Adds or overwrites a subdomain's row; refused by the foreign key. */
  function PutSubdomain(t: Tables, subdomain: string, tunnelID: string): Option<Tables> {
    if tunnelID !in t.tunnels then None else Some(t.(subdomains := t.subdomains[subdomain := tunnelID]))
  }

  function RowsWithout(rows: seq<AllowRow>, tunnelID: string): (r: seq<AllowRow>)
    ensures forall row :: row in r <==> row in rows && row.tunnelID != tunnelID
  {
    if rows == [] then []
    else (if rows[0].tunnelID == tunnelID then [] else [rows[0]]) + RowsWithout(rows[1..], tunnelID)
  }

  /** Deletes the tunnel's allowlist rows. */
  function ClearAllow(t: Tables, tunnelID: string): Tables {
    t.(allow := RowsWithout(t.allow, tunnelID))
  }

  /** Adds an allowlist row; refused if the tunnel has it already, or by the foreign key. */
  function PutAllow(t: Tables, tunnelID: string, cidr: string): Option<Tables> {
    if tunnelID !in t.tunnels || AllowRow(tunnelID, cidr) in t.allow then None
    else Some(t.(allow := t.allow + [AllowRow(tunnelID, cidr)]))
  }

  function PutAllows(t: Tables, tunnelID: string, cidrs: seq<string>): Option<Tables>
    decreases |cidrs|
  {
    if cidrs == [] then Some(t)
    else match PutAllow(t, tunnelID, cidrs[0])
      case None => None
      case Some(u) => PutAllows(u, tunnelID, cidrs[1..])
  }

  /** Adds or overwrites a tunnel's row. */
  function PutTunnel(t: Tables, id: string, row: TunnelRow): Tables {
    t.(tunnels := t.tunnels[id := row])
  }

  // ---------- the transaction ----------

  /** UpsertHTTPReservation when no database call fails: the new tables, or None when it rolls back. */
  function Reserve(t: Tables, res: Reservation): Option<Tables> {
    if res.subdomain == "" then None
    else match PutSubdomain(t, res.subdomain, res.tunnelID)
      case None => None
      case Some(u) =>
        if res.tunnelID == "" then Some(u) else PutAllows(ClearAllow(u, res.tunnelID), res.tunnelID, res.allowlist)
  }

  /** A tunnel's allowlist, in insertion order. */
  function Allowlist(rows: seq<AllowRow>, tunnelID: string): seq<string> {
    if rows == [] then []
    else (if rows[0].tunnelID == tunnelID then [rows[0].cidr] else []) + Allowlist(rows[1..], tunnelID)
  }

  ghost predicate NoDuplicates<T>(items: seq<T>) {
    forall i, j :: 0 <= i < j < |items| ==> items[i] != items[j]
  }

  lemma {:induction false} AllowlistSnoc(rows: seq<AllowRow>, row: AllowRow, tunnelID: string)
    ensures Allowlist(rows + [row], tunnelID)
      == Allowlist(rows, tunnelID) + (if row.tunnelID == tunnelID then [row.cidr] else [])
  {
    if rows == [] {
      assert [row][1..] == [];
    } else {
      assert (rows + [row])[1..] == rows[1..] + [row];
      AllowlistSnoc(rows[1..], row, tunnelID);
    }
  }

  lemma {:induction false} AllowlistWithout(rows: seq<AllowRow>, tunnelID: string, other: string)
    ensures Allowlist(RowsWithout(rows, tunnelID), other) == if other == tunnelID then [] else Allowlist(rows, other)
  {
    if rows != [] {
      AllowlistWithout(rows[1..], tunnelID, other);
      var rest := RowsWithout(rows[1..], tunnelID);
      assert ([rows[0]] + rest)[1..] == rest;
      assert [] + rest == rest;
    }
  }

  lemma {:induction false} AllowlistHas(rows: seq<AllowRow>, tunnelID: string, cidr: string)
    ensures AllowRow(tunnelID, cidr) in rows <==> cidr in Allowlist(rows, tunnelID)
  {
    if rows != [] {
      AllowlistHas(rows[1..], tunnelID, cidr);
    }
  }

  lemma NoDuplicatesCons<T>(items: seq<T>)
    requires items != []
    ensures NoDuplicates(items) <==> NoDuplicates(items[1..]) && items[0] !in items[1..]
  {
    var rest := items[1..];
    assert forall i :: 0 <= i < |rest| ==> rest[i] == items[i + 1];
    if NoDuplicates(rest) && items[0] !in rest {
      forall i, j | 0 <= i < j < |items| ensures items[i] != items[j] {
        assert items[j] == rest[j - 1];
        if i > 0 {
          assert items[i] == rest[i - 1];
        }
      }
    }
  }

  /** Inserting a list goes through exactly when nothing in it repeats or is there already. */
  lemma {:induction false} PutAllowsIff(t: Tables, tunnelID: string, cidrs: seq<string>, other: string)
    requires tunnelID in t.tunnels
    ensures PutAllows(t, tunnelID, cidrs).Some?
      <==> NoDuplicates(cidrs) && forall c :: c in cidrs ==> AllowRow(tunnelID, c) !in t.allow
    ensures PutAllows(t, tunnelID, cidrs).Some? ==> var u := PutAllows(t, tunnelID, cidrs).value;
      && u.tunnels == t.tunnels && u.subdomains == t.subdomains
      && Allowlist(u.allow, tunnelID) == Allowlist(t.allow, tunnelID) + cidrs
      && (other != tunnelID ==> Allowlist(u.allow, other) == Allowlist(t.allow, other))
    decreases |cidrs|
  {
    if cidrs != [] {
      if PutAllow(t, tunnelID, cidrs[0]).Some? {
        var u := PutAllow(t, tunnelID, cidrs[0]).value;
        AllowlistSnoc(t.allow, AllowRow(tunnelID, cidrs[0]), tunnelID);
        AllowlistSnoc(t.allow, AllowRow(tunnelID, cidrs[0]), other);
        PutAllowsIff(u, tunnelID, cidrs[1..], other);
        assert cidrs == [cidrs[0]] + cidrs[1..];
        assert forall c :: c in cidrs <==> c == cidrs[0] || c in cidrs[1..];
        assert NoDuplicates(cidrs) <==> NoDuplicates(cidrs[1..]) && cidrs[0] !in cidrs[1..] by {
          NoDuplicatesCons(cidrs);
        }
      } else {
        assert cidrs[0] in cidrs;
      }
    }
  }

  /** A reservation goes through exactly when it names a subdomain, its tunnel row exists and, unless its
      tunnel id is empty, its allowlist has no repeats; then the tunnel's allowlist is exactly the one
      passed, and no other tunnel's changes. */
  lemma ReserveIff(t: Tables, res: Reservation, other: string)
    ensures Reserve(t, res).Some?
      <==> res.subdomain != "" && res.tunnelID in t.tunnels && (res.tunnelID != "" ==> NoDuplicates(res.allowlist))
    ensures Reserve(t, res).Some? ==> var u := Reserve(t, res).value;
      && u.tunnels == t.tunnels && u.subdomains == t.subdomains[res.subdomain := res.tunnelID]
      && (res.tunnelID != "" ==> Allowlist(u.allow, res.tunnelID) == res.allowlist)
      && (res.tunnelID == "" || other != res.tunnelID ==> Allowlist(u.allow, other) == Allowlist(t.allow, other))
  {
    if res.subdomain != "" && res.tunnelID in t.tunnels && res.tunnelID != "" {
      var u := PutSubdomain(t, res.subdomain, res.tunnelID).value;
      PutAllowsIff(ClearAllow(u, res.tunnelID), res.tunnelID, res.allowlist, other);
      AllowlistWithout(t.allow, res.tunnelID, res.tunnelID);
      AllowlistWithout(t.allow, res.tunnelID, other);
      assert [] + res.allowlist == res.allowlist;
    }
  }

  // ---------- registration order ----------

  /** The relay handler writes the reservation first and the tunnel row second, ignoring refusals. */
  function RegisterTunnel(t: Tables, res: Reservation, row: TunnelRow): Tables {
    var u := if Reserve(t, res).Some? then Reserve(t, res).value else t;
    if res.tunnelID == "" then u else PutTunnel(u, res.tunnelID, row)
  }

  /** So a tunnel's first registration never persists its reservation, and repeating it does, exactly when
      the allowlist has no repeats. */
  lemma FirstRegistrationIsLost(t: Tables, res: Reservation, row: TunnelRow)
    requires res.tunnelID != "" && res.tunnelID !in t.tunnels && res.subdomain != ""
    ensures var once := RegisterTunnel(t, res, row); var twice := RegisterTunnel(once, res, row);
      && once == t.(tunnels := t.tunnels[res.tunnelID := row])
      && (NoDuplicates(res.allowlist) ==>
        && twice.subdomains == t.subdomains[res.subdomain := res.tunnelID]
        && Allowlist(twice.allow, res.tunnelID) == res.allowlist)
      && (!NoDuplicates(res.allowlist) ==> twice == once)
  {
    var once := RegisterTunnel(t, res, row);
    ReserveIff(t, res, "");
    ReserveIff(once, res, "");
    assert once.tunnels[res.tunnelID := row] == once.tunnels;
  }

  ghost predicate Referential(t: Tables) {
    && (forall s :: s in t.subdomains ==> t.subdomains[s] in t.tunnels)
    && (forall row :: row in t.allow ==> row.tunnelID in t.tunnels)
    && NoDuplicates(t.allow)
  }

  lemma {:induction false} PutAllowsReferential(t: Tables, tunnelID: string, cidrs: seq<string>)
    requires Referential(t) && PutAllows(t, tunnelID, cidrs).Some?
    ensures Referential(PutAllows(t, tunnelID, cidrs).value)
    decreases |cidrs|
  {
    if cidrs != [] {
      PutAllowsReferential(PutAllow(t, tunnelID, cidrs[0]).value, tunnelID, cidrs[1..]);
    }
  }

  lemma {:induction false} WithoutDistinct(rows: seq<AllowRow>, tunnelID: string)
    requires NoDuplicates(rows)
    ensures NoDuplicates(RowsWithout(rows, tunnelID))
  {
    if rows != [] {
      NoDuplicatesCons(rows);
      hide NoDuplicates;
      WithoutDistinct(rows[1..], tunnelID);
      var r := RowsWithout(rows[1..], tunnelID);
      assert ([rows[0]] + r)[1..] == r && [] + r == r;
      NoDuplicatesCons([rows[0]] + r);
    }
  }

  /** Registration keeps every foreign key and the UNIQUE constraint satisfied, whatever is refused. */
  lemma RegisterReferential(t: Tables, res: Reservation, row: TunnelRow)
    requires Referential(t)
    ensures Referential(RegisterTunnel(t, res, row))
  {
    if Reserve(t, res).Some? {
      var u := PutSubdomain(t, res.subdomain, res.tunnelID).value;
      if res.tunnelID != "" {
        WithoutDistinct(u.allow, res.tunnelID);
        PutAllowsReferential(ClearAllow(u, res.tunnelID), res.tunnelID, res.allowlist);
      }
    }
  }

  // ---------- listing ----------

  predicate CommaFree(s: string) {
    ',' !in s
  }

  /** The database's concatenation with commas; of no values, the empty string. */
  function Join(values: seq<string>): string {
    if values == [] then "" else if |values| == 1 then values[0] else values[0] + "," + Join(values[1..])
  }

  /** strings.Split(s, ",") */
  function Split(s: string): (pieces: seq<string>)
    ensures |pieces| >= 1
  {
    if s == "" then [""]
    else
      var rest := Split(s[1..]);
      if s[0] == ',' then [""] + rest else [[s[0]] + rest[0]] + rest[1..]
  }

  /** The allowlist ListHTTPReservations returns for rows that SQLite concatenates in the order `values`. */
  function Listed(values: seq<string>): seq<string> {
    if Join(values) == "" then [] else Split(Join(values))
  }

  function Commas(s: string): nat {
    if s == "" then 0 else (if s[0] == ',' then 1 else 0) + Commas(s[1..])
  }

  lemma {:induction false} SplitCounts(s: string)
    ensures |Split(s)| == Commas(s) + 1
    ensures Commas(s) == 0 <==> CommaFree(s)
  {
    if s != "" {
      SplitCounts(s[1..]);
    }
  }

  lemma {:induction false} CommasConcat(a: string, b: string)
    ensures Commas(a + b) == Commas(a) + Commas(b)
  {
    if a == "" {
      assert a + b == b;
    } else {
      assert (a + b)[1..] == a[1..] + b;
      CommasConcat(a[1..], b);
    }
  }

  lemma {:induction false} SplitFirst(a: string, b: string)
    requires CommaFree(a)
    ensures Split(a + "," + b) == [a] + Split(b)
  {
    if a == "" {
      assert a + "," + b == "," + b && ("," + b)[1..] == b;
    } else {
      assert (a + "," + b)[1..] == a[1..] + "," + b;
      assert a[0] in a && a == [a[0]] + a[1..];
      SplitFirst(a[1..], b);
    }
  }

  lemma {:induction false} SplitWhole(a: string)
    requires CommaFree(a)
    ensures Split(a) == [a]
  {
    if a != "" {
      assert a[0] in a && a == [a[0]] + a[1..];
      SplitWhole(a[1..]);
    }
  }

  lemma {:induction false} SplitJoin(values: seq<string>)
    requires values != [] && forall v :: v in values ==> CommaFree(v)
    ensures Split(Join(values)) == values
  {
    if |values| == 1 {
      SplitWhole(values[0]);
    } else {
      SplitFirst(values[0], Join(values[1..]));
      SplitJoin(values[1..]);
    }
  }

  lemma {:induction false} JoinCommas(values: seq<string>)
    requires values != []
    ensures Commas(Join(values)) >= |values| - 1
    ensures (exists v :: v in values && !CommaFree(v)) ==> Commas(Join(values)) >= |values|
  {
    SplitCounts(values[0]);
    if |values| > 1 {
      CommasConcat(values[0] + ",", Join(values[1..]));
      CommasConcat(values[0], ",");
      JoinCommas(values[1..]);
    }
  }

  lemma SameLength(a: seq<string>, b: seq<string>)
    requires multiset(a) == multiset(b)
    ensures |a| == |b|
  {
    assert |multiset(a)| == |a| && |multiset(b)| == |b|;
  }

  lemma SingletonSame(a: seq<string>, b: seq<string>)
    requires multiset(a) == multiset(b)
    ensures a == [""] ==> b == [""]
  {
    SameLength(a, b);
    if a == [""] {
      assert b[0] in multiset(a);
    }
  }

  lemma SameLengthIf(a: seq<string>, b: seq<string>)
    ensures multiset(a) == multiset(b) ==> |a| == |b|
  {
    if multiset(a) == multiset(b) {
      SameLength(a, b);
    }
  }

  lemma JoinEmpty(values: seq<string>)
    ensures Join(values) == "" <==> values == [] || values == [""]
  {
  }

  /** Listing gives an allowlist back, up to order, exactly when no value contains a comma and it is not
      the single empty value. */
  lemma ListedIff(stored: seq<string>, values: seq<string>)
    requires multiset(values) == multiset(stored)
    ensures multiset(Listed(values)) == multiset(stored)
      <==> (forall v :: v in stored ==> CommaFree(v)) && stored != [""]
  {
    SameLength(values, stored);
    assert forall v :: v in stored <==> v in multiset(stored);
    assert forall v :: v in values <==> v in multiset(values);
    if values == [] {
      assert stored == [];
    } else {
      SplitCounts(Join(values));
      JoinCommas(values);
      if forall v :: v in values ==> CommaFree(v) {
        SplitJoin(values);
        JoinEmpty(values);
        SingletonSame(values, stored);
        SingletonSame(stored, values);
      } else {
        SameLengthIf(Listed(values), stored);
      }
    }
  }

  // ---------- the listing query ----------

  /** One row of the query's answer: a subdomain, its tunnel, and the tunnel's allowlist values in the order
      in which the database concatenates them. */
  datatype QueryRow = QueryRow(subdomain: string, tunnelID: string, values: seq<string>)

  ghost predicate IsRow(row: QueryRow, t: Tables) {
    && row.subdomain in t.subdomains && row.tunnelID == t.subdomains[row.subdomain]
    && multiset(row.values) == multiset(Allowlist(t.allow, row.tunnelID))
  }

  /** One row for each subdomain, in ascending order, joined with its tunnel's allowlist in any order. */
  ghost predicate Answers(rows: seq<QueryRow>, t: Tables) {
    && (forall i :: 0 <= i < |rows| ==> IsRow(rows[i], t))
    && (forall i, j :: 0 <= i < j < |rows| ==> Before(rows[i].subdomain, rows[j].subdomain))
    && (forall s :: s in t.subdomains ==> exists i :: 0 <= i < |rows| && rows[i].subdomain == s)
  }

  ghost predicate ListedFrom(results: seq<Reservation>, rows: seq<QueryRow>) {
    && |results| == |rows|
    && (forall i :: 0 <= i < |rows| ==>
      results[i] == Reservation(rows[i].tunnelID, rows[i].subdomain, Listed(rows[i].values)))
  }

  lemma ListedNone()
    ensures ListedFrom([], [])
  {
  }

  lemma ListedNext(results: seq<Reservation>, rows: seq<QueryRow>, n: nat)
    requires n < |rows| && ListedFrom(results, rows[..n])
    ensures ListedFrom(results + [Reservation(rows[n].tunnelID, rows[n].subdomain, Listed(rows[n].values))],
      rows[..n + 1])
  {
  }

  lemma RowOf(rows: seq<QueryRow>, t: Tables, subdomain: string) returns (i: nat)
    requires Answers(rows, t) && subdomain in t.subdomains
    ensures i < |rows| && rows[i].subdomain == subdomain && IsRow(rows[i], t)
    ensures forall j :: 0 <= j < |rows| && rows[j].subdomain == subdomain ==> j == i
  {
    i :| 0 <= i < |rows| && rows[i].subdomain == subdomain;
  }

  /** After a reservation goes through, the listing has exactly one entry for its subdomain, with its tunnel;
      and that gives the allowlist back, up to order, exactly when no value contains a comma and the list is
      not one empty value. */
  lemma ReservationListedIff(t: Tables, res: Reservation, rows: seq<QueryRow>, results: seq<Reservation>)
      returns (i: nat)
    requires res.tunnelID != "" && Reserve(t, res).Some? && Answers(rows, Reserve(t, res).value)
    requires ListedFrom(results, rows)
    ensures i < |results| && results[i].subdomain == res.subdomain && results[i].tunnelID == res.tunnelID
    ensures forall j :: 0 <= j < |results| && results[j].subdomain == res.subdomain ==> j == i
    ensures multiset(results[i].allowlist) == multiset(res.allowlist)
      <==> (forall v :: v in res.allowlist ==> CommaFree(v)) && res.allowlist != [""]
  {
    ReserveIff(t, res, "");
    i := RowOf(rows, Reserve(t, res).value, res.subdomain);
    ListedIff(res.allowlist, rows[i].values);
    hide Reserve, Answers, Listed;
  }
}
