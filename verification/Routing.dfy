/** Which tunnel a public request goes to, and for which names certificates are issued. */
module Routing {
  import opened Wrappers
  import opened Text
  import opened Tunnels
  import opened Storage
  import Lifecycle
  import Tokens

  datatype Route = NotFound | Direct(entry: HTTPEntry) | Custom(entry: HTTPEntry)

  /** net.SplitHostPort, of which only the host is used: None is its error. */
  type HostSplit = string -> Option<string>

  predicate IsAdmin(rawHost: string) {
    "admin." <= ToLower(rawHost)
  }

  function HostOf(split: HostSplit, rawHost: string): string {
    var host := ToLower(rawHost);
    if ':' in host && split(host).Some? then split(host).value else host
  }

  function FirstLabel(host: string): string {
    if host == "" || host[0] == '.' then "" else [host[0]] + FirstLabel(host[1..])
  }

  predicate EnabledRow(row: DomainRow) {
    ToLower(row.status) == "enabled"
  }

  ghost predicate IsEntryOf(http: HTTPMap, tunnelID: string, entry: HTTPEntry) {
    tunnelID != "" && entry.tunnelID == tunnelID && exists k :: k in http && http[k] == entry
  }

  ghost predicate IsLive(http: HTTPMap, tunnelID: string) {
    tunnelID != "" && exists k :: k in http && http[k].tunnelID == tunnelID
  }

  /** The proxy's decision. It looks the subdomain up in the registry as it is first, and the tunnel of a
      custom domain as it is after the store has answered; of a tunnel's several entries it may take any. */
  ghost predicate Routes(first: HTTPMap, domains: Domains, second: HTTPMap, split: HostSplit, rawHost: string, r: Route)
  {
    if IsAdmin(rawHost) then r == NotFound
    else
      var host := HostOf(split, rawHost);
      var key := Key(FirstLabel(host));
      if key in first then r == Direct(first[key])
      else
        match FindDomain(domains, host)
        case None => r == NotFound
        case Some(row) =>
          if EnabledRow(row) && IsLive(second, row.tunnelID) then r.Custom? && IsEntryOf(second, row.tunnelID, r.entry)
          else r == NotFound
  }

  /** `meanwhile` is what the rest of the server does to the registry while the store is being asked. */
  method Resolve(registry: Registry, store: Store, split: HostSplit, rawHost: string, meanwhile: seq<Op>)
      returns (r: Route, ok: bool)
    modifies registry, store`faults
    ensures ok ==> Routes(old(registry.httpMap), store.domains, registry.httpMap, split, rawHost, r)
    ensures !ok ==> r == NotFound
    ensures old(store.Healthy()) ==> ok
    ensures registry.State() == old(registry.State())
      || registry.State() == PerformedAll(old(registry.State()), meanwhile)
  {
    if IsAdmin(rawHost) {
      return NotFound, true;
    }
    var host := HostOf(split, rawHost);
    var entry := registry.LookupHTTP(FirstLabel(host));
    if entry.Some? {
      return Direct(entry.value), true;
    }
    var mapped;
    ok, mapped := store.GetCustomDomain(host);
    if !ok || mapped.None? {
      return NotFound, ok;
    }
    if !EnabledRow(mapped.value) {
      return NotFound, true;
    }
    registry.Perform(meanwhile);
    entry := registry.LookupHTTPByTunnelID(mapped.value.tunnelID);
    r := if entry.Some? then Custom(entry.value) else NotFound;
  }

  // ---------- admission ----------

  /** The caller's address against an allowlist; false also for a list that does not parse. */
  type Admits = seq<string> -> bool

  datatype Admission = Missing | Denied | Unavailable | Admitted(entry: HTTPEntry)

  function Admit(r: Route, admits: Admits): Admission {
    if r == NotFound then Missing
    else if !admits(r.entry.allowlist) then Denied
    else if r.entry.session == NoSession then Unavailable
    else Admitted(r.entry)
  }

  // ---------- the certificate gate ----------

  datatype Status = OK | BadRequest | Forbidden | InternalError

  function Ask(domains: Domains, query: string): Status {
    if TrimSpace(query) == "" then BadRequest
    else match FindDomain(domains, TrimSpace(query))
      case None => Forbidden
      case Some(row) => if EnabledRow(row) && row.tunnelID != "" then OK else Forbidden
  }

  method TLSAsk(store: Store, query: string) returns (status: Status)
    modifies store`faults
    ensures status == InternalError || status == Ask(store.domains, query)
    ensures old(store.Healthy()) ==> status == Ask(store.domains, query)
  {
    var domain := TrimSpace(query);
    if domain == "" {
      return BadRequest;
    }
    var ok, row := store.GetCustomDomain(domain);
    if !ok {
      return InternalError;
    }
    if row.None? || !EnabledRow(row.value) {
      return Forbidden;
    }
    if row.value.tunnelID == "" {
      return Forbidden;
    }
    return OK;
  }

  // ---------- the decision in terms of the texts ----------

  ghost predicate SpellsAdmin(rawHost: string) {
    |rawHost| >= 6 && SameText(rawHost[..6], "admin.")
  }

  ghost predicate SpellsEnabled(status: string) {
    |status| == 7 && forall i :: 0 <= i < 7 ==> status[i] == "enabled"[i] || status[i] == "ENABLED"[i]
  }

  lemma LowerIs(s: string)
    requires forall i :: 0 <= i < |s| ==> !IsUpper(s[i])
    ensures ToLower(s) == s
  {
  }

  lemma EnabledLetter(c: char, i: nat)
    requires i < 7
    ensures SameLetter(c, "enabled"[i]) <==> c == "enabled"[i] || c == "ENABLED"[i]
    ensures !IsUpper("enabled"[i])
  {
    assert "enabled"[i] as int - 32 == "ENABLED"[i] as int && IsUpper("ENABLED"[i]) by {
      assert i in {0, 1, 2, 3, 4, 5, 6};
    }
  }

  lemma EnabledIff(row: DomainRow)
    ensures EnabledRow(row) <==> SpellsEnabled(row.status)
  {
    var e, status := "enabled", row.status;
    LowerSame(status, e);
    forall i | 0 <= i < 7
      ensures !IsUpper(e[i]) && (i < |status| ==>
        (SameLetter(status[i], e[i]) <==> status[i] == e[i] || status[i] == "ENABLED"[i]))
    {
      EnabledLetter(if i < |status| then status[i] else e[i], i);
    }
    LowerIs(e);
    hide ToLower, SameLetter, IsUpper;
  }

  lemma AdminIff(rawHost: string)
    ensures IsAdmin(rawHost) <==> SpellsAdmin(rawHost)
  {
    var p := "admin.";
    LowerIs(p);
    if |rawHost| >= 6 {
      LowerSame(rawHost[..6], p);
      assert ToLower(rawHost[..6]) == ToLower(rawHost)[..6];
    }
  }

  lemma {:induction false} LabelIs(name: string, rest: string)
    requires '.' !in name && (rest == "" || rest[0] == '.')
    ensures FirstLabel(name + rest) == name
  {
    if name != "" {
      assert name[0] in name && (name + rest)[1..] == name[1..] + rest;
      LabelIs(name[1..], rest);
    }
  }

  /** The host name that a request's Host field stands for. */
  ghost predicate Requests(split: HostSplit, rawHost: string, host: string) {
    var lower := ToLower(rawHost);
    || (':' !in rawHost && host == lower)
    || (':' in rawHost && split(lower) == None && host == lower)
    || (':' in rawHost && split(lower) == Some(host))
  }

  lemma HostIs(split: HostSplit, rawHost: string, host: string)
    requires Requests(split, rawHost, host)
    ensures HostOf(split, rawHost) == host
  {
    var lower := ToLower(rawHost);
    if ':' in rawHost {
      var i :| 0 <= i < |rawHost| && rawHost[i] == ':';
      assert lower[i] == ':';
    } else {
      forall i | 0 <= i < |lower| ensures lower[i] != ':' {
        assert rawHost[i] in rawHost;
      }
    }
  }

  /** The decision, from the texts: a request goes to the entry of its host's first label if there is
      one; else through a custom domain exactly when the host has a row whose status spells "enabled", each
      letter in either case, and whose tunnel is live; the gate approves such hosts. */
  lemma RouteIff(first: HTTPMap, domains: Domains, second: HTTPMap, split: HostSplit, rawHost: string, r: Route,
      name: string, rest: string)
    requires Routes(first, domains, second, split, rawHost, r) && Requests(split, rawHost, name + rest)
    requires '.' !in name && (rest == "" || rest[0] == '.')
    ensures r.Direct? <==> !SpellsAdmin(rawHost) && Key(name) in first
    ensures r.Direct? ==> r.entry == first[Key(name)]
    ensures var row := FindDomain(domains, name + rest);
      r.Custom? <==>
        && !SpellsAdmin(rawHost) && Key(name) !in first
        && row.Some? && SpellsEnabled(row.value.status) && IsLive(second, row.value.tunnelID)
    ensures r.Custom? ==> Ask(domains, name + rest) == OK
    ensures r.Custom? ==> IsEntryOf(second, FindDomain(domains, name + rest).value.tunnelID, r.entry)
  {
    HostIs(split, rawHost, name + rest);
    LabelIs(name, rest);
    AdminIff(rawHost);
    TrimTwice(name + rest);
    if FindDomain(domains, name + rest).Some? {
      EnabledIff(FindDomain(domains, name + rest).value);
    }
    hide Requests, HostOf, FirstLabel, IsAdmin, EnabledRow, SpellsAdmin, SpellsEnabled, TrimSpace, ToLower;
  }

  lemma LowerConcat(a: string, b: string)
    ensures ToLower(a + b) == ToLower(a) + ToLower(b)
  {
    var x, y := ToLower(a + b), ToLower(a) + ToLower(b);
    assert forall i :: 0 <= i < |x| ==> x[i] == LowerChar((a + b)[i]) == y[i];
  }

  lemma LowerHas(s: string, c: char)
    requires c == '.' || c == ':'
    ensures c in ToLower(s) <==> c in s
  {
    var x := ToLower(s);
    if c in s {
      var i :| 0 <= i < |s| && s[i] == c;
      assert x[i] == c;
    }
    if c in x {
      var i :| 0 <= i < |x| && x[i] == c;
      assert s[i] in s;
    }
  }

  /** So a host without a port reaches a registered subdomain directly exactly when its first label, written in
      any case, normalises to the subdomain's key and the host is not an admin one. */
  lemma SubdomainReachedIff(first: HTTPMap, domains: Domains, second: HTTPMap, split: HostSplit, r: Route,
      name: string, rest: string)
    requires Routes(first, domains, second, split, name + rest, r)
    requires '.' !in name && (rest == "" || rest[0] == '.') && ':' !in name + rest
    ensures r.Direct? <==> !SpellsAdmin(name + rest) && Key(name) in first
    ensures r.Direct? ==> r.entry == first[Key(name)]
  {
    LowerConcat(name, rest);
    LowerHas(name, '.');
    KeyOfLower(name);
    var x, y := ToLower(name), ToLower(rest);
    hide Routes, SpellsAdmin, Key;
    RouteIff(first, domains, second, split, name + rest, r, x, y);
  }

  /** A stored domain, new or overwritten, is found with its own row under exactly the spellings that
      normalise alike; a row without a status is pending. */
  lemma DomainFoundIff(tunnels: set<string>, domains: Domains, domain: string, row: DomainRow, other: string)
    requires PutDomain(tunnels, domains, domain, row).Some?
    ensures var after := PutDomain(tunnels, domains, domain, row).value;
      FindDomain(after, other) ==
        if !SameText(TrimSpace(other), TrimSpace(domain)) then FindDomain(domains, other)
        else Some(DomainRow(row.tunnelID, if row.status == "" then "pending" else row.status))
  {
    SameKeyIff(other, domain);
    hide TrimSpace, ToLower;
  }

  /** The gate after any upsert, of a new domain or a stored one: for every spelling of the domain it is open
      exactly when the row names a tunnel and its status spells "enabled"; for all others it stays as it was. */
  lemma GateIff(tunnels: set<string>, domains: Domains, domain: string, row: DomainRow, other: string)
    ensures PutDomain(tunnels, domains, domain, row).Some? <==> TrimSpace(domain) != "" && row.tunnelID in tunnels
    ensures PutDomain(tunnels, domains, domain, row).Some? ==>
      var after := PutDomain(tunnels, domains, domain, row).value;
      if SameText(TrimSpace(other), TrimSpace(domain))
      then Ask(after, other) == if row.tunnelID != "" && SpellsEnabled(row.status) then OK else Forbidden
      else Ask(after, other) == Ask(domains, other)
  {
    SameKeyIff(domain, "");
    if PutDomain(tunnels, domains, domain, row).Some? {
      TrimTwice(other);
      DomainFoundIff(tunnels, domains, domain, row, TrimSpace(other));
      EnabledIff(row);
      EnabledIff(row.(status := "pending"));
      assert "pending"[0] == 'p';
      SameKeyIff(other, domain);
      hide TrimSpace, ToLower, EnabledRow, PutDomain, FindDomain;
    }
  }

  lemma EntryIsOwned(server: Lifecycle.Server, tokens: Tokens.State, events: seq<Lifecycle.Event>, k: string,
      entry: HTTPEntry)
    requires Lifecycle.Run(server, Lifecycle.Init(tokens), events).Some?
    requires var http := Lifecycle.Run(server, Lifecycle.Init(tokens), events).value.bindings.http;
      k in http && http[k] == entry
    ensures entry.session.Session?
    ensures var s := Lifecycle.Run(server, Lifecycle.Init(tokens), events).value;
      && Lifecycle.Holds(server, s, entry.session.id, Lifecycle.DropHTTP)
      && s.handlers[entry.session.id].hello.allowlist == entry.allowlist
  {
    Lifecycle.EverythingIsOwned(server, tokens, events);
    hide Lifecycle.Run, Lifecycle.Holds;
    var s := Lifecycle.Run(server, Lifecycle.Init(tokens), events).value;
    assert Lifecycle.OwnsHTTP(server, s, k, s.bindings.http[k]);
  }

  /** In every run of the relay, whatever happens between the two lookups: a routed entry belongs, in the
      state it was found in, to a handler that passed its token check and has not yet removed it. So no
      caller is told that a tunnel is unavailable, and those admitted are on the allowlist its owner sent. */
  lemma RoutedOwnerIsThere(
      server: Lifecycle.Server, tokens: Tokens.State, before: seq<Lifecycle.Event>, events: seq<Lifecycle.Event>,
      domains: Domains, split: HostSplit, rawHost: string, r: Route, admits: Admits)
    requires Lifecycle.Run(server, Lifecycle.Init(tokens), before).Some?
    requires Lifecycle.Run(server, Lifecycle.Init(tokens), events).Some?
    requires before <= events
    requires Routes(
      Lifecycle.Run(server, Lifecycle.Init(tokens), before).value.bindings.http, domains,
      Lifecycle.Run(server, Lifecycle.Init(tokens), events).value.bindings.http, split, rawHost, r)
    requires r != NotFound
    ensures r.entry.session.Session?
    ensures var s := Lifecycle.Run(server, Lifecycle.Init(tokens), if r.Direct? then before else events).value;
      && Lifecycle.Holds(server, s, r.entry.session.id, Lifecycle.DropHTTP)
      && Admit(r, admits) ==
        if admits(s.handlers[r.entry.session.id].hello.allowlist) then Admitted(r.entry) else Denied
  {
    hide Lifecycle.Run, Lifecycle.Holds;
    var at := if r.Direct? then before else events;
    var http := Lifecycle.Run(server, Lifecycle.Init(tokens), at).value.bindings.http;
    var k :| k in http && http[k] == r.entry;
    EntryIsOwned(server, tokens, at, k, r.entry);
  }
}
