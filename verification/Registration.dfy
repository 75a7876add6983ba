/** How handlers come to serve: exactly which steps make entries and listeners or are refused, and what becomes
    of a peer that is left to itself. */
module Registration {
  import opened Wrappers
  import opened Text
  import opened Tunnels
  import opened Lifecycle
  import Tokens
  import TcpListeners
  import UdpRuns

  // ---------- the steps that make something ----------

  predicate MakesHTTP(s: State, h: nat, k: string)
    requires h in s.handlers
  {
    s.handlers[h].phase == AddHTTPEntry && Key(s.handlers[h].hello.subdomain) == k != ""
  }

  lemma EffectAddsHTTP(s: State, h: nat, available: bool, k: string)
    requires h in s.handlers && !s.udp.crashed && k !in s.bindings.http
    ensures var t, hello := Effect(s, h, available), s.handlers[h].hello;
      && (k in t.bindings.http <==> MakesHTTP(s, h, k))
      && (k in t.bindings.http ==>
        t.bindings.http[k] == HTTPEntry(hello.tunnelID, k, hello.allowlist, Session(h)))
  {
    assert Key("") == "";
    hide TryPort, UdpRuns.Apply, Key, TcpListeners.Listen, TcpListeners.Unlisten;
  }

  /** An HTTP entry is made exactly when a handler at its HTTP registration has asked for a subdomain with that
      key, which is not empty; and then it is that handler's. */
  lemma EntryMadeIff(server: Server, s: State, e: Event, k: string)
    requires Enabled(server, s, e) && k !in s.bindings.http
    ensures var after := Apply(server, s, e).bindings.http;
      && (k in after <==> e.Advance? && e.step.Proceed? && MakesHTTP(s, e.h, k))
      && (k in after ==> var hello := s.handlers[e.h].hello;
          after[k] == HTTPEntry(hello.tunnelID, k, hello.allowlist, Session(e.h)))
  {
    if e.Advance? && e.step.Proceed? {
      EffectAddsHTTP(s, e.h, e.step.available, k);
    }
    hide Authorised, Next, Effect, UdpRuns.Apply, UdpRuns.Enabled, Tokens.HasActive, Tokens.Apply, Key;
  }

  predicate MakesPort(s: State, h: nat, proto: Proto, p: int)
    requires h in s.handlers
  {
    var hello := s.handlers[h].hello;
    && s.handlers[h].phase == (if proto.TCP? then AddTCPEntry else AddUDPEntry)
    && hello.protocol == (if proto.TCP? then "tcp" else "udp") && hello.port == p != 0 && hello.tunnelID != ""
  }

  lemma EffectAddsPort(s: State, h: nat, available: bool, proto: Proto, p: int)
    requires h in s.handlers && !s.udp.crashed && p !in s.bindings.Ports(proto)
    ensures var t, hello := Effect(s, h, available), s.handlers[h].hello;
      && (p in t.bindings.Ports(proto) <==> MakesPort(s, h, proto, p))
      && (p in t.bindings.Ports(proto) ==> t.bindings.Ports(proto)[p] == PortEntry(hello.tunnelID, p, Session(h)))
  {
    hide TryHTTP, UdpRuns.Apply, Key, TcpListeners.Listen, TcpListeners.Unlisten;
  }

  /** A port entry is made exactly when a handler at its TCP or UDP registration has asked for that port, which
      is not zero, for a tunnel with an id; and then it is that handler's. */
  lemma PortMadeIff(server: Server, s: State, e: Event, proto: Proto, p: int)
    requires Enabled(server, s, e) && p !in s.bindings.Ports(proto)
    ensures var after := Apply(server, s, e).bindings.Ports(proto);
      && (p in after <==> e.Advance? && e.step.Proceed? && MakesPort(s, e.h, proto, p))
      && (p in after ==> after[p] == PortEntry(s.handlers[e.h].hello.tunnelID, p, Session(e.h)))
  {
    if e.Advance? && e.step.Proceed? {
      EffectAddsPort(s, e.h, e.step.available, proto, p);
    }
    hide Authorised, Next, Effect, UdpRuns.Apply, UdpRuns.Enabled, Tokens.HasActive, Tokens.Apply, Key;
  }

  predicate MakesListener(s: State, h: nat, available: bool, proto: Proto, p: int)
    requires h in s.handlers
  {
    && s.handlers[h].phase == (if proto.TCP? then OpenTCP else OpenUDP) && s.handlers[h].hello.port == p > 0
    && available && (proto.TCP? ==> p < 1_000_000_000_000)
  }

  lemma EffectOpens(s: State, h: nat, available: bool, proto: Proto, p: int)
    requires h in s.handlers && !s.udp.crashed && p !in Listeners(s, proto)
    ensures var t := Effect(s, h, available);
      && (p in Listeners(t, proto) <==> MakesListener(s, h, available, proto, p))
      && (p in Listeners(t, proto) ==> Listeners(t, proto)[p] == h)
      && (p in Listeners(t, proto) && proto.UDP? ==> p in t.udp.table.sessions && t.udp.table.sessions[p] == map[])
  {
    hide TryHTTP, TryPort, Key;
  }

  /** A listener is made exactly when a handler at its opening step, TCP or UDP, wants that port, the port is
      positive, has at most twelve digits for TCP, and its address is available; and then it is that handler's,
      for UDP without sessions. */
  lemma ListenerMadeIff(server: Server, s: State, e: Event, proto: Proto, p: int)
    requires Enabled(server, s, e) && p !in Listeners(s, proto)
    ensures var t := Apply(server, s, e);
      && (p in Listeners(t, proto)
          <==> e.Advance? && e.step.Proceed? && MakesListener(s, e.h, e.step.available, proto, p))
      && (p in Listeners(t, proto) ==> Listeners(t, proto)[p] == e.h)
      && (p in Listeners(t, proto) && proto.UDP? ==> p in t.udp.table.sessions && t.udp.table.sessions[p] == map[])
  {
    if e.Traffic? {
      TrafficKeepsConns(s.udp, e.udp);
    } else if e.Advance? && e.step.Proceed? {
      EffectOpens(s, e.h, e.step.available, proto, p);
    }
    hide Authorised, Next, Effect, UdpRuns.Enabled, UdpRuns.Apply, Tokens.HasActive, Tokens.Apply, Key;
  }

  ghost predicate PortAccepted(m: PortMap, hello: Hello, protocol: string) {
    hello.protocol == protocol && hello.port != 0 ==>
      hello.tunnelID != "" && (hello.port in m ==> m[hello.port].tunnelID == hello.tunnelID)
  }

  /** Whether the registry takes what the hello asks for at the phase `phase`; true at every other phase. */
  ghost predicate Accepted(b: Bindings, hello: Hello, phase: Phase) {
    match phase
    case AddHTTPEntry =>
      hello.subdomain == "" || (TrimSpace(hello.subdomain) != "" && Key(hello.subdomain) !in b.http)
    case AddTCPEntry => PortAccepted(b.tcp, hello, "tcp")
    case AddUDPEntry => PortAccepted(b.udp, hello, "udp")
    case _ => true
  }

  /** A handler that is registering goes to its cleanup exactly when the registry refuses it, for a subdomain
      that is blank or bound, a missing tunnel id, or a port bound to another tunnel, or when the TCP port it is
      about to open is free and has more than twelve digits; then nothing else changes. */
  lemma RefusedIff(server: Server, s: State, h: nat, available: bool)
    requires Enabled(server, s, Advance(h, Proceed(available))) && Rank(s.handlers[h].phase) < Rank(Serve)
    ensures var handler, t := s.handlers[h], Apply(server, s, Advance(h, Proceed(available)));
      && (t.handlers[h].phase == DropHTTP <==>
          !Accepted(s.bindings, handler.hello, handler.phase)
          || (handler.phase == OpenTCP && handler.hello.port >= 1_000_000_000_000
              && handler.hello.port !in s.tcpListeners))
      && (t.handlers[h].phase == DropHTTP ==> t == s.(handlers := s.handlers[h := handler.(phase := DropHTTP)]))
  {
    SameKeyIff(s.handlers[h].hello.subdomain, "");
    hide Authorised, UdpRuns.Apply, UdpRuns.Enabled, Tokens.HasActive, Tokens.Apply, TrimSpace, ToLower;
  }

  /** A datagram passes the registry lookup exactly when its port has an entry then; otherwise it is dropped. */
  lemma LookupIff(server: Server, s: State, h: nat, found: bool)
    requires !s.udp.crashed && h in s.udp.handlers && s.udp.handlers[h].stage == UdpRuns.Looking
    ensures var e := Traffic(UdpRuns.Obtain(h, UdpRuns.Lookup(found)));
      && (Enabled(server, s, e) <==> (found <==> s.udp.handlers[h].cause.port in s.bindings.udp))
      && (Enabled(server, s, e) ==> var t := Apply(server, s, e).udp.handlers;
        && (h in t <==> s.udp.handlers[h].cause.port in s.bindings.udp)
        && (h in t ==> t[h] == s.udp.handlers[h].(stage := UdpRuns.Searching)))
  {
  }

  // ---------- a peer that is let in ----------

  ghost predicate SomeActive(rows: Tokens.Table) {
    exists row :: row in rows && !row.revoked
  }

  /** The hello shows a token that is active in the store, or the configured one where the store is not asked. */
  ghost predicate Shows(server: Server, rows: Tokens.Table, storedAuth: bool, hello: Hello) {
    && hello.kind == "hello"
    && if storedAuth
       then TrimSpace(hello.token) != ""
         && exists row :: row in rows && !row.revoked && row.hash == server.hash(TrimSpace(hello.token))
       else hello.token == server.config
  }

  lemma ShowsIff(server: Server, rows: Tokens.Table, storedAuth: bool, hello: Hello)
    ensures Tokens.HasActive(rows) <==> SomeActive(rows)
    ensures Authorised(server, rows, storedAuth, hello) <==> Shows(server, rows, storedAuth, hello)
  {
    var wanted := server.hash(TrimSpace(hello.token));
    hide TrimSpace;
    forall i | 0 <= i < |rows| && !rows[i].revoked
      ensures exists row :: row in rows && !row.revoked
      ensures rows[i].hash == wanted ==> exists row :: row in rows && !row.revoked && row.hash == wanted
    {
      assert rows[i] in rows;
    }
  }

  /** A check admits its peer exactly when the hello shows such a token, and the store answers if it is asked; a
      connection asks the store exactly when that had an active token when the connection was made, and is not
      taken at all without one and without a configured token. */
  lemma AdmittedIff(server: Server, s: State, h: nat, storeFails: bool)
    ensures Enabled(server, s, Connect(h))
      <==> !s.udp.crashed && h !in s.handlers && (SomeActive(s.tokens.rows) || server.config != "")
    ensures Enabled(server, s, Connect(h)) ==>
      Apply(server, s, Connect(h)).handlers[h].storedAuth == SomeActive(s.tokens.rows)
    ensures Enabled(server, s, Advance(h, Check(storeFails))) ==>
      var handler, t := s.handlers[h], Apply(server, s, Advance(h, Check(storeFails)));
      var ok := Shows(server, s.tokens.rows, handler.storedAuth, handler.hello) && !(handler.storedAuth && storeFails);
      && t == s.(handlers := t.handlers) && h in t.handlers && t.handlers - {h} == s.handlers - {h}
      && t.handlers[h].phase == (if ok then Welcome else DropHTTP)
  {
    if h in s.handlers {
      ShowsIff(server, s.tokens.rows, s.handlers[h].storedAuth, s.handlers[h].hello);
    }
    ShowsIff(server, s.tokens.rows, false, NO_HELLO);
    hide Authorised, Shows, SomeActive, Tokens.HasActive, Effect, Next;
  }

  lemma RunTwo(server: Server, s: State, a: Event, b: Event, rest: seq<Event>)
    requires Enabled(server, s, a) && Enabled(server, Apply(server, s, a), b)
    ensures Run(server, s, [a, b] + rest) == Run(server, Apply(server, Apply(server, s, a), b), rest)
  {
    hide Enabled, Apply;
    assert ([a, b] + rest)[1..] == [b] + rest && ([b] + rest)[1..] == rest;
  }

  lemma {:induction false} RunConcat(server: Server, s: State, a: seq<Event>, b: seq<Event>)
    requires Run(server, s, a).Some?
    ensures Run(server, s, a + b) == Run(server, Run(server, s, a).value, b)
    decreases |a|
  {
    hide Enabled, Apply;
    if a == [] {
      assert a + b == b;
    } else {
      assert (a + b)[1..] == a[1..] + b;
      RunConcat(server, Apply(server, s, a[0]), a[1..], b);
    }
  }

  lemma StrangerArrives(server: Server, s: State, g: nat, hello: Hello)
    requires Enabled(server, s, Connect(g))
    ensures var u := Apply(server, s, Connect(g));
      && Enabled(server, u, Advance(g, Greet(hello)))
      && var t := Apply(server, u, Advance(g, Greet(hello)));
      t == s.(handlers := s.handlers[g := Handler(hello, Tokens.HasActive(s.tokens.rows), None, CheckToken)])
  {
    hide Tokens.HasActive;
    var handler := Handler(hello, Tokens.HasActive(s.tokens.rows), None, CheckToken);
    assert Apply(server, Apply(server, s, Connect(g)), Advance(g, Greet(hello))).handlers == s.handlers[g := handler];
  }

  function Onward(h: nat): Event {
    Advance(h, Proceed(true))
  }

  function AdmitEvents(g: nat, hello: Hello): seq<Event> {
    [Connect(g), Advance(g, Greet(hello))] + ([Advance(g, Check(false)), Onward(g)] + [])
  }

  function Admitted(s: State, g: nat, hello: Hello): State {
    s.(handlers := s.handlers[g := Handler(hello, Tokens.HasActive(s.tokens.rows), Some(s.tokens.rows), AddHTTPEntry)])
  }

  lemma CheckedThenWelcomed(server: Server, s: State, g: nat)
    requires !s.udp.crashed && g in s.handlers && s.handlers[g].phase == CheckToken
    requires Authorised(server, s.tokens.rows, s.handlers[g].storedAuth, s.handlers[g].hello)
    ensures Enabled(server, s, Advance(g, Check(false)))
    ensures Enabled(server, Apply(server, s, Advance(g, Check(false))), Onward(g))
    ensures Apply(server, Apply(server, s, Advance(g, Check(false))), Onward(g))
      == s.(handlers := s.handlers[g := s.handlers[g].(checkedAgainst := Some(s.tokens.rows), phase := AddHTTPEntry)])
  {
    hide Authorised;
  }

  lemma PeerAdmitted(server: Server, s: State, g: nat, hello: Hello)
    requires Enabled(server, s, Connect(g)) && Authorised(server, s.tokens.rows, Tokens.HasActive(s.tokens.rows), hello)
    ensures Run(server, s, AdmitEvents(g, hello)) == Some(Admitted(s, g, hello))
  {
    StrangerArrives(server, s, g, hello);
    hide Tokens.HasActive, Authorised, Effect;
    var s2 := Apply(server, Apply(server, s, Connect(g)), Advance(g, Greet(hello)));
    CheckedThenWelcomed(server, s2, g);
    assert s2.handlers[g := Admitted(s, g, hello).handlers[g]] == Admitted(s, g, hello).handlers;
    hide Apply, Enabled;
    RunTwo(server, s, Connect(g), Advance(g, Greet(hello)), [Advance(g, Check(false)), Onward(g)] + []);
    RunTwo(server, s2, Advance(g, Check(false)), Onward(g), []);
  }

  // ---------- the way out ----------

  lemma EffectNeverCrashes(s: State, h: nat)
    requires h in s.handlers && !s.udp.crashed
    ensures !Effect(s, h, true).udp.crashed
  {
    hide TryHTTP, TryPort, Key, TcpListeners.Listen, TcpListeners.Unlisten;
  }

  lemma StepsOn(server: Server, s: State, h: nat) returns (step: Step)
    requires !s.udp.crashed && h in s.handlers && s.handlers[h].phase != Gone
    ensures Enabled(server, s, Advance(h, step))
    ensures var t := Apply(server, s, Advance(h, step));
      && t.handlers.Keys == s.handlers.Keys && !t.udp.crashed
      && Rank(t.handlers[h].phase) > Rank(s.handlers[h].phase)
  {
    var phase := s.handlers[h].phase;
    step := if phase.ReadHello? || phase.Serve? then Abandon
            else if phase.CheckToken? then Check(true) else Proceed(true);
    if step.Proceed? {
      NextFits(s, h, true);
      EffectNeverCrashes(s, h);
    }
    hide Next, Effect, Authorised;
  }

  /** Wherever a handler is and whatever the others do, it can come to its end by steps of its own. */
  lemma {:induction false} CanLeave(server: Server, s: State, h: nat) returns (events: seq<Event>)
    requires !s.udp.crashed && h in s.handlers
    ensures Run(server, s, events).Some?
    ensures var t := Run(server, s, events).value;
      t.handlers.Keys == s.handlers.Keys && t.handlers[h].phase == Gone && !t.udp.crashed
    ensures forall e :: e in events ==> e.Advance? && e.h == h
    decreases Rank(Gone) - Rank(s.handlers[h].phase)
  {
    events := [];
    if s.handlers[h].phase != Gone {
      var step := StepsOn(server, s, h);
      var t := Apply(server, s, Advance(h, step));
      hide Apply, Enabled;
      var rest := CanLeave(server, t, h);
      events := [Advance(h, step)] + rest;
      assert events[1..] == rest;
    }
  }

  // ---------- a peer that is left to itself, from the start ----------

  /** The state in which only handler `h` is there, admitted and at `phase`. */
  function Alone(tokens: Tokens.State, h: nat, hello: Hello, phase: Phase, bindings: Bindings,
      listeners: TcpListeners.Table, sockets: map<int, nat>): State
  {
    var handler := Handler(hello, Tokens.HasActive(tokens.rows), Some(tokens.rows), phase);
    var table := UdpRuns.INIT.table.(conns := sockets, sessions := map p | p in sockets :: map[]);
    State(map[h := handler], bindings, listeners, UdpRuns.INIT.(table := table), tokens)
  }

  const NONE := Bindings(map[], map[], map[])

  /** Whether the server takes connections at all. */
  ghost predicate Ready(server: Server, tokens: Tokens.State) {
    server.config != "" || SomeActive(tokens.rows)
  }

  ghost predicate Welcomed(server: Server, tokens: Tokens.State, hello: Hello) {
    Shows(server, tokens.rows, SomeActive(tokens.rows), hello)
  }

  lemma WelcomedIff(server: Server, tokens: Tokens.State, hello: Hello)
    ensures Welcomed(server, tokens, hello)
      <==> Authorised(server, tokens.rows, Tokens.HasActive(tokens.rows), hello)
    ensures forall h :: Enabled(server, Init(tokens), Connect(h)) <==> Ready(server, tokens)
  {
    ShowsIff(server, tokens.rows, SomeActive(tokens.rows), hello);
    hide Authorised, Shows, SomeActive, Tokens.HasActive;
  }

  lemma AdmittedAlone(server: Server, tokens: Tokens.State, h: nat, hello: Hello)
    requires Ready(server, tokens) && Welcomed(server, tokens, hello)
    ensures Run(server, Init(tokens), AdmitEvents(h, hello))
      == Some(Alone(tokens, h, hello, AddHTTPEntry, NONE, map[], map[]))
  {
    WelcomedIff(server, tokens, hello);
    hide Authorised, Tokens.HasActive, Ready, Welcomed;
    PeerAdmitted(server, Init(tokens), h, hello);
    hide Run, AdmitEvents;
    var t := Alone(tokens, h, hello, AddHTTPEntry, NONE, map[], map[]);
    assert Admitted(Init(tokens), h, hello).handlers == t.handlers && t.udp.table.sessions == map[];
  }

  function Onwards(h: nat, n: nat): seq<Event> {
    if n == 0 then [] else [Onward(h)] + Onwards(h, n - 1)
  }

  lemma RunOnward(server: Server, s: State, h: nat, n: nat)
    requires Enabled(server, s, Onward(h))
    ensures Run(server, s, Onwards(h, n + 1)) == Run(server, Apply(server, s, Onward(h)), Onwards(h, n))
  {
    hide Enabled, Apply;
    assert ([Onward(h)] + Onwards(h, n))[1..] == Onwards(h, n);
  }

  lemma RunNone(server: Server, s: State, h: nat)
    ensures Run(server, s, Onwards(h, 0)) == Some(s)
  {
  }

  // What the hello leads to, when nothing else is registered and every address is available.

  function HTTPOf(h: nat, hello: Hello): HTTPMap {
    if hello.subdomain == "" then map[]
    else
      var key := Key(hello.subdomain);
      map[key := HTTPEntry(hello.tunnelID, key, hello.allowlist, Session(h))]
  }

  function PortOf(h: nat, hello: Hello, protocol: string): PortMap {
    if hello.protocol != protocol || hello.port == 0 then map[]
    else map[hello.port := PortEntry(hello.tunnelID, hello.port, Session(h))]
  }

  function ListenerOf(h: nat, hello: Hello, protocol: string): map<int, nat> {
    if hello.protocol != protocol || hello.port <= 0 then map[] else map[hello.port := h]
  }

  function Bound(h: nat, hello: Hello): Bindings {
    Bindings(HTTPOf(h, hello), PortOf(h, hello, "tcp"), PortOf(h, hello, "udp"))
  }

  function ServesAlone(tokens: Tokens.State, h: nat, hello: Hello): State {
    Alone(tokens, h, hello, Serve, Bound(h, hello), ListenerOf(h, hello, "tcp"), ListenerOf(h, hello, "udp"))
  }

  predicate AsksForPort(hello: Hello) {
    (hello.protocol == "tcp" || hello.protocol == "udp") && hello.port != 0
  }

  /** A subdomain, if there is one, that is not blank; a tunnel id, if a port is asked for; and for TCP a
      positive port with at most twelve digits or a negative one, which opens nothing. */
  predicate Registrable(hello: Hello) {
    && (hello.subdomain != "" ==> TrimSpace(hello.subdomain) != "")
    && (AsksForPort(hello) ==> hello.tunnelID != "")
    && (hello.protocol == "tcp" ==> hello.port < 1_000_000_000_000)
  }

  lemma RegistersHTTP(server: Server, tokens: Tokens.State, h: nat, hello: Hello)
    ensures var s := Alone(tokens, h, hello, AddHTTPEntry, NONE, map[], map[]);
      && Enabled(server, s, Onward(h))
      && var t := Apply(server, s, Onward(h));
      if hello.subdomain != "" && TrimSpace(hello.subdomain) == ""
      then h in t.handlers && t.handlers[h].phase == DropHTTP
      else t == Alone(tokens, h, hello, AddTCPEntry, NONE.(http := HTTPOf(h, hello)), map[], map[])
  {
    hide Tokens.HasActive, TrimSpace;
  }

  lemma RegistersTCP(server: Server, tokens: Tokens.State, h: nat, hello: Hello)
    ensures var b := NONE.(http := HTTPOf(h, hello));
      var s := Alone(tokens, h, hello, AddTCPEntry, b, map[], map[]);
      && Enabled(server, s, Onward(h))
      && var t := Apply(server, s, Onward(h));
      if hello.protocol != "tcp" || hello.port == 0 then t == Alone(tokens, h, hello, AddUDPEntry, b, map[], map[])
      else if hello.tunnelID == "" then h in t.handlers && t.handlers[h].phase == DropHTTP
      else t == Alone(tokens, h, hello, OpenTCP, b.(tcp := PortOf(h, hello, "tcp")), map[], map[])
  {
    hide Tokens.HasActive, TrimSpace, HTTPOf;
  }

  lemma OpensTCP(server: Server, tokens: Tokens.State, h: nat, hello: Hello, b: Bindings)
    ensures var s := Alone(tokens, h, hello, OpenTCP, b, map[], map[]);
      && Enabled(server, s, Onward(h))
      && var t := Apply(server, s, Onward(h));
      if hello.port >= 1_000_000_000_000 then h in t.handlers && t.handlers[h].phase == DropHTTP
      else t == Alone(tokens, h, hello, AddUDPEntry, b, if hello.port > 0 then map[hello.port := h] else map[], map[])
  {
    hide Tokens.HasActive;
  }

  lemma RegistersUDP(server: Server, tokens: Tokens.State, h: nat, hello: Hello, b: Bindings, l: TcpListeners.Table)
    requires b.udp == map[]
    ensures var s := Alone(tokens, h, hello, AddUDPEntry, b, l, map[]);
      && Enabled(server, s, Onward(h))
      && var t := Apply(server, s, Onward(h));
      if hello.protocol != "udp" || hello.port == 0 then t == Alone(tokens, h, hello, Serve, b, l, map[])
      else if hello.tunnelID == "" then h in t.handlers && t.handlers[h].phase == DropHTTP
      else t == Alone(tokens, h, hello, OpenUDP, b.(udp := PortOf(h, hello, "udp")), l, map[])
  {
    hide Tokens.HasActive;
  }

  lemma OpensUDP(server: Server, tokens: Tokens.State, h: nat, hello: Hello, b: Bindings, l: TcpListeners.Table)
    ensures var s := Alone(tokens, h, hello, OpenUDP, b, l, map[]);
      && Enabled(server, s, Onward(h))
      && Apply(server, s, Onward(h))
        == Alone(tokens, h, hello, Serve, b, l, if hello.port > 0 then map[hello.port := h] else map[])
  {
    hide Tokens.HasActive;
    var t := Apply(server, Alone(tokens, h, hello, OpenUDP, b, l, map[]), Onward(h));
    assert hello.port > 0 ==> t.udp.table.sessions == map[hello.port := map[]];
  }

  /** The run is at an end: the handler serves in state `t`, or goes to its cleanup. */
  ghost predicate EndsIn(r: Option<State>, h: nat, ok: bool, t: State) {
    && r.Some? && h in r.value.handlers && r.value.handlers[h].phase == (if ok then Serve else DropHTTP)
    && (ok ==> r.value == t)
  }

  lemma FromUDP(server: Server, tokens: Tokens.State, h: nat, hello: Hello, b: Bindings, l: TcpListeners.Table)
      returns (n: nat)
    requires b.udp == map[]
    ensures EndsIn(Run(server, Alone(tokens, h, hello, AddUDPEntry, b, l, map[]), Onwards(h, n)), h,
      hello.protocol != "udp" || hello.port == 0 || hello.tunnelID != "",
      Alone(tokens, h, hello, Serve, b.(udp := PortOf(h, hello, "udp")), l, ListenerOf(h, hello, "udp")))
  {
    var c := b.(udp := PortOf(h, hello, "udp"));
    var s := Alone(tokens, h, hello, AddUDPEntry, b, l, map[]);
    RegistersUDP(server, tokens, h, hello, b, l);
    OpensUDP(server, tokens, h, hello, c, l);
    var t := Apply(server, s, Onward(h));
    assert h in Alone(tokens, h, hello, Serve, b, l, map[]).handlers;
    hide Apply, Enabled, Run;
    n := 1;
    if hello.protocol == "udp" && hello.port != 0 && hello.tunnelID != "" {
      RunOnward(server, t, h, 0);
      RunNone(server, Apply(server, t, Onward(h)), h);
      n := 2;
    } else {
      RunNone(server, t, h);
    }
    RunOnward(server, s, h, n - 1);
  }

  lemma FromTCP(server: Server, tokens: Tokens.State, h: nat, hello: Hello) returns (n: nat)
    requires Key(hello.subdomain) != "" || hello.subdomain == ""
    ensures EndsIn(
      Run(server, Alone(tokens, h, hello, AddTCPEntry, NONE.(http := HTTPOf(h, hello)), map[], map[]), Onwards(h, n)),
      h, Registrable(hello), ServesAlone(tokens, h, hello))
  {
    hide Apply, Enabled, Run, HTTPOf;
    var b := NONE.(http := HTTPOf(h, hello));
    var c := b.(tcp := PortOf(h, hello, "tcp"));
    var s := Alone(tokens, h, hello, AddTCPEntry, b, map[], map[]);
    RegistersTCP(server, tokens, h, hello);
    var t := Apply(server, s, Onward(h));
    n := 0;
    if hello.protocol != "tcp" || hello.port == 0 {
      n := FromUDP(server, tokens, h, hello, b, map[]);
    } else if hello.tunnelID == "" {
      RunNone(server, t, h);
    } else {
      OpensTCP(server, tokens, h, hello, c);
      var u := Apply(server, t, Onward(h));
      if hello.port >= 1_000_000_000_000 {
        RunNone(server, u, h);
      } else {
        n := FromUDP(server, tokens, h, hello, c, ListenerOf(h, hello, "tcp"));
      }
      RunOnward(server, t, h, n);
      n := n + 1;
    }
    RunOnward(server, s, h, n);
    n := n + 1;
  }

  /** An admitted handler that is left to itself serves exactly when its hello can be registered, and then with
      its own entries and its own listeners, and nothing else; otherwise it goes to its cleanup. */
  lemma RegistersAlone(server: Server, tokens: Tokens.State, h: nat, hello: Hello) returns (n: nat)
    ensures EndsIn(Run(server, Alone(tokens, h, hello, AddHTTPEntry, NONE, map[], map[]), Onwards(h, n)), h,
      Registrable(hello), ServesAlone(tokens, h, hello))
  {
    RegistersHTTP(server, tokens, h, hello);
    var s := Alone(tokens, h, hello, AddHTTPEntry, NONE, map[], map[]);
    var t := Apply(server, s, Onward(h));
    hide Apply, Enabled, Run, HTTPOf, TrimSpace, ServesAlone;
    n := 0;
    if hello.subdomain != "" && TrimSpace(hello.subdomain) == "" {
      RunNone(server, t, h);
    } else {
      n := FromTCP(server, tokens, h, hello);
    }
    RunOnward(server, s, h, n);
    n := n + 1;
  }

  function RefuseEvents(h: nat, hello: Hello): seq<Event> {
    [Connect(h), Advance(h, Greet(hello))] + [Advance(h, Check(false))]
  }

  lemma StrangerRefused(server: Server, tokens: Tokens.State, h: nat, hello: Hello)
    requires Ready(server, tokens) && !Welcomed(server, tokens, hello)
    ensures var t := Run(server, Init(tokens), RefuseEvents(h, hello));
      t.Some? && h in t.value.handlers && t.value.handlers[h].phase == DropHTTP
  {
    WelcomedIff(server, tokens, hello);
    hide Authorised, Tokens.HasActive, Ready, Welcomed;
    var s := Init(tokens);
    StrangerArrives(server, s, h, hello);
    var t := Apply(server, Apply(server, s, Connect(h)), Advance(h, Greet(hello)));
    var u := Apply(server, t, Advance(h, Check(false)));
    assert Run(server, t, [Advance(h, Check(false))]) == Some(u) && u.handlers[h].phase == DropHTTP;
    hide Run, Apply, Enabled;
    RunTwo(server, s, Connect(h), Advance(h, Greet(hello)), [Advance(h, Check(false))]);
  }

  /** From the start, for every hello and with every address available: a peer that is left to itself comes to
      serve exactly when it is welcome and its hello can be registered, and then with its own entries and
      listeners, TCP or UDP; otherwise it goes to its cleanup. */
  lemma ServesFromStartIff(server: Server, tokens: Tokens.State, h: nat, hello: Hello) returns (events: seq<Event>)
    requires Ready(server, tokens)
    ensures EndsIn(Run(server, Init(tokens), events), h,
      Welcomed(server, tokens, hello) && Registrable(hello), ServesAlone(tokens, h, hello))
  {
    if Welcomed(server, tokens, hello) {
      AdmittedAlone(server, tokens, h, hello);
      var n := RegistersAlone(server, tokens, h, hello);
      hide Run, AdmitEvents, Onwards, ServesAlone, Registrable, Ready, Welcomed;
      events := AdmitEvents(h, hello) + Onwards(h, n);
      RunConcat(server, Init(tokens), AdmitEvents(h, hello), Onwards(h, n));
    } else {
      StrangerRefused(server, tokens, h, hello);
      events := RefuseEvents(h, hello);
    }
  }
}
