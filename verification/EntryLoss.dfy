/** How a registered tunnel loses its entries and listeners: exactly when, and two runs in which it does
    while its handler goes on serving. */
module EntryLoss {
  import opened Wrappers
  import opened Text
  import opened Tunnels
  import opened Lifecycle
  import opened Registration
  import Tokens
  import TcpListeners
  import UdpRuns

  // ---------- the steps that lose something ----------

  predicate UnbindsHTTP(s: State, e: Event, k: string)
    requires k in s.bindings.http
  {
    || (e.Advance? && Moves(s, e, e.h, DropHTTP) && WantsHTTP(s.handlers[e.h].hello)
      && Key(s.handlers[e.h].hello.subdomain) == k)
    || (e.KillHTTP? && e.tunnelID != "" && s.bindings.http[k].tunnelID == e.tunnelID)
  }

  lemma EffectOnHTTP(s: State, h: nat, available: bool, k: string)
    requires h in s.handlers && !s.udp.crashed && k in s.bindings.http
    ensures var t, handler := Effect(s, h, available), s.handlers[h];
      && (k !in t.bindings.http
          <==> handler.phase == DropHTTP && WantsHTTP(handler.hello) && Key(handler.hello.subdomain) == k)
      && (k in t.bindings.http ==> t.bindings.http[k] == s.bindings.http[k])
  {
    hide TryPort, UdpRuns.Apply, Key;
  }

  /** An HTTP entry is lost exactly to a kill of its tunnel or to the cleanup of some handler, admitted or
      not, whose hello normalises to its key; until then it does not change at all. */
  lemma LostIff(server: Server, s: State, e: Event, k: string)
    requires Enabled(server, s, e) && k in s.bindings.http
    ensures k !in Apply(server, s, e).bindings.http <==> UnbindsHTTP(s, e, k)
    ensures k in Apply(server, s, e).bindings.http ==> Apply(server, s, e).bindings.http[k] == s.bindings.http[k]
  {
    if e.Advance? && e.step.Proceed? {
      EffectOnHTTP(s, e.h, e.step.available, k);
    }
    hide Authorised, Next, Effect, UdpRuns.Apply, UdpRuns.Enabled, Tokens.HasActive, Tokens.Apply, Key;
  }

  function DropEntry(proto: Proto): Phase {
    if proto.TCP? then DropTCP else DropUDP
  }

  function AddEntry(proto: Proto): Phase {
    if proto.TCP? then AddTCPEntry else AddUDPEntry
  }

  predicate UnbindsPort(s: State, e: Event, proto: Proto, p: int)
    requires p in s.bindings.Ports(proto)
  {
    || (e.Advance? && Moves(s, e, e.h, DropEntry(proto)) && WantsPort(s.handlers[e.h].hello, proto)
      && s.handlers[e.h].hello.port == p)
    || (e.KillPorts? && e.proto == proto && e.tunnelID != "" && s.bindings.Ports(proto)[p].tunnelID == e.tunnelID)
  }

  /** A handler about to register the port for the tunnel that has it takes it over. */
  predicate TakesOverPort(s: State, h: nat, proto: Proto, p: int)
    requires h in s.handlers && p in s.bindings.Ports(proto)
  {
    var hello := s.handlers[h].hello;
    && s.handlers[h].phase == AddEntry(proto) && WantsPort(hello, proto) && hello.port == p
    && hello.tunnelID != "" && hello.tunnelID == s.bindings.Ports(proto)[p].tunnelID
  }

  /** The entry of a port that a step of handler `h` does not lose. */
  function PortAfter(s: State, h: nat, proto: Proto, p: int): PortEntry
    requires h in s.handlers && p in s.bindings.Ports(proto)
  {
    var entry := s.bindings.Ports(proto)[p];
    if TakesOverPort(s, h, proto, p) then PortEntry(entry.tunnelID, p, Session(h)) else entry
  }

  lemma EffectOnPort(s: State, h: nat, available: bool, proto: Proto, p: int)
    requires h in s.handlers && !s.udp.crashed && p in s.bindings.Ports(proto)
    ensures var t, handler := Effect(s, h, available), s.handlers[h];
      && (p !in t.bindings.Ports(proto)
          <==> handler.phase == DropEntry(proto) && WantsPort(handler.hello, proto) && handler.hello.port == p)
      && (p in t.bindings.Ports(proto) ==> t.bindings.Ports(proto)[p] == PortAfter(s, h, proto, p))
  {
    hide TryHTTP, UdpRuns.Apply, Key, TcpListeners.Listen, TcpListeners.Unlisten;
  }

  /** A TCP or UDP entry is lost exactly to a kill of its tunnel or to the cleanup of some handler whose
      hello names its port; else it stays, or passes to a handler of the same tunnel. */
  lemma PortLostIff(server: Server, s: State, e: Event, proto: Proto, p: int)
    requires Enabled(server, s, e) && p in s.bindings.Ports(proto)
    ensures var before, after := s.bindings.Ports(proto), Apply(server, s, e).bindings.Ports(proto);
      && (p !in after <==> UnbindsPort(s, e, proto, p))
      && (p in after ==> after[p] == if e.Advance? then PortAfter(s, e.h, proto, p) else before[p])
  {
    if e.Advance? && e.step.Proceed? {
      EffectOnPort(s, e.h, e.step.available, proto, p);
    }
    hide Authorised, Next, Effect, UdpRuns.Apply, UdpRuns.Enabled, Tokens.HasActive, Tokens.Apply, Key;
  }

  lemma EffectKeepsListener(s: State, h: nat, available: bool, proto: Proto, p: int)
    requires h in s.handlers && !s.udp.crashed && p in Listeners(s, proto)
    ensures var t, handler := Effect(s, h, available), s.handlers[h];
      && (p !in Listeners(t, proto) <==> handler.phase == Shut(proto) && handler.hello.port == p)
      && (p in Listeners(t, proto) ==> Listeners(t, proto)[p] == Listeners(s, proto)[p])
  {
    hide TryHTTP, TryPort, Key;
  }

  /** A listener is lost exactly to the cleanup of some handler whose hello names its port; else it stays
      with the handler that opened it. */
  lemma ListenerLostIff(server: Server, s: State, e: Event, proto: Proto, p: int)
    requires Enabled(server, s, e) && p in Listeners(s, proto)
    ensures p !in Listeners(Apply(server, s, e), proto)
      <==> e.Advance? && Moves(s, e, e.h, Shut(proto)) && s.handlers[e.h].hello.port == p
    ensures p in Listeners(Apply(server, s, e), proto) ==>
      Listeners(Apply(server, s, e), proto)[p] == Listeners(s, proto)[p]
  {
    if e.Traffic? {
      TrafficKeepsConns(s.udp, e.udp);
    } else if e.Advance? && e.step.Proceed? {
      EffectKeepsListener(s, e.h, e.step.available, proto, p);
    }
    hide Authorised, Next, Effect, UdpRuns.Enabled, UdpRuns.Apply, Tokens.HasActive, Tokens.Apply, Key;
  }

  function KillEvents(tunnelID: string): seq<Event> {
    [KillHTTP(tunnelID), KillPorts(TCP, tunnelID)] + ([KillPorts(UDP, tunnelID)] + [])
  }

  /** A kill is possible at any time. It unbinds exactly the tunnel's entries and touches nothing else: the
      tunnel's handlers, listeners and UDP sessions stay. */
  lemma KillIs(server: Server, s: State, tunnelID: string)
    requires !s.udp.crashed && tunnelID != ""
    ensures var t := Run(server, s, KillEvents(tunnelID));
      && t.Some? && t.value == s.(bindings := t.value.bindings)
      && (forall k :: k in t.value.bindings.http <==> k in s.bindings.http && s.bindings.http[k].tunnelID != tunnelID)
      && (forall proto: Proto, p :: p in t.value.bindings.Ports(proto) <==>
        p in s.bindings.Ports(proto) && s.bindings.Ports(proto)[p].tunnelID != tunnelID)
  {
    var s1 := Apply(server, s, KillHTTP(tunnelID));
    var s2 := Apply(server, s1, KillPorts(TCP, tunnelID));
    var s3 := Apply(server, s2, KillPorts(UDP, tunnelID));
    assert ([KillPorts(UDP, tunnelID)] + [])[1..] == [];
    assert Run(server, s2, [KillPorts(UDP, tunnelID)] + []) == Some(s3);
    RunTwo(server, s, KillHTTP(tunnelID), KillPorts(TCP, tunnelID), [KillPorts(UDP, tunnelID)] + []);
  }

  // ---------- what stays ----------

  /** No event of the run is one that unbinds `k`. */
  ghost predicate Undisturbed(server: Server, s: State, events: seq<Event>, k: string)
    decreases |events|
  {
    events != [] && Enabled(server, s, events[0]) && k in s.bindings.http ==>
      !UnbindsHTTP(s, events[0], k) && Undisturbed(server, Apply(server, s, events[0]), events[1..], k)
  }

  lemma {:induction false} EntryKept(server: Server, s: State, events: seq<Event>, k: string)
    requires k in s.bindings.http && Run(server, s, events).Some? && Undisturbed(server, s, events, k)
    ensures k in Run(server, s, events).value.bindings.http
    ensures Run(server, s, events).value.bindings.http[k] == s.bindings.http[k]
    decreases |events|
  {
    hide Apply, Enabled;
    if events != [] {
      LostIff(server, s, events[0], k);
      EntryKept(server, Apply(server, s, events[0]), events[1..], k);
    }
  }

  lemma StrangerClears(server: Server, s: State, g: nat)
    requires !s.udp.crashed && g in s.handlers && s.handlers[g].phase == CheckToken
    requires s.handlers[g].checkedAgainst == None
    requires s.handlers[g].hello.kind != "hello" && WantsHTTP(s.handlers[g].hello)
    ensures Enabled(server, s, Advance(g, Check(false)))
    ensures var u := Apply(server, s, Advance(g, Check(false)));
      && Enabled(server, u, Advance(g, Proceed(true)))
      && var t := Apply(server, u, Advance(g, Proceed(true)));
      && g in t.handlers && t.handlers[g].checkedAgainst == None && t.handlers - {g} == s.handlers - {g}
      && Key(s.handlers[g].hello.subdomain) !in t.bindings.http
  {
    hide Key, Tokens.HasActive, Tokens.Validate, UdpRuns.Apply, UdpRuns.Enabled;
  }

  /** The converse of ownership fails: a handler that never passed the check takes a serving handler's
      entry away, in any state with such an entry, by naming the same subdomain. */
  lemma OwnerOutlivesEntry(server: Server, s: State, k: string, g: nat)
    requires Inv(server, s) && k in s.bindings.http && Holds(server, s, s.bindings.http[k].session.id, Serve)
    requires Enabled(server, s, Connect(g))
    ensures var owner := s.bindings.http[k].session.id;
      var hello := NO_HELLO.(subdomain := s.handlers[owner].hello.subdomain);
      var events := [Connect(g), Advance(g, Greet(hello))] + [Advance(g, Check(false)), Advance(g, Proceed(true))];
      && Run(server, s, events).Some?
      && var t := Run(server, s, events).value;
      && k !in t.bindings.http && owner in t.handlers && g in t.handlers && t.handlers[owner] == s.handlers[owner]
      && t.handlers[g].checkedAgainst == None
  {
    assert OwnsHTTP(server, s, k, s.bindings.http[k]);
    var owner := s.bindings.http[k].session.id;
    var hello := NO_HELLO.(subdomain := s.handlers[owner].hello.subdomain);
    StrangerArrives(server, s, g, hello);
    hide Inv, Apply, Enabled, Key, OwnsHTTP, Tokens.HasActive;
    var s2 := Apply(server, Apply(server, s, Connect(g)), Advance(g, Greet(hello)));
    assert s2.handlers[owner] == s.handlers[owner] && owner in s2.handlers - {g};
    StrangerClears(server, s2, g);
    RunTwo(server, s, Connect(g), Advance(g, Greet(hello)), [Advance(g, Check(false)), Advance(g, Proceed(true))]);
    RunTwo(server, s2, Advance(g, Check(false)), Advance(g, Proceed(true)), []);
    assert [Advance(g, Check(false)), Advance(g, Proceed(true))] + []
      == [Advance(g, Check(false)), Advance(g, Proceed(true))];
  }

  // ---------- a tunnel that reconnects ----------

  function RegisterEvents(g: nat): seq<Event> {
    [Onward(g), Onward(g)] + ([Onward(g), Onward(g)] + [])
  }

  function Serving(s: State, g: nat): State
    requires g in s.handlers
  {
    var hello := s.handlers[g].hello;
    s.(handlers := s.handlers[g := s.handlers[g].(phase := Serve)],
       bindings := s.bindings.(tcp := s.bindings.tcp[hello.port := PortEntry(hello.tunnelID, hello.port, Session(g))]))
  }

  /** A handler that asks only for a TCP port which its tunnel has already, with a listener open. */
  predicate Rejoins(s: State, g: nat) {
    && !s.udp.crashed && g in s.handlers
    && var hello := s.handlers[g].hello;
    && !WantsHTTP(hello) && WantsPort(hello, TCP) && hello.tunnelID != "" && hello.port in s.tcpListeners
    && hello.port in s.bindings.tcp && s.bindings.tcp[hello.port].tunnelID == hello.tunnelID
  }

  lemma RejoinerRegisters(server: Server, s: State, g: nat)
    requires Rejoins(s, g) && s.handlers[g].phase == AddHTTPEntry
    ensures Enabled(server, s, Onward(g)) && Enabled(server, Apply(server, s, Onward(g)), Onward(g))
    ensures Apply(server, Apply(server, s, Onward(g)), Onward(g))
      == Serving(s, g).(handlers := s.handlers[g := s.handlers[g].(phase := OpenTCP)])
  {
  }

  lemma RejoinerServes(server: Server, s: State, g: nat)
    requires Rejoins(s, g) && s.handlers[g].phase == OpenTCP
    ensures Enabled(server, s, Onward(g)) && Enabled(server, Apply(server, s, Onward(g)), Onward(g))
    ensures Apply(server, Apply(server, s, Onward(g)), Onward(g))
      == s.(handlers := s.handlers[g := s.handlers[g].(phase := Serve)])
  {
  }

  lemma SecondServes(server: Server, s: State, g: nat)
    requires Rejoins(s, g) && s.handlers[g].phase == AddHTTPEntry
    ensures Run(server, s, RegisterEvents(g)) == Some(Serving(s, g))
  {
    RejoinerRegisters(server, s, g);
    var s2 := Apply(server, Apply(server, s, Onward(g)), Onward(g));
    RejoinerServes(server, s2, g);
    assert s2.handlers[g := s.handlers[g].(phase := Serve)] == s.handlers[g := s.handlers[g].(phase := Serve)];
    hide Apply, Enabled, Onward;
    RunTwo(server, s, Onward(g), Onward(g), [Onward(g), Onward(g)] + []);
    RunTwo(server, s2, Onward(g), Onward(g), []);
  }

  function LeaveEvents(h: nat): seq<Event> {
    [Advance(h, Abandon), Onward(h)] + ([Onward(h), Onward(h)] + [])
  }

  function Left(s: State, h: nat): State
    requires h in s.handlers
  {
    var port := s.handlers[h].hello.port;
    s.(handlers := s.handlers[h := s.handlers[h].(phase := DropUDP)],
       bindings := s.bindings.(tcp := s.bindings.tcp - {port}), tcpListeners := s.tcpListeners - {port})
  }

  lemma FirstLeaves(server: Server, s: State, h: nat)
    requires !s.udp.crashed && h in s.handlers && s.handlers[h].phase == Serve
    requires !WantsHTTP(s.handlers[h].hello) && WantsPort(s.handlers[h].hello, TCP)
    ensures Run(server, s, LeaveEvents(h)) == Some(Left(s, h))
  {
    var s2 := Apply(server, Apply(server, s, Advance(h, Abandon)), Onward(h));
    assert s2 == s.(handlers := s.handlers[h := s.handlers[h].(phase := DropTCP)]);
    var s4 := Apply(server, Apply(server, s2, Onward(h)), Onward(h));
    assert s4.handlers == s.handlers[h := s.handlers[h].(phase := DropUDP)];
    assert s4 == Left(s, h);
    hide Apply, Enabled, Left;
    RunTwo(server, s, Advance(h, Abandon), Onward(h), [Onward(h), Onward(h)] + []);
    RunTwo(server, s2, Onward(h), Onward(h), []);
  }

  /** The handler whose session a bound TCP port has. */
  function OwnerOf(server: Server, s: State, p: int): (h: nat)
    requires Inv(server, s) && p in s.bindings.tcp
    ensures OwnsPortEntry(server, s, TCP, p, s.bindings.tcp[p]) && s.bindings.tcp[p].session == Session(h)
    ensures h in s.handlers
  {
    InvOwned(server, s);
    s.bindings.tcp[p].session.id
  }

  /** A tunnel that reconnects before its old connection has ended loses its port: the new handler takes the
      entry over and keeps serving, and the old one's cleanup removes that entry and closes the listener. */
  lemma ReconnectLosesPort(server: Server, s: State, p: int, g: nat)
    requires Inv(server, s) && p in s.bindings.tcp && p in s.tcpListeners && Enabled(server, s, Connect(g))
    requires var owner := s.handlers[OwnerOf(server, s, p)];
      && owner.phase == Serve && !WantsHTTP(owner.hello)
      && Authorised(server, s.tokens.rows, Tokens.HasActive(s.tokens.rows), owner.hello)
    ensures var h := OwnerOf(server, s, p);
      var t := Run(server, s, AdmitEvents(g, s.handlers[h].hello) + (RegisterEvents(g) + LeaveEvents(h)));
      && t.Some? && g in t.value.handlers && t.value.handlers[g].phase == Serve
      && t.value.handlers[g].hello == s.handlers[h].hello
      && p !in t.value.bindings.tcp && p !in t.value.tcpListeners
  {
    var h := OwnerOf(server, s, p);
    var hello := s.handlers[h].hello;
    PeerAdmitted(server, s, g, hello);
    var s1 := Admitted(s, g, hello);
    SecondServes(server, s1, g);
    var s2 := Serving(s1, g);
    FirstLeaves(server, s2, h);
    hide Run, Apply, Enabled, Inv, AdmitEvents, RegisterEvents, LeaveEvents;
    RunConcat(server, s, AdmitEvents(g, hello), RegisterEvents(g) + LeaveEvents(h));
    RunConcat(server, s1, RegisterEvents(g), LeaveEvents(h));
  }

  // ---------- both, from the start ----------

  /** From the start, for every such hello with a subdomain: its handler serves, its entry is gone, and the
      peer that took it away was never admitted. */
  lemma OutlivedFromStart(server: Server, tokens: Tokens.State, h: nat, g: nat, hello: Hello)
      returns (events: seq<Event>)
    requires Ready(server, tokens) && Welcomed(server, tokens, hello) && Registrable(hello)
    requires hello.subdomain != "" && g != h
    ensures Run(server, Init(tokens), events).Some?
    ensures var s := Run(server, Init(tokens), events).value;
      && h in s.handlers && s.handlers[h].phase == Serve && s.handlers[h].hello == hello
      && g in s.handlers && s.handlers[g].checkedAgainst == None && Key(hello.subdomain) !in s.bindings.http
  {
    var first := ServesFromStartIff(server, tokens, h, hello);
    WelcomedIff(server, tokens, hello);
    var s := ServesAlone(tokens, h, hello);
    InitInv(server, tokens);
    RunInv(server, Init(tokens), first);
    hide Run, Inv, Key, Authorised, Tokens.HasActive, Registrable, Welcomed, Ready;
    OwnerOutlivesEntry(server, s, Key(hello.subdomain), g);
    var last := [Connect(g), Advance(g, Greet(NO_HELLO.(subdomain := hello.subdomain)))]
      + [Advance(g, Check(false)), Advance(g, Proceed(true))];
    RunConcat(server, Init(tokens), first, last);
    events := first + last;
  }

  /** From the start, for every such hello for a TCP port alone: the tunnel's second connection serves without
      its entry and without a listener. */
  lemma ReconnectedFromStart(server: Server, tokens: Tokens.State, h: nat, g: nat, hello: Hello)
      returns (events: seq<Event>)
    requires Ready(server, tokens) && Welcomed(server, tokens, hello) && Registrable(hello)
    requires hello.subdomain == "" && hello.protocol == "tcp" && hello.port > 0 && g != h
    ensures Run(server, Init(tokens), events).Some?
    ensures var s := Run(server, Init(tokens), events).value;
      && g in s.handlers && s.handlers[g].phase == Serve && s.handlers[g].hello == hello
      && hello.port !in s.bindings.tcp && hello.port !in s.tcpListeners
  {
    var first := ServesFromStartIff(server, tokens, h, hello);
    WelcomedIff(server, tokens, hello);
    var s := ServesAlone(tokens, h, hello);
    InitInv(server, tokens);
    RunInv(server, Init(tokens), first);
    hide Run, Inv, AdmitEvents, RegisterEvents, LeaveEvents, Authorised, Tokens.HasActive, Welcomed, Ready;
    ReconnectLosesPort(server, s, hello.port, g);
    var last := AdmitEvents(g, hello) + (RegisterEvents(g) + LeaveEvents(h));
    RunConcat(server, Init(tokens), first, last);
    events := first + last;
  }
}
