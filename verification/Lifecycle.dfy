/** Every relay connection at once: handlers authenticate, register, open listeners, run and clean up,
    while admin kills, token operations and public traffic interleave with them, one locked region per step. */
module Lifecycle {
  import opened Wrappers
  import opened Text
  import opened Tunnels
  import Tokens
  import TcpListeners
  import UdpRuns

  datatype Hello = Hello(
    kind: string, token: string, tunnelID: string, protocol: string,
    subdomain: string, allowlist: seq<string>, port: int)

  const NO_HELLO := Hello("", "", "", "", "", [], 0)

  /** Where a handler is in its code; each phase is named after what it does next. */
  datatype Phase =
    | ReadHello | CheckToken | Welcome
    | AddHTTPEntry | AddTCPEntry | OpenTCP | AddUDPEntry | OpenUDP
    | Serve
    | DropHTTP | DropTCP | ShutTCP | DropUDP | ShutUDP | CloseSession
    | Gone

  /** `checkedAgainst` is the token table when the handler passed its token check. */
  datatype Handler = Handler(hello: Hello, storedAuth: bool, checkedAgainst: Option<Tokens.Table>, phase: Phase)

  datatype Server = Server(hash: Tokens.Hash, config: string)

  datatype State = State(
    handlers: map<nat, Handler>, bindings: Bindings, tcpListeners: TcpListeners.Table,
    udp: UdpRuns.State, tokens: Tokens.State)

  function Init(tokens: Tokens.State): State {
    State(map[], Bindings(map[], map[], map[]), map[], UdpRuns.INIT, tokens)
  }

  datatype Step =
    | Greet(hello: Hello)                 // ReadJSON of the hello; the cleanup is armed from here on
    | Check(storeFails: bool)             // the token check
    | Proceed(available: bool)            // the next registration, listener or cleanup step
    | Abandon                             // a stream error: before the hello, at hello_ok, or while serving

  datatype Event =
    | Connect(h: nat)
    | Advance(h: nat, step: Step)
    | KillHTTP(tunnelID: string)
    | KillPorts(proto: Proto, tunnelID: string)
    | TokenCall(op: Tokens.Op, fault: bool)
    | Traffic(udp: UdpRuns.Event)

  // ---------- one handler ----------

  predicate Authorised(server: Server, tokens: Tokens.Table, storedAuth: bool, hello: Hello) {
    && hello.kind == "hello"
    && if storedAuth then Tokens.Validate(server.hash, tokens, hello.token) else hello.token == server.config
  }

  predicate WantsHTTP(hello: Hello) {
    hello.subdomain != ""
  }

  predicate WantsPort(hello: Hello, proto: Proto) {
    hello.protocol == (if proto.TCP? then "tcp" else "udp") && hello.port != 0
  }

  predicate CanAdvance(s: State, h: nat, step: Step) {
    && h in s.handlers
    && var phase := s.handlers[h].phase;
    match step
    case Greet(_) => phase.ReadHello?
    case Check(_) => phase.CheckToken?
    case Proceed(_) => !phase.ReadHello? && !phase.CheckToken? && !phase.Serve? && !phase.Gone?
    case Abandon => phase.ReadHello? || phase.Welcome? || phase.Serve?
  }

  function At(s: State, h: nat, phase: Phase): State
    requires h in s.handlers
  {
    s.(handlers := s.handlers[h := s.handlers[h].(phase := phase)])
  }

  function TryHTTP(s: State, h: nat): Registration<HTTPMap>
    requires h in s.handlers
  {
    var hello := s.handlers[h].hello;
    if WantsHTTP(hello) then AddHTTP(s.bindings.http, hello.tunnelID, Session(h), hello.subdomain, hello.allowlist)
    else Registered(s.bindings.http)
  }

  function TryPort(s: State, h: nat, proto: Proto): Registration<PortMap>
    requires h in s.handlers
  {
    var hello := s.handlers[h].hello;
    if WantsPort(hello, proto) then AddPort(s.bindings.Ports(proto), hello.tunnelID, Session(h), hello.port)
    else Registered(s.bindings.Ports(proto))
  }

  /** Where a handler goes next: a refused registration and a panic send it to its cleanup. */
  function Next(s: State, h: nat): Phase
    requires h in s.handlers
  {
    var hello := s.handlers[h].hello;
    match s.handlers[h].phase
    case Welcome => AddHTTPEntry
    case AddHTTPEntry => if TryHTTP(s, h).Refused? then DropHTTP else AddTCPEntry
    case AddTCPEntry =>
      if TryPort(s, h, TCP).Refused? then DropHTTP else if WantsPort(hello, TCP) then OpenTCP else AddUDPEntry
    case OpenTCP => if TcpListeners.Panics(s.tcpListeners, hello.port) then DropHTTP else AddUDPEntry
    case AddUDPEntry =>
      if TryPort(s, h, UDP).Refused? then DropHTTP else if WantsPort(hello, UDP) then OpenUDP else Serve
    case OpenUDP => Serve
    case DropHTTP => DropTCP
    case DropTCP => if WantsPort(hello, TCP) then ShutTCP else DropUDP
    case ShutTCP => DropUDP
    case DropUDP => if WantsPort(hello, UDP) then ShutUDP else CloseSession
    case ShutUDP => CloseSession
    case CloseSession => Gone
    case other => other
  }

  /** What the handler's current step does to the shared tables. */
  function Effect(s: State, h: nat, available: bool): (t: State)
    requires h in s.handlers && !s.udp.crashed
    ensures t.handlers == s.handlers && t.tokens == s.tokens
  {
    var hello := s.handlers[h].hello;
    match s.handlers[h].phase
    case AddHTTPEntry =>
      var r := TryHTTP(s, h);
      if r.Refused? then s else s.(bindings := s.bindings.(http := r.entries))
    case AddTCPEntry =>
      var r := TryPort(s, h, TCP);
      if r.Refused? then s else s.(bindings := s.bindings.(tcp := r.entries))
    case AddUDPEntry =>
      var r := TryPort(s, h, UDP);
      if r.Refused? then s else s.(bindings := s.bindings.(udp := r.entries))
    case OpenTCP => s.(tcpListeners := TcpListeners.Listen(s.tcpListeners, hello.port, h, available))
    case OpenUDP => s.(udp := UdpRuns.Apply(s.udp, UdpRuns.Ensure(hello.port, h, available)))
    case DropHTTP =>
      if WantsHTTP(hello) then s.(bindings := s.bindings.(http := s.bindings.http - {Key(hello.subdomain)})) else s
    case DropTCP =>
      if WantsPort(hello, TCP) then s.(bindings := s.bindings.(tcp := s.bindings.tcp - {hello.port})) else s
    case ShutTCP => s.(tcpListeners := TcpListeners.Unlisten(s.tcpListeners, hello.port))
    case DropUDP =>
      if WantsPort(hello, UDP) then s.(bindings := s.bindings.(udp := s.bindings.udp - {hello.port})) else s
    case ShutUDP => s.(udp := UdpRuns.Apply(s.udp, UdpRuns.Remove(hello.port)))
    case _ => s
  }

  function ProceedFrom(s: State, h: nat, available: bool): State
    requires CanAdvance(s, h, Proceed(available)) && !s.udp.crashed
  {
    At(Effect(s, h, available), h, Next(s, h))
  }

  function ApplyAdvance(server: Server, s: State, h: nat, step: Step): State
    requires CanAdvance(s, h, step) && !s.udp.crashed
  {
    var handler := s.handlers[h];
    match step
    case Greet(hello) => s.(handlers := s.handlers[h := handler.(hello := hello, phase := CheckToken)])
    case Check(storeFails) =>
      if Authorised(server, s.tokens.rows, handler.storedAuth, handler.hello) && !(handler.storedAuth && storeFails)
      then s.(handlers := s.handlers[h := handler.(checkedAgainst := Some(s.tokens.rows), phase := Welcome)])
      else At(s, h, DropHTTP)
    case Proceed(available) => ProceedFrom(s, h, available)
    case Abandon => At(s, h, if handler.phase.ReadHello? then Gone else DropHTTP)
  }

  predicate Enabled(server: Server, s: State, e: Event) {
    && !s.udp.crashed
    && match e
       case Connect(h) => h !in s.handlers && (Tokens.HasActive(s.tokens.rows) || server.config != "")
       case Advance(h, step) => CanAdvance(s, h, step)
       case TokenCall(op, _) => Tokens.Enabled(s.tokens, op)
       case Traffic(u) =>
         && !u.Ensure? && !u.Remove? && UdpRuns.Enabled(s.udp, u)
         && (u.Obtain? && u.obtain.Lookup? ==> (u.obtain.found <==> s.udp.handlers[u.h].cause.port in s.bindings.udp))
       case _ => true
  }

  function Apply(server: Server, s: State, e: Event): State
    requires Enabled(server, s, e)
  {
    match e
    case Connect(h) =>
      var handler := Handler(NO_HELLO, Tokens.HasActive(s.tokens.rows), None, ReadHello);
      s.(handlers := s.handlers[h := handler])
    case Advance(h, step) => ApplyAdvance(server, s, h, step)
    case KillHTTP(tunnelID) => s.(bindings := s.bindings.(http := WithoutHTTPTunnel(s.bindings.http, tunnelID)))
    case KillPorts(proto, tunnelID) =>
      s.(bindings := s.bindings.WithPorts(proto, WithoutPortTunnel(s.bindings.Ports(proto), tunnelID)))
    case TokenCall(op, fault) => s.(tokens := Tokens.Apply(server.hash, s.tokens, op, fault))
    case Traffic(u) => s.(udp := UdpRuns.Apply(s.udp, u))
  }

  function Run(server: Server, s: State, events: seq<Event>): Option<State>
    decreases |events|
  {
    if events == [] then Some(s)
    else if Enabled(server, s, events[0]) then Run(server, Apply(server, s, events[0]), events[1..])
    else None
  }

  // ---------- ownership ----------

  function Rank(phase: Phase): nat {
    match phase
    case ReadHello => 0 case CheckToken => 1 case Welcome => 2 case AddHTTPEntry => 3 case AddTCPEntry => 4
    case OpenTCP => 5 case AddUDPEntry => 6 case OpenUDP => 7 case Serve => 8 case DropHTTP => 9
    case DropTCP => 10 case ShutTCP => 11 case DropUDP => 12 case ShutUDP => 13 case CloseSession => 14 case Gone => 15
  }

  /** The handler passed its token check and its own step `removal` is still ahead. */
  predicate Holds(server: Server, s: State, h: nat, removal: Phase) {
    && h in s.handlers
    && var handler := s.handlers[h];
    && handler.checkedAgainst.Some?
    && Authorised(server, handler.checkedAgainst.value, handler.storedAuth, handler.hello)
    && Rank(handler.phase) <= Rank(removal)
  }

  predicate OwnsHTTP(server: Server, s: State, k: string, e: HTTPEntry) {
    && e.session.Session? && Holds(server, s, e.session.id, DropHTTP)
    && var hello := s.handlers[e.session.id].hello;
    WantsHTTP(hello) && k == Key(hello.subdomain) == e.subdomain && e.tunnelID == hello.tunnelID
      && e.allowlist == hello.allowlist
  }

  predicate OwnsPort(server: Server, s: State, proto: Proto, p: int, h: nat, removal: Phase) {
    Holds(server, s, h, removal) && WantsPort(s.handlers[h].hello, proto) && p == s.handlers[h].hello.port
  }

  predicate OwnsPortEntry(server: Server, s: State, proto: Proto, p: int, e: PortEntry) {
    && e.session.Session?
    && OwnsPort(server, s, proto, p, e.session.id, if proto.TCP? then DropTCP else DropUDP)
    && e.port == p && e.tunnelID == s.handlers[e.session.id].hello.tunnelID != ""
  }

  /** A handler is at a listener step only for a port it asked for. */
  predicate PhaseFits(hello: Hello, phase: Phase) {
    && (phase.OpenTCP? || phase.ShutTCP? ==> WantsPort(hello, TCP))
    && (phase.OpenUDP? || phase.ShutUDP? ==> WantsPort(hello, UDP))
  }

  /** Only a handler that passed its check is past it, unless it is on its way out. */
  predicate HandlerOk(server: Server, handler: Handler) {
    && (handler.checkedAgainst.Some? ==>
      Authorised(server, handler.checkedAgainst.value, handler.storedAuth, handler.hello))
    && (Rank(Welcome) <= Rank(handler.phase) <= Rank(Serve) ==> handler.checkedAgainst.Some?)
    && (handler.checkedAgainst.Some? ==> Rank(handler.phase) >= Rank(Welcome))
    && PhaseFits(handler.hello, handler.phase)
  }

  ghost predicate HandlersInv(server: Server, s: State) {
    forall h :: h in s.handlers ==> HandlerOk(server, s.handlers[h])
  }

  ghost predicate HTTPInv(server: Server, s: State) {
    forall k :: k in s.bindings.http ==> OwnsHTTP(server, s, k, s.bindings.http[k])
  }

  ghost predicate PortInv(server: Server, s: State, proto: Proto) {
    forall p :: p in s.bindings.Ports(proto) ==> OwnsPortEntry(server, s, proto, p, s.bindings.Ports(proto)[p])
  }

  /** Open listeners by port, with the handler that opened them. */
  function Listeners(s: State, proto: Proto): map<int, nat> {
    if proto.TCP? then s.tcpListeners else s.udp.table.conns
  }

  function Shut(proto: Proto): Phase {
    if proto.TCP? then ShutTCP else ShutUDP
  }

  function Open(proto: Proto): Phase {
    if proto.TCP? then OpenTCP else OpenUDP
  }

  ghost predicate ListenerInv(server: Server, s: State) {
    forall proto: Proto, p :: p in Listeners(s, proto) ==>
      OwnsPort(server, s, proto, p, Listeners(s, proto)[p], Shut(proto))
  }

  ghost predicate Inv(server: Server, s: State) {
    && HandlersInv(server, s) && HTTPInv(server, s) && PortInv(server, s, TCP) && PortInv(server, s, UDP)
    && ListenerInv(server, s) && UdpRuns.Inv(s.udp)
  }

  // ---------- what one step changes ----------

  predicate Moves(s: State, e: Event, h: nat, phase: Phase) {
    e.Advance? && e.h == h && h in s.handlers && s.handlers[h].phase == phase
  }

  lemma OthersStay(server: Server, s: State, e: Event, g: nat)
    requires Enabled(server, s, e) && g in s.handlers && !(e.Advance? && e.h == g)
    ensures g in Apply(server, s, e).handlers && Apply(server, s, e).handlers[g] == s.handlers[g]
  {
    hide Authorised, Effect, Next, UdpRuns.Apply, UdpRuns.Enabled, Tokens.HasActive, Tokens.Apply;
  }

  lemma NextFits(s: State, h: nat, available: bool)
    requires CanAdvance(s, h, Proceed(available))
    ensures PhaseFits(s.handlers[h].hello, Next(s, h)) && Rank(Next(s, h)) > Rank(s.handlers[h].phase)
  {
    hide TryHTTP, TryPort, WantsPort;
  }

  lemma AdvanceHandler(server: Server, s: State, h: nat, step: Step)
    requires h in s.handlers && HandlerOk(server, s.handlers[h]) && CanAdvance(s, h, step) && !s.udp.crashed
    ensures var t := ApplyAdvance(server, s, h, step); h in t.handlers && HandlerOk(server, t.handlers[h])
  {
    if step.Proceed? {
      NextFits(s, h, step.available);
    }
    hide Authorised, Effect, Next, WantsPort;
  }

  lemma StepHandler(server: Server, s: State, e: Event, g: nat)
    requires HandlersInv(server, s) && Enabled(server, s, e) && g in Apply(server, s, e).handlers
    ensures HandlerOk(server, Apply(server, s, e).handlers[g])
  {
    if g in s.handlers {
      assert HandlerOk(server, s.handlers[g]);
      if e.Advance? && e.h == g {
        AdvanceHandler(server, s, g, e.step);
      } else {
        OthersStay(server, s, e, g);
      }
    }
    hide HandlersInv, Authorised, ApplyAdvance, UdpRuns.Apply, UdpRuns.Enabled, Tokens.HasActive, Tokens.Apply;
  }

  lemma ProceedHolds(server: Server, s: State, h: nat, available: bool, removal: Phase)
    requires CanAdvance(s, h, Proceed(available)) && !s.udp.crashed && Holds(server, s, h, removal)
    requires removal in {DropHTTP, DropTCP, ShutTCP, DropUDP, ShutUDP} && s.handlers[h].phase != removal
    requires removal == ShutTCP ==> WantsPort(s.handlers[h].hello, TCP)
    requires removal == ShutUDP ==> WantsPort(s.handlers[h].hello, UDP)
    ensures Holds(server, ProceedFrom(s, h, available), h, removal)
    ensures ProceedFrom(s, h, available).handlers[h].hello == s.handlers[h].hello
  {
    hide Authorised, Effect, TryHTTP, TryPort, WantsPort;
  }

  /** What a handler holds it keeps holding, whoever moves, until it takes that removal step itself. */
  lemma HoldsStep(server: Server, s: State, e: Event, g: nat, removal: Phase)
    requires Enabled(server, s, e) && Holds(server, s, g, removal) && HandlerOk(server, s.handlers[g])
    requires removal in {DropHTTP, DropTCP, ShutTCP, DropUDP, ShutUDP} && !Moves(s, e, g, removal)
    requires removal == ShutTCP ==> WantsPort(s.handlers[g].hello, TCP)
    requires removal == ShutUDP ==> WantsPort(s.handlers[g].hello, UDP)
    ensures Holds(server, Apply(server, s, e), g, removal)
    ensures Apply(server, s, e).handlers[g].hello == s.handlers[g].hello
  {
    if !(e.Advance? && e.h == g) {
      OthersStay(server, s, e, g);
      hide Apply, Enabled;
    } else if e.step.Proceed? {
      ProceedHolds(server, s, g, e.step.available, removal);
      hide ProceedFrom, Authorised;
    } else {
      hide ProceedFrom, Authorised;
    }
  }

  /** An HTTP entry present after a step was there before, its key not being removed, or was just registered. */
  lemma HTTPStep(server: Server, s: State, e: Event, k: string)
    requires Enabled(server, s, e) && k in Apply(server, s, e).bindings.http
    ensures var entry := Apply(server, s, e).bindings.http[k];
      || (&& k in s.bindings.http && entry == s.bindings.http[k]
          && (forall h :: Moves(s, e, h, DropHTTP) && WantsHTTP(s.handlers[h].hello) ==>
            k != Key(s.handlers[h].hello.subdomain)))
      || (&& e.Advance? && Moves(s, e, e.h, AddHTTPEntry)
          && var hello := s.handlers[e.h].hello;
             WantsHTTP(hello) && k == Key(hello.subdomain)
             && entry == HTTPEntry(hello.tunnelID, k, hello.allowlist, Session(e.h)))
  {
    hide Authorised, Next, TryPort, UdpRuns.Apply, UdpRuns.Enabled, Tokens.HasActive, Tokens.Apply, Key;
  }

  lemma EffectOnPorts(s: State, h: nat, available: bool, proto: Proto, p: int)
    requires h in s.handlers && !s.udp.crashed && p in Effect(s, h, available).bindings.Ports(proto)
    ensures var entry, handler := Effect(s, h, available).bindings.Ports(proto)[p], s.handlers[h];
      var hello := handler.hello;
      || (&& p in s.bindings.Ports(proto) && entry == s.bindings.Ports(proto)[p]
          && !(handler.phase == (if proto.TCP? then DropTCP else DropUDP) && WantsPort(hello, proto)
            && p == hello.port))
      || (&& handler.phase == (if proto.TCP? then AddTCPEntry else AddUDPEntry) && WantsPort(hello, proto)
          && p == hello.port && hello.tunnelID != "" && entry == PortEntry(hello.tunnelID, p, Session(h)))
  {
    hide TryHTTP, UdpRuns.Apply, Key;
  }

  lemma PortStep(server: Server, s: State, e: Event, proto: Proto, p: int)
    requires Enabled(server, s, e) && p in Apply(server, s, e).bindings.Ports(proto)
    ensures var entry := Apply(server, s, e).bindings.Ports(proto)[p];
      || (&& p in s.bindings.Ports(proto) && entry == s.bindings.Ports(proto)[p]
          && (forall h ::
            Moves(s, e, h, if proto.TCP? then DropTCP else DropUDP) && WantsPort(s.handlers[h].hello, proto) ==>
              p != s.handlers[h].hello.port))
      || (&& e.Advance? && Moves(s, e, e.h, if proto.TCP? then AddTCPEntry else AddUDPEntry)
          && var hello := s.handlers[e.h].hello;
             WantsPort(hello, proto) && p == hello.port && hello.tunnelID != ""
             && entry == PortEntry(hello.tunnelID, p, Session(e.h)))
  {
    if e.Advance? && e.step.Proceed? {
      EffectOnPorts(s, e.h, e.step.available, proto, p);
    }
    hide Authorised, Next, Effect, WantsPort, UdpRuns.Apply, UdpRuns.Enabled, Tokens.HasActive, Tokens.Apply, Key;
  }

  lemma TrafficKeepsConns(s: UdpRuns.State, u: UdpRuns.Event)
    requires UdpRuns.Enabled(s, u) && !u.Ensure? && !u.Remove?
    ensures UdpRuns.Apply(s, u).table.conns == s.table.conns
  {
    hide UdpRuns.ApplyObtain, UdpRuns.ApplyDeliver, UdpRuns.ApplyRead;
  }

  lemma EffectOnListeners(s: State, h: nat, available: bool, proto: Proto, p: int)
    requires h in s.handlers && !s.udp.crashed && p in Listeners(Effect(s, h, available), proto)
    ensures var owner, handler := Listeners(Effect(s, h, available), proto)[p], s.handlers[h];
      || (p in Listeners(s, proto) && owner == Listeners(s, proto)[p]
        && !(handler.phase == Shut(proto) && p == handler.hello.port))
      || (owner == h && handler.phase == Open(proto) && p == handler.hello.port)
  {
    hide TryHTTP, TryPort, Key;
  }

  lemma ListenerStep(server: Server, s: State, e: Event, proto: Proto, p: int)
    requires Enabled(server, s, e) && p in Listeners(Apply(server, s, e), proto)
    ensures var owner := Listeners(Apply(server, s, e), proto)[p];
      || (&& p in Listeners(s, proto) && owner == Listeners(s, proto)[p]
          && (forall h :: Moves(s, e, h, Shut(proto)) ==> p != s.handlers[h].hello.port))
      || (e.Advance? && owner == e.h && Moves(s, e, e.h, Open(proto)) && p == s.handlers[e.h].hello.port)
  {
    if e.Traffic? {
      TrafficKeepsConns(s.udp, e.udp);
    } else if e.Advance? && e.step.Proceed? {
      EffectOnListeners(s, e.h, e.step.available, proto, p);
    }
    hide Authorised, Next, Effect, UdpRuns.Enabled, UdpRuns.Apply, Tokens.HasActive, Tokens.Apply, Key;
  }

  // ---------- the invariant ----------

  lemma StepOwnsHTTP(server: Server, s: State, e: Event, k: string)
    requires HandlersInv(server, s) && HTTPInv(server, s) && Enabled(server, s, e)
    requires k in Apply(server, s, e).bindings.http
    ensures OwnsHTTP(server, Apply(server, s, e), k, Apply(server, s, e).bindings.http[k])
  {
    HTTPStep(server, s, e, k);
    hide Apply, Enabled, Authorised, Key;
    var entry := Apply(server, s, e).bindings.http[k];
    if k in s.bindings.http && entry == s.bindings.http[k] {
      assert OwnsHTTP(server, s, k, entry);
    }
    HoldsStep(server, s, e, entry.session.id, DropHTTP);
  }

  /** An entry keeps its owner in a step in which the owner does not remove it. */
  lemma KeepsPortOwner(server: Server, s: State, e: Event, proto: Proto, p: int, entry: PortEntry)
    requires HandlersInv(server, s) && Enabled(server, s, e) && OwnsPortEntry(server, s, proto, p, entry)
    requires !Moves(s, e, entry.session.id, if proto.TCP? then DropTCP else DropUDP)
    ensures OwnsPortEntry(server, Apply(server, s, e), proto, p, entry)
  {
    hide Apply, Enabled, Authorised, WantsPort;
    HoldsStep(server, s, e, entry.session.id, if proto.TCP? then DropTCP else DropUDP);
  }

  lemma NewPortOwner(server: Server, s: State, e: Event, proto: Proto, p: int)
    requires HandlersInv(server, s) && Enabled(server, s, e) && e.Advance?
    requires Moves(s, e, e.h, if proto.TCP? then AddTCPEntry else AddUDPEntry)
    requires var hello := s.handlers[e.h].hello; WantsPort(hello, proto) && p == hello.port && hello.tunnelID != ""
    ensures OwnsPortEntry(server, Apply(server, s, e), proto, p,
      PortEntry(s.handlers[e.h].hello.tunnelID, p, Session(e.h)))
  {
    hide Apply, Enabled, Authorised, WantsPort;
    HoldsStep(server, s, e, e.h, if proto.TCP? then DropTCP else DropUDP);
  }

  lemma StepOwnsPortEntry(server: Server, s: State, e: Event, proto: Proto, p: int)
    requires HandlersInv(server, s) && PortInv(server, s, proto) && Enabled(server, s, e)
    requires p in Apply(server, s, e).bindings.Ports(proto)
    ensures OwnsPortEntry(server, Apply(server, s, e), proto, p, Apply(server, s, e).bindings.Ports(proto)[p])
  {
    PortStep(server, s, e, proto, p);
    hide Apply, Enabled, Authorised, WantsPort, Holds;
    var entry := Apply(server, s, e).bindings.Ports(proto)[p];
    if p in s.bindings.Ports(proto) && entry == s.bindings.Ports(proto)[p] {
      assert OwnsPortEntry(server, s, proto, p, entry);
      if !Moves(s, e, entry.session.id, if proto.TCP? then DropTCP else DropUDP) {
        KeepsPortOwner(server, s, e, proto, p, entry);
        return;
      }
    }
    NewPortOwner(server, s, e, proto, p);
  }

  lemma StepOwnsListener(server: Server, s: State, e: Event, proto: Proto, p: int)
    requires HandlersInv(server, s) && ListenerInv(server, s) && Enabled(server, s, e)
    requires p in Listeners(Apply(server, s, e), proto)
    ensures OwnsPort(server, Apply(server, s, e), proto, p, Listeners(Apply(server, s, e), proto)[p], Shut(proto))
  {
    ListenerStep(server, s, e, proto, p);
    hide Apply, Enabled, Authorised, WantsPort;
    var owner := Listeners(Apply(server, s, e), proto)[p];
    if p in Listeners(s, proto) && owner == Listeners(s, proto)[p] {
      assert OwnsPort(server, s, proto, p, owner, Shut(proto));
    }
    HoldsStep(server, s, e, owner, Shut(proto));
  }

  lemma StepUdp(server: Server, s: State, e: Event)
    requires UdpRuns.Inv(s.udp) && Enabled(server, s, e)
    ensures UdpRuns.Inv(Apply(server, s, e).udp)
  {
    hide UdpRuns.Inv, UdpRuns.Apply;
    if e.Traffic? {
      UdpRuns.StepInv(s.udp, e.udp);
    } else if e.Advance? && e.step.Proceed? {
      var port := s.handlers[e.h].hello.port;
      UdpRuns.StepInv(s.udp, UdpRuns.Ensure(port, e.h, e.step.available));
      UdpRuns.StepInv(s.udp, UdpRuns.Remove(port));
    }
    hide Authorised, Key, TryHTTP, TryPort, WantsHTTP, WantsPort, Next;
  }

  lemma StepInv(server: Server, s: State, e: Event)
    requires Inv(server, s) && Enabled(server, s, e)
    ensures Inv(server, Apply(server, s, e))
  {
    var t := Apply(server, s, e);
    forall g | g in t.handlers ensures HandlerOk(server, t.handlers[g]) {
      StepHandler(server, s, e, g);
    }
    forall k | k in t.bindings.http ensures OwnsHTTP(server, t, k, t.bindings.http[k]) {
      StepOwnsHTTP(server, s, e, k);
    }
    forall p | p in t.bindings.tcp ensures OwnsPortEntry(server, t, TCP, p, t.bindings.tcp[p]) {
      StepOwnsPortEntry(server, s, e, TCP, p);
    }
    forall p | p in t.bindings.udp ensures OwnsPortEntry(server, t, UDP, p, t.bindings.udp[p]) {
      StepOwnsPortEntry(server, s, e, UDP, p);
    }
    forall proto: Proto, p | p in Listeners(t, proto)
      ensures OwnsPort(server, t, proto, p, Listeners(t, proto)[p], Shut(proto))
    {
      StepOwnsListener(server, s, e, proto, p);
    }
    StepUdp(server, s, e);
    hide Apply, Enabled, HandlerOk, OwnsHTTP, OwnsPort, OwnsPortEntry, UdpRuns.Inv;
    assert ListenerInv(server, t);
  }

  lemma {:induction false} RunInv(server: Server, s: State, events: seq<Event>)
    requires Inv(server, s) && Run(server, s, events).Some?
    ensures Inv(server, Run(server, s, events).value)
    decreases |events|
  {
    hide Inv, Enabled, Apply;
    if events != [] {
      StepInv(server, s, events[0]);
      RunInv(server, Apply(server, s, events[0]), events[1..]);
    }
  }

  // ---------- whole runs ----------

  ghost predicate AllOwned(server: Server, s: State) {
    && (forall k :: k in s.bindings.http ==> OwnsHTTP(server, s, k, s.bindings.http[k]))
    && (forall p :: p in s.bindings.tcp ==> OwnsPortEntry(server, s, TCP, p, s.bindings.tcp[p]))
    && (forall p :: p in s.bindings.udp ==> OwnsPortEntry(server, s, UDP, p, s.bindings.udp[p]))
    && (forall p :: p in s.tcpListeners ==> OwnsPort(server, s, TCP, p, s.tcpListeners[p], ShutTCP))
    && (forall p :: p in s.udp.table.conns ==> OwnsPort(server, s, UDP, p, s.udp.table.conns[p], ShutUDP))
  }

  lemma InvOwned(server: Server, s: State)
    requires Inv(server, s)
    ensures AllOwned(server, s)
  {
    hide OwnsHTTP, OwnsPort, OwnsPortEntry, UdpRuns.Inv;
    assert s.bindings.Ports(TCP) == s.bindings.tcp && s.bindings.Ports(UDP) == s.bindings.udp;
    assert Listeners(s, TCP) == s.tcpListeners && Listeners(s, UDP) == s.udp.table.conns;
  }

  lemma InitInv(server: Server, tokens: Tokens.State)
    ensures Inv(server, Init(tokens))
  {
    assert forall proto: Proto :: Listeners(Init(tokens), proto) == map[];
  }

  /** In every state of every interleaving, each registry entry and each open listener was made by a
      handler that passed its token check, whose hello asked for exactly that key or port, and that has
      not yet taken its own removal step, hence not closed its session. */
  lemma EverythingIsOwned(server: Server, tokens: Tokens.State, events: seq<Event>)
    requires Run(server, Init(tokens), events).Some?
    ensures AllOwned(server, Run(server, Init(tokens), events).value)
  {
    hide Inv, Run, AllOwned;
    InitInv(server, tokens);
    RunInv(server, Init(tokens), events);
    InvOwned(server, Run(server, Init(tokens), events).value);
  }

  lemma GoneHoldsNothing(server: Server, s: State, h: nat, removal: Phase)
    requires forall h :: h in s.handlers ==> s.handlers[h].phase == Gone
    requires Rank(removal) < Rank(Gone)
    ensures !Holds(server, s, h, removal)
  {
  }

  lemma QuietState(server: Server, s: State)
    requires AllOwned(server, s) && s.udp.table.conns.Keys == s.udp.table.sessions.Keys
    requires forall h :: h in s.handlers ==> s.handlers[h].phase == Gone
    ensures s.bindings == Bindings(map[], map[], map[]) && s.tcpListeners == map[]
    ensures s.udp.table.conns == map[] && s.udp.table.sessions == map[]
  {
    hide Authorised, Key, WantsHTTP, WantsPort, Holds;
    forall k ensures k !in s.bindings.http {
      if k in s.bindings.http {
        GoneHoldsNothing(server, s, s.bindings.http[k].session.id, DropHTTP);
      }
    }
    forall p ensures p !in s.bindings.tcp && p !in s.bindings.udp {
      if p in s.bindings.tcp {
        GoneHoldsNothing(server, s, s.bindings.tcp[p].session.id, DropTCP);
      }
      if p in s.bindings.udp {
        GoneHoldsNothing(server, s, s.bindings.udp[p].session.id, DropUDP);
      }
    }
    forall p ensures p !in s.tcpListeners && p !in s.udp.table.conns {
      if p in s.tcpListeners {
        GoneHoldsNothing(server, s, s.tcpListeners[p], ShutTCP);
      }
      if p in s.udp.table.conns {
        GoneHoldsNothing(server, s, s.udp.table.conns[p], ShutUDP);
      }
    }
  }

  /** Once every handler has finished its cleanup nothing is registered, nothing listens and no UDP
      session is left, whatever conflicts, re-registrations and failed listens there were. */
  lemma Quiescence(server: Server, tokens: Tokens.State, events: seq<Event>)
    requires Run(server, Init(tokens), events).Some?
    requires var s := Run(server, Init(tokens), events).value;
      forall h :: h in s.handlers ==> s.handlers[h].phase == Gone
    ensures var s := Run(server, Init(tokens), events).value;
      && s.bindings == Bindings(map[], map[], map[]) && s.tcpListeners == map[]
      && s.udp.table.conns == map[] && s.udp.table.sessions == map[]
  {
    InitInv(server, tokens);
    RunInv(server, Init(tokens), events);
    hide Run, AllOwned;
    var s := Run(server, Init(tokens), events).value;
    InvOwned(server, s);
    QuietState(server, s);
  }

  /** With a token in the store from the start, no connection is ever admitted on the configured token:
      every owner presented a token that was active in the store when it was checked. */
  ghost predicate StoreDecides(s: State) {
    && Tokens.HasActive(s.tokens.rows)
    && (forall h :: h in s.handlers ==> s.handlers[h].storedAuth)
  }

  lemma StepStoreDecides(server: Server, s: State, e: Event)
    requires StoreDecides(s) && Enabled(server, s, e)
    ensures StoreDecides(Apply(server, s, e))
  {
    hide Tokens.HasActive, Tokens.Apply, Authorised, Effect, Next, UdpRuns.Apply, UdpRuns.Enabled;
    if e.TokenCall? {
      Tokens.StepKeeps(server.hash, s.tokens, e.op, e.fault);
    }
  }

  lemma {:induction false} RunStoreDecides(server: Server, s: State, events: seq<Event>)
    requires StoreDecides(s) && Run(server, s, events).Some?
    ensures StoreDecides(Run(server, s, events).value)
    decreases |events|
  {
    hide StoreDecides, Enabled, Apply;
    if events != [] {
      StepStoreDecides(server, s, events[0]);
      RunStoreDecides(server, Apply(server, s, events[0]), events[1..]);
    }
  }

  /** The handler presented a token that was active in the store when it was checked. */
  predicate ShowedValidToken(server: Server, s: State, h: nat) {
    && h in s.handlers && s.handlers[h].checkedAgainst.Some?
    && Tokens.Validate(server.hash, s.handlers[h].checkedAgainst.value, s.handlers[h].hello.token)
  }

  lemma HolderShowedToken(server: Server, s: State, h: nat, removal: Phase)
    requires StoreDecides(s) && Holds(server, s, h, removal)
    ensures ShowedValidToken(server, s, h)
  {
  }

  lemma OwnersHadValidTokens(server: Server, tokens: Tokens.State, events: seq<Event>)
    requires Tokens.HasActive(tokens.rows) && Run(server, Init(tokens), events).Some?
    ensures var s := Run(server, Init(tokens), events).value;
      && (forall k :: k in s.bindings.http ==>
        s.bindings.http[k].session.Session? && ShowedValidToken(server, s, s.bindings.http[k].session.id))
      && (forall p :: p in s.bindings.tcp ==>
        s.bindings.tcp[p].session.Session? && ShowedValidToken(server, s, s.bindings.tcp[p].session.id))
      && (forall p :: p in s.bindings.udp ==>
        s.bindings.udp[p].session.Session? && ShowedValidToken(server, s, s.bindings.udp[p].session.id))
      && (forall p :: p in s.tcpListeners ==> ShowedValidToken(server, s, s.tcpListeners[p]))
      && (forall p :: p in s.udp.table.conns ==> ShowedValidToken(server, s, s.udp.table.conns[p]))
  {
    EverythingIsOwned(server, tokens, events);
    RunStoreDecides(server, Init(tokens), events);
    hide Run, StoreDecides, Holds, ShowedValidToken, Key;
    var s := Run(server, Init(tokens), events).value;
    forall h, removal | Holds(server, s, h, removal) ensures ShowedValidToken(server, s, h) {
      HolderShowedToken(server, s, h, removal);
    }
  }
}
