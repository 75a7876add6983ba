/** A run of the whole relay, seen from one of its parts: the token table and the UDP proxy go through runs of
    their own machines, so what is proved of those holds in the relay. */
module Projections {
  import opened Wrappers
  import opened Text
  import opened Lifecycle
  import opened Registration
  import Tokens
  import UdpRuns

  /** The database calls on the token table in a run. */
  function TokenOps(events: seq<Event>): seq<(Tokens.Op, bool)> {
    if events == [] then []
    else (if events[0].TokenCall? then [(events[0].op, events[0].fault)] else []) + TokenOps(events[1..])
  }

  /** The steps of the UDP proxy in one event: its own traffic, and what handlers do to its listeners. */
  function UdpSteps(s: State, e: Event): seq<UdpRuns.Event> {
    match e
    case Traffic(u) => [u]
    case Advance(h, Proceed(available)) =>
      if h !in s.handlers then []
      else if s.handlers[h].phase == OpenUDP then [UdpRuns.Ensure(s.handlers[h].hello.port, h, available)]
      else if s.handlers[h].phase == ShutUDP then [UdpRuns.Remove(s.handlers[h].hello.port)]
      else []
    case _ => []
  }

  function UdpEvents(server: Server, s: State, events: seq<Event>): seq<UdpRuns.Event>
    decreases |events|
  {
    if events == [] || !Enabled(server, s, events[0]) then []
    else UdpSteps(s, events[0]) + UdpEvents(server, Apply(server, s, events[0]), events[1..])
  }

  lemma TokenStep(server: Server, s: State, e: Event)
    requires Enabled(server, s, e)
    ensures e.TokenCall? ==> Tokens.Enabled(s.tokens, e.op)
    ensures e.TokenCall? ==> Apply(server, s, e).tokens == Tokens.Apply(server.hash, s.tokens, e.op, e.fault)
    ensures !e.TokenCall? ==> Apply(server, s, e).tokens == s.tokens
  {
    hide Authorised, Effect, Next, UdpRuns.Apply, UdpRuns.Enabled, Tokens.HasActive, Tokens.Apply;
  }

  /** The token table of the relay goes through exactly the run of its own calls. */
  lemma {:induction false} TokensRun(server: Server, s: State, events: seq<Event>)
    requires Run(server, s, events).Some?
    ensures Tokens.Run(server.hash, s.tokens, TokenOps(events)) == Some(Run(server, s, events).value.tokens)
    decreases |events|
  {
    hide Enabled, Apply, Tokens.Apply, Tokens.Enabled;
    if events != [] {
      var e := events[0];
      var t := Apply(server, s, e);
      var rest := TokenOps(events[1..]);
      TokenStep(server, s, e);
      TokensRun(server, t, events[1..]);
      if e.TokenCall? {
        assert TokenOps(events) == [(e.op, e.fault)] + rest && ([(e.op, e.fault)] + rest)[1..] == rest;
      } else {
        assert TokenOps(events) == [] + rest == rest;
      }
    }
  }

  lemma EffectOnUdp(s: State, h: nat, available: bool)
    requires h in s.handlers && !s.udp.crashed
    ensures UdpRuns.Run(s.udp, UdpSteps(s, Advance(h, Proceed(available)))) == Some(Effect(s, h, available).udp)
  {
    hide TryHTTP, TryPort, Key, UdpRuns.Apply;
    var steps := UdpSteps(s, Advance(h, Proceed(available)));
    if steps != [] {
      assert steps[1..] == [];
    }
  }

  lemma UdpStep(server: Server, s: State, e: Event)
    requires Enabled(server, s, e)
    ensures UdpRuns.Run(s.udp, UdpSteps(s, e)) == Some(Apply(server, s, e).udp)
  {
    if e.Traffic? {
      assert [e.udp][1..] == [];
    } else if e.Advance? && e.step.Proceed? {
      EffectOnUdp(s, e.h, e.step.available);
    }
    hide Authorised, Effect, Next, UdpRuns.Apply, UdpRuns.Enabled, Tokens.HasActive, Tokens.Apply, TryPort, TryHTTP;
  }

  lemma {:induction false} UdpConcat(s: UdpRuns.State, a: seq<UdpRuns.Event>, b: seq<UdpRuns.Event>)
    requires UdpRuns.Run(s, a).Some?
    ensures UdpRuns.Run(s, a + b) == UdpRuns.Run(UdpRuns.Run(s, a).value, b)
    decreases |a|
  {
    hide UdpRuns.Enabled, UdpRuns.Apply;
    if a == [] {
      assert a + b == b;
    } else {
      assert (a + b)[1..] == a[1..] + b;
      UdpConcat(UdpRuns.Apply(s, a[0]), a[1..], b);
    }
  }

  lemma UdpNothing(s: UdpRuns.State)
    ensures UdpRuns.Run(s, []) == Some(s)
  {
  }

  /** The UDP proxy of the relay goes through exactly the run of its traffic and of the steps in which handlers
      open and remove its listeners. */
  lemma {:induction false} UdpRun(server: Server, s: State, events: seq<Event>)
    requires Run(server, s, events).Some?
    ensures UdpRuns.Run(s.udp, UdpEvents(server, s, events)) == Some(Run(server, s, events).value.udp)
    decreases |events|
  {
    hide Enabled, Apply, UdpSteps, UdpRuns.Run;
    if events != [] {
      var t := Apply(server, s, events[0]);
      UdpStep(server, s, events[0]);
      UdpRun(server, t, events[1..]);
      UdpConcat(s.udp, UdpSteps(s, events[0]), UdpEvents(server, t, events[1..]));
    } else {
      UdpNothing(s.udp);
    }
  }

  /** So in every run of the relay each UDP response came over a stream that was opened for a datagram of its own
      port and address and carried only such datagrams. */
  lemma RelayProvenance(server: Server, tokens: Tokens.State, events: seq<Event>, r: UdpRuns.Response)
    requires Run(server, Init(tokens), events).Some? && r in Run(server, Init(tokens), events).value.udp.sent
    ensures var s := Run(server, Init(tokens), events).value.udp;
      && r.stream in s.streams
      && s.streams[r.stream].cause in s.arrived && s.streams[r.stream].cause.port == r.port
      && s.streams[r.stream].cause.addr == r.addr
      && forall d :: d in s.streams[r.stream].written ==> d in s.arrived && d.port == r.port && d.addr == r.addr
  {
    UdpRun(server, Init(tokens), events);
    hide Run, UdpEvents;
    UdpRuns.Provenance(UdpEvents(server, Init(tokens), events), r);
  }

  /** A token revoked in the store before a run is never let in by a check against the store in it, however the
      token calls of the run overlap and fail. */
  lemma RevokedNeverAdmitted(server: Server, s: State, events: seq<Event>, h: nat)
    requires Run(server, s, events).Some? && Tokens.Unique(s.tokens.rows)
    requires var t := Run(server, s, events).value;
      && Enabled(server, t, Advance(h, Check(false))) && t.handlers[h].storedAuth
      && Tokens.IsRevoked(s.tokens.rows, server.hash(TrimSpace(t.handlers[h].hello.token)))
    ensures var t := Run(server, s, events).value;
      Apply(server, t, Advance(h, Check(false))).handlers[h].phase == DropHTTP
  {
    var t := Run(server, s, events).value;
    TokensRun(server, s, events);
    Tokens.RevokedForever(server.hash, s.tokens, TokenOps(events), t.handlers[h].hello.token);
    hide Run, Tokens.Validate, Effect, Next;
  }
}
