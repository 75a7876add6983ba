/** Through which listener a response goes back. Streams do not remember theirs, and readers outlive it. */
module UdpAnswers {
  import opened Wrappers
  import opened UdpTable
  import opened UdpRuns
  import opened UdpHistory
  import opened UdpScenarios

  lemma ConnStays(s: State, e: Event, port: int)
    requires Enabled(s, e) && port in Apply(s, e).table.conns
    ensures var owner := Apply(s, e).table.conns[port];
      if port in s.table.conns then owner == s.table.conns[port] && e != Remove(port)
      else e.Ensure? && e.port == port && owner == e.owner
  {
    hide ApplyObtain, ApplyDeliver, ApplyRead;
  }

  /** Event `k` opened the port's present listener. */
  ghost predicate OpenedAt(events: seq<Event>, port: int, k: nat, n: nat)
    requires Run(INIT, events).Some? && n <= |events|
  {
    && k < n && events[k].Ensure? && events[k].port == port
    && port !in After(events, k).table.conns && port in After(events, k + 1).table.conns
    && (forall i :: k < i < n ==> events[i] != Remove(port))
  }

  /** A listener stays, with its owner, until the port is removed. */
  lemma {:induction false} StaysOpen(events: seq<Event>, port: int, k: nat, n: nat)
    requires Run(INIT, events).Some? && n <= |events| && OpenedAt(events, port, k, n)
    ensures port in After(events, n).table.conns && After(events, n).table.conns[port] == events[k].owner
    decreases n
  {
    hide After, Enabled, Apply, Run;
    AfterStep(events, n - 1);
    if n - 1 > k {
      StaysOpen(events, port, k, n - 1);
      if port !in After(events, n).table.conns {
        ConnGoes(After(events, n - 1), events[n - 1], port);
      }
    }
    ConnStays(After(events, n - 1), events[n - 1], port);
  }

  /** A port whose listener has another owner than before was opened again since. */
  lemma {:induction false} OpenedAgain(events: seq<Event>, port: int, j: nat, n: nat) returns (k: nat)
    requires Run(INIT, events).Some? && j <= n <= |events|
    requires port in After(events, j).table.conns && port in After(events, n).table.conns
    requires After(events, j).table.conns[port] != After(events, n).table.conns[port]
    ensures j <= k && OpenedAt(events, port, k, n) && events[k].owner == After(events, n).table.conns[port]
    decreases n
  {
    hide After, Enabled, Apply, Run;
    AfterStep(events, n - 1);
    ConnStays(After(events, n - 1), events[n - 1], port);
    k := n - 1;
    if port in After(events, n - 1).table.conns {
      k := OpenedAgain(events, port, j, n - 1);
    }
  }

  /** A response leaves through another owner's listener than its datagram arrived through exactly when,
      since that arrival, the port has been removed and its present listener opened by that other owner. */
  lemma CrossesIff(events: seq<Event>, x: StreamId, payload: seq<int>) returns (j: nat)
    requires Run(INIT, events).Some? && CanRead(Run(INIT, events).value, x, Respond(payload))
    ensures var s := Run(INIT, events).value; var stream := s.streams[x]; var port := stream.cause.port;
      && j < |events| && events[j] == Arrive(stream.opener, stream.cause)
      && port in After(events, j).table.conns && After(events, j).table.conns[port] == stream.via
      && (s.table.conns[port] != stream.via
          <==> exists k :: j < k && OpenedAt(events, port, k, |events|) && events[k].owner != stream.via)
  {
    var s, n := Run(INIT, events).value, |events|;
    assert events[..n] == events;
    assert After(events, n) == s;
    j := StreamArrival(events, x, n);
    hide Run, After;
    var stream := s.streams[x];
    var port := stream.cause.port;
    if s.table.conns[port] != stream.via {
      var k := OpenedAgain(events, port, j, n);
      assert events[k].Ensure? && events[j].Arrive?;
      assert j < k && OpenedAt(events, port, k, n) && events[k].owner != stream.via;
    }
    forall k | j < k && OpenedAt(events, port, k, n) && events[k].owner != stream.via
      ensures s.table.conns[port] != stream.via
    {
      StaysOpen(events, port, k, n);
    }
  }

  // ---------- a run in which it does ----------

  /** A datagram that finds the session and cannot be written, so that the session is dropped by key. */
  function FailEvents(d: Datagram, h: nat): seq<Event> {
    ([Arrive(h, d), Obtain(h, Lookup(true))] + ([Obtain(h, Search), Deliver(h, Stamp)] + []))
    + ([Deliver(h, Write(false)), Deliver(h, DropFailed)] + [])
  }

  function Failed(s: State, d: Datagram, stream: StreamId): State {
    s.(arrived := s.arrived + {d}, table := Drop(Touch(s.table, stream, s.now), d.port, d.addr))
  }

  lemma FoundAndStamped(s: State, d: Datagram, h: nat)
    requires !s.crashed && h !in s.handlers && d.port in s.table.conns && s.table.Has(d.port, d.addr)
    ensures var x, via := s.table.sessions[d.port][d.addr], s.table.conns[d.port];
      var events := [Arrive(h, d), Obtain(h, Lookup(true))] + ([Obtain(h, Search), Deliver(h, Stamp)] + []);
      Run(s, events) == Some(s.(
        arrived := s.arrived + {d}, table := Touch(s.table, x, s.now),
        handlers := s.handlers[h := Handler(d, via, Writing(x))]))
  {
    var x, via := s.table.sessions[d.port][d.addr], s.table.conns[d.port];
    var s2 := Apply(Apply(s, Arrive(h, d)), Obtain(h, Lookup(true)));
    assert s2 == s.(arrived := s.arrived + {d}, handlers := s.handlers[h := Handler(d, via, Searching)]);
    var s4 := Apply(Apply(s2, Obtain(h, Search)), Deliver(h, Stamp));
    assert s4.handlers == s.handlers[h := Handler(d, via, Writing(x))] && s4.table == Touch(s.table, x, s.now);
    hide Apply, Enabled, Touch;
    RunTwo(s, Arrive(h, d), Obtain(h, Lookup(true)), [Obtain(h, Search), Deliver(h, Stamp)] + []);
    RunTwo(s2, Obtain(h, Search), Deliver(h, Stamp), []);
  }

  lemma NotWritten(s: State, h: nat)
    requires !s.crashed && h in s.handlers && s.handlers[h].stage.Writing? && s.handlers[h].stage.session in s.streams
    ensures var d := s.handlers[h].cause;
      Run(s, [Deliver(h, Write(false)), Deliver(h, DropFailed)] + [])
      == Some(s.(table := Drop(s.table, d.port, d.addr), handlers := s.handlers - {h}))
  {
    var d := s.handlers[h].cause;
    var t := Apply(Apply(s, Deliver(h, Write(false))), Deliver(h, DropFailed));
    assert t.handlers == s.handlers - {h};
    hide Apply, Enabled, Drop;
    RunTwo(s, Deliver(h, Write(false)), Deliver(h, DropFailed), []);
  }

  lemma WriteFails(s: State, d: Datagram, h: nat)
    requires !s.crashed && h !in s.handlers && d.port in s.table.conns && s.table.Has(d.port, d.addr)
    requires s.table.sessions[d.port][d.addr] in s.streams
    ensures Run(s, FailEvents(d, h)) == Some(Failed(s, d, s.table.sessions[d.port][d.addr]))
  {
    var x, via := s.table.sessions[d.port][d.addr], s.table.conns[d.port];
    var first := [Arrive(h, d), Obtain(h, Lookup(true))] + ([Obtain(h, Search), Deliver(h, Stamp)] + []);
    var last := [Deliver(h, Write(false)), Deliver(h, DropFailed)] + [];
    FoundAndStamped(s, d, h);
    var s4 := Run(s, first).value;
    NotWritten(s4, h);
    assert s.handlers[h := Handler(d, via, Writing(x))] - {h} == s.handlers;
    hide Run, Touch, Drop;
    RunConcat(s, first, last);
  }

  function CrossEvents(d: Datagram): seq<Event> {
    [Ensure(d.port, 0, true)] + (ServeEvents(d, 0, 0) + (FailEvents(d, 1) + ReopenEvents(d.port)))
  }

  lemma FailedAndReopened(s: State, d: Datagram)
    requires !s.crashed && d.port > 0 && 1 !in s.handlers && d.port in s.table.conns && 0 in s.streams
    requires s.table.SessionsOf(d.port) == map[d.addr := 0]
    ensures var t := Reopened(Failed(s, d, 0), d.port);
      && Run(s, FailEvents(d, 1) + ReopenEvents(d.port)) == Some(t)
      && t.table.closed == s.table.closed && t.table.conns[d.port] == 1
      && t.streams == s.streams && t.readers == s.readers && t.sent == s.sent && !t.crashed
  {
    WriteFails(s, d, 1);
    var u := Failed(s, d, 0);
    assert u.table.SessionsOf(d.port) == map[];
    PortReopened(u, d.port);
    hide Run, FailEvents, ReopenEvents;
    RunConcat(s, FailEvents(d, 1), ReopenEvents(d.port));
  }

  /** For every port, address and payload: the reader of a stream dropped by key, open all the time, answers
      through the listener of the port's next owner. */
  lemma CrossReachable(d: Datagram, payload: seq<int>)
    requires d.port > 0
    ensures Run(INIT, CrossEvents(d)).Some?
    ensures var s := Run(INIT, CrossEvents(d)).value;
      && 0 in s.streams && s.streams[0].via == 0 && 0 !in s.table.closed && Enabled(s, Read(0, Respond(payload)))
      && Apply(s, Read(0, Respond(payload))).sent == [Response(0, d.port, d.addr, payload, 1)]
  {
    var s := FirstServed(d, FailEvents(d, 1) + ReopenEvents(d.port));
    FailedAndReopened(s, d);
    hide Run, ServeEvents, FailEvents, ReopenEvents, Failed, Reopened;
  }
}
