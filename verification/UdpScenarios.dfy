/** Particular runs of the UDP proxy: a first datagram served to the end, and a port reopened meanwhile. */
module UdpScenarios {
  import opened Wrappers
  import opened UdpTable
  import opened UdpRuns

  lemma RunOne(s: State, e: Event)
    requires Enabled(s, e)
    ensures Run(s, [e]) == Some(Apply(s, e))
  {
    hide Enabled, Apply;
    assert [e][1..] == [];
  }

  lemma RunTwo(s: State, a: Event, b: Event, rest: seq<Event>)
    requires Enabled(s, a) && Enabled(Apply(s, a), b)
    ensures Run(s, [a, b] + rest) == Run(Apply(Apply(s, a), b), rest)
  {
    hide Enabled, Apply;
    assert ([a, b] + rest)[1..] == [b] + rest && ([b] + rest)[1..] == rest;
  }

  lemma {:induction false} RunConcat(s: State, a: seq<Event>, b: seq<Event>)
    requires Run(s, a).Some?
    ensures Run(s, a + b) == Run(Run(s, a).value, b)
    decreases |a|
  {
    hide Enabled, Apply;
    if a == [] {
      assert a + b == b;
    } else {
      assert (a + b)[1..] == a[1..] + b;
      RunConcat(Apply(s, a[0]), a[1..], b);
    }
  }

  function OpenEvents(d: Datagram, h: nat, stream: StreamId): seq<Event> {
    [Arrive(h, d), Obtain(h, Lookup(true))] + ([Obtain(h, Search), Obtain(h, Open(stream, true))] + [])
  }

  function ServeEvents(d: Datagram, h: nat, stream: StreamId): seq<Event> {
    OpenEvents(d, h, stream)
    + (([Obtain(h, Store), Obtain(h, Spawn)] + []) + ([Deliver(h, Stamp), Deliver(h, Write(true))] + []))
  }

  ghost predicate NewTo(s: State, d: Datagram, h: nat, stream: StreamId) {
    && !s.crashed && h !in s.handlers && d.port in s.table.conns && d.port in s.table.sessions
    && !s.table.Has(d.port, d.addr) && stream !in s.streams && stream !in s.table.closed
  }

  function Opened(s: State, d: Datagram, h: nat, stream: StreamId): State
    requires d.port in s.table.conns
  {
    var via := s.table.conns[d.port];
    s.(arrived := s.arrived + {d}, handlers := s.handlers[h := Handler(d, via, Installing(stream))],
       streams := s.streams[stream := Stream(d, via, h, [])], table := Touch(s.table, stream, s.now))
  }

  lemma FirstDatagramOpens(s: State, d: Datagram, h: nat, stream: StreamId)
    requires NewTo(s, d, h, stream)
    ensures Run(s, OpenEvents(d, h, stream)) == Some(Opened(s, d, h, stream))
  {
    var s2 := Apply(Apply(s, Arrive(h, d)), Obtain(h, Lookup(true)));
    var s4 := Apply(Apply(s2, Obtain(h, Search)), Obtain(h, Open(stream, true)));
    assert s4.handlers == s.handlers[h := Handler(d, s.table.conns[d.port], Installing(stream))];
    assert s4 == Opened(s, d, h, stream);
    hide Apply, Enabled;
    RunTwo(s, Arrive(h, d), Obtain(h, Lookup(true)), [Obtain(h, Search), Obtain(h, Open(stream, true))] + []);
    RunTwo(s2, Obtain(h, Search), Obtain(h, Open(stream, true)), []);
  }

  ghost predicate Served(s: State, d: Datagram, h: nat, stream: StreamId, t: State)
    requires d.port in s.table.conns
  {
    var via := s.table.conns[d.port];
    && !t.crashed && t.now == s.now && t.handlers == s.handlers[h := Handler(d, via, Checking)]
    && t.table.conns == s.table.conns && t.table.closed == s.table.closed && t.table.lastClean == s.table.lastClean
    && t.table.sessions == s.table.sessions[d.port := s.table.SessionsOf(d.port)[d.addr := stream]]
    && t.table.lastSeen == s.table.lastSeen[stream := s.now] && t.streams == s.streams[stream := Stream(d, via, h, [d])]
    && t.readers == s.readers[stream := Running] && t.sent == s.sent
  }

  function Stored(s: State, d: Datagram, h: nat, stream: StreamId): State
    requires d.port in s.table.conns
  {
    var inner: map<Addr, StreamId> := s.table.SessionsOf(d.port)[d.addr := stream];
    var u := Opened(s, d, h, stream);
    u.(handlers := s.handlers[h := Handler(d, s.table.conns[d.port], Started(stream))],
       readers := s.readers[stream := Running],
       table := u.table.(sessions := s.table.sessions[d.port := inner]))
  }

  lemma OpenedIsStored(s: State, d: Datagram, h: nat, stream: StreamId)
    requires NewTo(s, d, h, stream)
    ensures Run(Opened(s, d, h, stream), [Obtain(h, Store), Obtain(h, Spawn)] + []) == Some(Stored(s, d, h, stream))
  {
    var s4 := Opened(s, d, h, stream);
    var s6 := Apply(Apply(s4, Obtain(h, Store)), Obtain(h, Spawn));
    assert s6.handlers == s.handlers[h := Handler(d, s.table.conns[d.port], Started(stream))];
    assert s6.readers == s.readers[stream := Running];
    hide Apply, Enabled;
    RunTwo(s4, Obtain(h, Store), Obtain(h, Spawn), []);
  }

  lemma StoredIsServed(s: State, d: Datagram, h: nat, stream: StreamId)
    requires NewTo(s, d, h, stream)
    ensures var t := Run(Stored(s, d, h, stream), [Deliver(h, Stamp), Deliver(h, Write(true))] + []);
      t.Some? && Served(s, d, h, stream, t.value)
  {
    var s6 := Stored(s, d, h, stream);
    var s8 := Apply(Apply(s6, Deliver(h, Stamp)), Deliver(h, Write(true)));
    var via := s.table.conns[d.port];
    assert s8.handlers == s.handlers[h := Handler(d, via, Checking)];
    assert s8.streams[stream] == Stream(d, via, h, [] + [d]) == Stream(d, via, h, [d]);
    assert s8.streams == s.streams[stream := Stream(d, via, h, [d])];
    assert Served(s, d, h, stream, s8);
    hide Apply, Enabled, Served;
    RunTwo(s6, Deliver(h, Stamp), Deliver(h, Write(true)), []);
  }

  /** Left to itself, the handler of a first datagram opens a stream, stores it, starts its reader and
      frames the datagram onto it. */
  lemma FirstDatagramServed(s: State, d: Datagram, h: nat, stream: StreamId)
    requires NewTo(s, d, h, stream)
    ensures Run(s, ServeEvents(d, h, stream)).Some? && Served(s, d, h, stream, Run(s, ServeEvents(d, h, stream)).value)
  {
    FirstDatagramOpens(s, d, h, stream);
    OpenedIsStored(s, d, h, stream);
    StoredIsServed(s, d, h, stream);
    hide Run, Opened, Stored, Served, OpenEvents;
    var store, finish := [Obtain(h, Store), Obtain(h, Spawn)] + [], [Deliver(h, Stamp), Deliver(h, Write(true))] + [];
    RunConcat(s, OpenEvents(d, h, stream), store + finish);
    RunConcat(Opened(s, d, h, stream), store, finish);
  }

  // ---------- the way out ----------

  /** A reader whose stream ends closes the stream, drops its session's key and is gone. */
  lemma ReaderEnds(s: State, x: StreamId)
    requires !s.crashed && x in s.streams && x in s.readers && s.readers[x] == Running
    ensures var d, t := s.streams[x].cause, Run(s, [Read(x, Stop), Read(x, CloseOwn)] + [Read(x, DropOwn)]);
      && t.Some? && t.value.readers == s.readers[x := Ended] && t.value.table.closed == s.table.closed + {x}
      && !t.value.table.Has(d.port, d.addr)
      && (forall p, a :: (p, a) != (d.port, d.addr) ==> (t.value.table.Has(p, a) <==> s.table.Has(p, a)))
  {
    var s2 := Apply(Apply(s, Read(x, Stop)), Read(x, CloseOwn));
    var s3 := Apply(s2, Read(x, DropOwn));
    assert s3.readers == s.readers[x := Ended];
    RunOne(s2, Read(x, DropOwn));
    RunTwo(s, Read(x, Stop), Read(x, CloseOwn), [Read(x, DropOwn)]);
  }

  /** Steps a handler can still take. */
  function Rest(stage: Stage): nat {
    match stage
    case Looking => 10 case Searching => 9 case Opening => 8 case Installing(_) => 7
    case Discarding(_, _) => 6 case Spawning(_) => 6 case Started(_) => 5 case Touching(_) => 5
    case Writing(_) => 4 case Dropping => 3 case Checking => 2 case Sweeping => 1
  }

  function NextOf(h: nat, stage: Stage): Event {
    match stage
    case Looking => Obtain(h, Lookup(false))
    case Searching => Obtain(h, Search)
    case Opening => Obtain(h, Open(0, false))
    case Installing(_) => Obtain(h, Store)
    case Discarding(_, _) => Obtain(h, Discard)
    case Spawning(_) => Obtain(h, Spawn)
    case Started(_) => Deliver(h, Stamp)
    case Touching(_) => Deliver(h, Stamp)
    case Writing(_) => Deliver(h, Write(false))
    case Dropping => Deliver(h, DropFailed)
    case Checking => Deliver(h, Check)
    case Sweeping => Deliver(h, SweepPort(map[]))
  }

  lemma FreeStream(used: set<StreamId>) returns (x: StreamId)
    ensures x !in used
  {
    x := 0;
    ghost var left := used;
    while x in used
      invariant left == set y | y in used && y >= x
      decreases left
    {
      left := left - {x};
      x := x + 1;
    }
  }

  ghost predicate Moves(s: State, h: nat, e: Event) {
    && Enabled(s, e) && h in s.handlers
    && var t := Apply(s, e);
    t.crashed || h !in t.handlers || Rest(t.handlers[h].stage) < Rest(s.handlers[h].stage)
  }

  lemma ObtainMoves(s: State, h: nat, step: ObtainStep)
    requires !s.crashed && CanObtain(s, h, step)
    ensures Moves(s, h, Obtain(h, step))
  {
    hide Touch, TryInstall;
  }

  lemma DeliverMoves(s: State, h: nat, step: DeliverStep)
    requires !s.crashed && CanDeliver(s, h, step)
    ensures Moves(s, h, Deliver(h, step))
  {
    hide Touch, Drop, Sweep, Recent;
  }

  lemma HandlerMoves(s: State, h: nat) returns (e: Event)
    requires Inv(s) && !s.crashed && h in s.handlers
    ensures Moves(s, h, e)
  {
    var stage := s.handlers[h].stage;
    assert StageOk(s, h, s.handlers[h]);
    hide Inv, Moves;
    e := NextOf(h, stage);
    if stage.Opening? {
      var x := FreeStream(s.streams.Keys);
      e := Obtain(h, Open(x, false));
    }
    if e.Obtain? {
      ObtainMoves(s, h, e.obtain);
    } else {
      DeliverMoves(s, h, e.deliver);
    }
  }

  /** No handler is ever stuck: whatever the others do, steps of its own take it to its end or to the panic. */
  lemma {:induction false} HandlerEnds(s: State, h: nat) returns (events: seq<Event>)
    requires Inv(s) && !s.crashed
    ensures Run(s, events).Some? && (Run(s, events).value.crashed || h !in Run(s, events).value.handlers)
    decreases if h in s.handlers then Rest(s.handlers[h].stage) else 0
  {
    events := [];
    if h in s.handlers {
      var e := HandlerMoves(s, h);
      var t := Apply(s, e);
      StepInv(s, e);
      hide Apply, Enabled, Inv;
      if !t.crashed && h in t.handlers {
        events := HandlerEnds(t, h);
      }
      events := [e] + events;
      assert events[1..] + [] == events[1..];
    }
  }

  // ---------- a reopened port ----------

  function ReopenEvents(port: int): seq<Event> {
    [Remove(port), Ensure(port, 1, true)] + []
  }

  /** A port's listener is removed and opened again while a handler of the old socket is slow, and the first
      handler of the new one has framed its datagram too. */
  function OverlapEvents(d: Datagram): seq<Event> {
    [Ensure(d.port, 0, true)] + (ServeEvents(d, 0, 0) + (ReopenEvents(d.port) + ServeEvents(d, 1, 1)))
  }

  function Reopened(s: State, port: int): State {
    var t := s.table;
    s.(table := t.(conns := t.conns[port := 1], sessions := t.sessions[port := map[]],
                   closed := t.closed + t.SessionsOf(port).Values))
  }

  lemma PortReopened(s: State, port: int)
    requires !s.crashed && port > 0 && port in s.table.conns
    ensures Run(s, ReopenEvents(port)) == Some(Reopened(s, port))
  {
    var t := Apply(Apply(s, Remove(port)), Ensure(port, 1, true));
    assert t.table.conns == s.table.conns[port := 1] && t.table.sessions == s.table.sessions[port := map[]];
    assert t == Reopened(s, port);
    hide Apply, Enabled, Reopened;
    RunTwo(s, Remove(port), Ensure(port, 1, true), []);
  }

  /** The state after the first datagram of a port that has just been opened. */
  function Alone(d: Datagram): State {
    INIT.(
      table := Table(map[d.port := 0], map[d.port := map[d.addr := 0]], map[0 := 0], {}, None),
      streams := map[0 := Stream(d, 0, 0, [d])], handlers := map[0 := Handler(d, 0, Checking)],
      readers := map[0 := Running])
  }

  lemma FirstServed(d: Datagram, more: seq<Event>) returns (s: State)
    requires d.port > 0
    ensures Run(INIT, [Ensure(d.port, 0, true)] + (ServeEvents(d, 0, 0) + more)) == Run(s, more)
    ensures s.(arrived := {}) == Alone(d)
  {
    var s1 := Apply(INIT, Ensure(d.port, 0, true));
    FirstDatagramServed(s1, d, 0, 0);
    var first := ServeEvents(d, 0, 0);
    s := Run(s1, first).value;
    assert s.(arrived := {}) == Alone(d) by {
      assert s.table.sessions == map[d.port := map[d.addr := 0]];
      assert s.table.lastSeen == map[0 := 0] && s.streams == map[0 := Stream(d, 0, 0, [d])];
    }
    assert ([Ensure(d.port, 0, true)] + (first + more))[1..] == first + more;
    assert Run(INIT, [Ensure(d.port, 0, true)] + (first + more)) == Run(s1, first + more);
    hide *;
    RunConcat(s1, first, more);
  }

  /** After it, two handlers of the port are about to check the interval; the old stream is closed and its
      reader still runs, and the new stream is in the table. */
  lemma OverlapReached(d: Datagram)
    requires d.port > 0
    ensures Run(INIT, OverlapEvents(d)).Some?
    ensures var s := Run(INIT, OverlapEvents(d)).value;
      && !s.crashed && s.handlers == map[0 := Handler(d, 0, Checking), 1 := Handler(d, 1, Checking)]
      && s.table.Has(d.port, d.addr) && s.table.sessions[d.port][d.addr] == 1
      && s.streams == map[0 := Stream(d, 0, 0, [d]), 1 := Stream(d, 1, 1, [d])] && s.table.closed == {0}
      && s.readers == map[0 := Running, 1 := Running]
  {
    var more := ReopenEvents(d.port) + ServeEvents(d, 1, 1);
    var s := FirstServed(d, more);
    PortReopened(s, d.port);
    FirstDatagramServed(Reopened(s, d.port), d, 1, 1);
    hide Run, ServeEvents, ReopenEvents;
    RunConcat(s, ReopenEvents(d.port), ServeEvents(d, 1, 1));
  }
}
