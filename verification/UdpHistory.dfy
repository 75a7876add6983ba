/** The states a run of the UDP proxy goes through, and what an earlier one says of a later one. */
module UdpHistory {
  import opened Wrappers
  import opened UdpTable
  import opened UdpRuns
  import opened UdpScenarios

  lemma {:induction false} RunSplit(s: State, events: seq<Event>, i: nat)
    requires i <= |events| && Run(s, events).Some?
    ensures Run(s, events[..i]).Some? && Run(s, events) == Run(Run(s, events[..i]).value, events[i..])
    decreases |events|
  {
    hide Enabled, Apply;
    if i == 0 {
      assert events[0..] == events;
    } else {
      RunSplit(Apply(s, events[0]), events[1..], i - 1);
      assert events[..i][1..] == events[1..][..i - 1];
    }
  }

  /** The state after the first `i` events. */
  function After(events: seq<Event>, i: nat): State
    requires i <= |events| && Run(INIT, events).Some?
  {
    RunSplit(INIT, events, i);
    Run(INIT, events[..i]).value
  }

  lemma AfterStep(events: seq<Event>, i: nat)
    requires i < |events| && Run(INIT, events).Some?
    ensures Enabled(After(events, i), events[i]) && After(events, i + 1) == Apply(After(events, i), events[i])
  {
    hide Enabled, Apply;
    RunSplit(INIT, events, i);
    RunSplit(INIT, events, i + 1);
    assert events[..i + 1] == events[..i] + [events[i]];
    RunConcat(INIT, events[..i], [events[i]]);
    assert [events[i]][1..] == [];
  }

  /** The handler arrived with event `j`, through the listener its port had then, and was in flight up to
      event `n`. */
  ghost predicate InFlight(events: seq<Event>, h: nat, handler: Handler, j: nat, n: nat)
    requires Run(INIT, events).Some? && n <= |events|
  {
    && j < n && events[j] == Arrive(h, handler.cause)
    && handler.cause.port in After(events, j).table.conns
    && After(events, j).table.conns[handler.cause.port] == handler.via
    && (forall i :: j < i <= n ==>
      && h in After(events, i).handlers && After(events, i).handlers[h].cause == handler.cause
      && After(events, i).handlers[h].via == handler.via)
  }

  lemma NoneAtFirst(events: seq<Event>)
    requires Run(INIT, events).Some?
    ensures After(events, 0) == INIT
  {
    assert events[..0] == [];
  }

  lemma ArriveCause(s: State, e: Event)
    requires Enabled(s, e) && e.Arrive?
    ensures e.h in Apply(s, e).handlers && Apply(s, e).handlers[e.h].cause == e.datagram
    ensures e.datagram.port in s.table.conns && Apply(s, e).table.conns == s.table.conns
    ensures Apply(s, e).handlers[e.h].via == s.table.conns[e.datagram.port]
  {
  }

  /** A handler in flight has arrived, and has been in flight since. */
  lemma {:induction false} ArrivalOf(events: seq<Event>, h: nat, n: nat) returns (j: nat)
    requires Run(INIT, events).Some? && n <= |events| && h in After(events, n).handlers
    ensures InFlight(events, h, After(events, n).handlers[h], j, n)
    decreases n
  {
    hide After, Enabled, Apply, Run;
    NoneAtFirst(events);
    AfterStep(events, n - 1);
    StepCauses(After(events, n - 1), events[n - 1], h);
    j := n - 1;
    if events[n - 1].Arrive? && events[n - 1].h == h {
      ArriveCause(After(events, n - 1), events[n - 1]);
    } else {
      j := ArrivalOf(events, h, n - 1);
    }
  }

  lemma ConnGoes(s: State, e: Event, port: int)
    requires Enabled(s, e) && port in s.table.conns && port !in Apply(s, e).table.conns
    ensures e == Remove(port)
  {
    hide ApplyObtain, ApplyDeliver, ApplyRead;
  }

  /** A port that had a listener and has none lost it to a removal, and has had none since. */
  lemma {:induction false} LastRemoval(events: seq<Event>, port: int, j: nat, n: nat) returns (k: nat)
    requires Run(INIT, events).Some? && j <= n <= |events|
    requires port in After(events, j).table.conns && port !in After(events, n).table.conns
    ensures j <= k < n && events[k] == Remove(port)
    ensures forall i :: k < i <= n ==> port !in After(events, i).table.conns
    decreases n
  {
    hide After, Enabled, Apply, Run;
    k := n - 1;
    if port in After(events, n - 1).table.conns {
      AfterStep(events, n - 1);
      ConnGoes(After(events, n - 1), events[n - 1], port);
    } else {
      k := LastRemoval(events, port, j, n - 1);
    }
  }

  lemma OriginsStay(s: State, e: Event)
    requires Inv(s) && Enabled(s, e)
    ensures OriginsKept(s, Apply(s, e))
  {
    hide Inv, Listen, Unlisten, Drop, Sweep, Touch, TryInstall;
  }

  /** A stream that was not there before the step has been opened in it, for the handler's datagram. */
  lemma StreamStarts(s: State, e: Event, x: StreamId)
    requires Enabled(s, e) && x in Apply(s, e).streams && x !in s.streams
    ensures e.Obtain? && e.h in s.handlers
    ensures var stream := Apply(s, e).streams[x];
      stream.opener == e.h && stream.cause == s.handlers[e.h].cause && stream.via == s.handlers[e.h].via
  {
    hide Listen, Unlisten, Drop, Sweep, Touch, TryInstall;
  }

  lemma AfterInv(events: seq<Event>, i: nat)
    requires Run(INIT, events).Some? && i <= |events|
    ensures Inv(After(events, i))
  {
    RunSplit(INIT, events, i);
    RunInv(INIT, events[..i]);
    hide Inv;
  }

  /** A stream was opened by a handler that arrived, with its datagram, through the listener it names. */
  lemma {:induction false} StreamArrival(events: seq<Event>, x: StreamId, n: nat) returns (j: nat)
    requires Run(INIT, events).Some? && n <= |events| && x in After(events, n).streams
    ensures j < n
    ensures var stream := After(events, n).streams[x];
      && events[j] == Arrive(stream.opener, stream.cause)
      && stream.cause.port in After(events, j).table.conns
      && After(events, j).table.conns[stream.cause.port] == stream.via
    decreases n
  {
    hide Enabled, Apply, Run;
    NoneAtFirst(events);
    AfterStep(events, n - 1);
    AfterInv(events, n - 1);
    hide After;
    var s, e := After(events, n - 1), events[n - 1];
    if x in s.streams {
      OriginsStay(s, e);
      j := StreamArrival(events, x, n - 1);
    } else {
      StreamStarts(s, e, x);
      j := ArrivalOf(events, e.h, n - 1);
    }
  }
}
