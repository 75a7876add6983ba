/** Two faults of the UDP proxy: the panic when a session is stored too late, and sessions that leave the
    table while their stream is still open. */
module UdpFaults {
  import opened Wrappers
  import opened UdpTable
  import opened UdpRuns
  import opened UdpHistory
  import opened UdpScenarios

  // ---------- the panic ----------

  /** A step panics exactly when a handler stores its session on a port that has no listener then. */
  lemma CrashIff(s: State, e: Event)
    requires Inv(s) && Enabled(s, e)
    ensures Apply(s, e).crashed <==> e.Obtain? && e.obtain.Store? && s.handlers[e.h].cause.port !in s.table.conns
  {
    hide Listen, Unlisten, Drop, Sweep, Touch;
  }

  /** In every run that panics, the handler's port was removed while the handler was in flight and has not
      been opened again since. */
  lemma CrashFollowsRemoval(events: seq<Event>, e: Event) returns (j: nat, k: nat)
    requires Run(INIT, events).Some? && Enabled(Run(INIT, events).value, e) && Apply(Run(INIT, events).value, e).crashed
    ensures e.Obtain? && e.obtain.Store? && e.h in Run(INIT, events).value.handlers
    ensures var d := Run(INIT, events).value.handlers[e.h].cause;
      && InFlight(events, e.h, Run(INIT, events).value.handlers[e.h], j, |events|)
      && j < k < |events| && events[k] == Remove(d.port)
      && (forall i :: k < i <= |events| ==> d.port !in After(events, i).table.conns)
  {
    RunInv(INIT, events);
    var s := Run(INIT, events).value;
    CrashIff(s, e);
    assert e.h in s.handlers;
    assert events[..|events|] == events;
    assert After(events, |events|) == s;
    hide Run, After, Enabled, Apply, Inv;
    j := ArrivalOf(events, e.h, |events|);
    AfterStep(events, j);
    ArriveCause(After(events, j), events[j]);
    k := LastRemoval(events, s.handlers[e.h].cause.port, j + 1, |events|);
  }

  function CrashEvents(d: Datagram, h: nat, stream: StreamId): seq<Event> {
    [Ensure(d.port, 0, true)] + (OpenEvents(d, h, stream) + ([Remove(d.port), Obtain(h, Store)] + []))
  }

  lemma RemovedThenStored(s: State, d: Datagram, h: nat, stream: StreamId)
    requires NewTo(s, d, h, stream)
    ensures var t := Run(Opened(s, d, h, stream), [Remove(d.port), Obtain(h, Store)] + []); t.Some? && t.value.crashed
  {
    var u := Opened(s, d, h, stream);
    assert Apply(Apply(u, Remove(d.port)), Obtain(h, Store)).crashed;
    hide Apply, Enabled, Opened;
    RunTwo(u, Remove(d.port), Obtain(h, Store), []);
  }

  /** And that can happen, on any port, for any first datagram. */
  lemma CrashReachable(d: Datagram, h: nat, stream: StreamId)
    requires d.port > 0
    ensures Run(INIT, CrashEvents(d, h, stream)).Some? && Run(INIT, CrashEvents(d, h, stream)).value.crashed
  {
    var s1 := Apply(INIT, Ensure(d.port, 0, true));
    FirstDatagramOpens(s1, d, h, stream);
    RemovedThenStored(s1, d, h, stream);
    var last := [Remove(d.port), Obtain(h, Store)] + [];
    assert CrashEvents(d, h, stream)[1..] == OpenEvents(d, h, stream) + last;
    assert Run(INIT, CrashEvents(d, h, stream)) == Run(s1, OpenEvents(d, h, stream) + last);
    hide *;
    RunConcat(s1, OpenEvents(d, h, stream), last);
  }

  // ---------- sessions dropped by key ----------

  predicate Leaves(s: State, t: State, port: int, addr: Addr)
    requires s.table.Has(port, addr)
  {
    !t.table.Has(port, addr) || t.table.sessions[port][addr] != s.table.sessions[port][addr]
  }

  /** A drop by key of the session at (port, addr): after a failed write, or at the end of a reader. */
  predicate DropsKey(s: State, e: Event, port: int, addr: Addr) {
    || (e.Deliver? && e.deliver.DropFailed? && e.h in s.handlers
        && s.handlers[e.h].cause.port == port && s.handlers[e.h].cause.addr == addr)
    || (e.Read? && e.read.DropOwn? && e.stream in s.streams
        && s.streams[e.stream].cause.port == port && s.streams[e.stream].cause.addr == addr)
  }

  lemma ObtainKeepsSessions(s: State, h: nat, step: ObtainStep, port: int, addr: Addr)
    requires CanObtain(s, h, step) && s.table.Has(port, addr)
    ensures !Leaves(s, ApplyObtain(s, h, step), port, addr)
  {
  }

  lemma DeliverLeaves(s: State, h: nat, step: DeliverStep, port: int, addr: Addr)
    requires CanDeliver(s, h, step) && s.table.Has(port, addr)
    ensures var t, x, d := ApplyDeliver(s, h, step), s.table.sessions[port][addr], s.handlers[h].cause;
      Leaves(s, t, port, addr) && x !in t.table.closed
      <==> step.DropFailed? && d.port == port && d.addr == addr && x !in s.table.closed
  {
  }

  /** A session leaves the table with its stream still open exactly when its key is dropped. */
  lemma LeavesOpenIff(s: State, e: Event, port: int, addr: Addr)
    requires Inv(s) && Enabled(s, e) && s.table.Has(port, addr)
    ensures var t, x := Apply(s, e), s.table.sessions[port][addr];
      Leaves(s, t, port, addr) && x !in t.table.closed <==> DropsKey(s, e, port, addr) && x !in s.table.closed
  {
    if e.Obtain? {
      ObtainKeepsSessions(s, e.h, e.obtain, port, addr);
    } else if e.Deliver? {
      DeliverLeaves(s, e.h, e.deliver, port, addr);
    }
    assert addr in s.table.sessions[port].Keys && s.table.sessions[port][addr] in s.table.sessions[port].Values;
    assert s.table.conns.Keys == s.table.sessions.Keys;
    hide Inv, ApplyObtain, ApplyDeliver, Sweep, Touch, TryInstall, Recent;
  }

  /** Then its reader is pending or running, and a reader that drops the key is that of another stream. */
  lemma DroppedStillServed(s: State, e: Event, port: int, addr: Addr)
    requires Inv(s) && Enabled(s, e) && s.table.Has(port, addr)
    requires DropsKey(s, e, port, addr) && s.table.sessions[port][addr] !in s.table.closed
    ensures var x := s.table.sessions[port][addr];
      x in s.readers && s.readers[x] in {Pending, Running, Closing} && (e.Read? ==> e.stream != x)
  {
    var x := s.table.sessions[port][addr];
    SessionBacked(s, port, addr);
    assert Accounted(s, x);
    var h := s.streams[x].opener;
    assert h in s.handlers ==> StageOk(s, h, s.handlers[h]);
  }

  function StaleEvents(d: Datagram): seq<Event> {
    OverlapEvents(d) + ([Read(0, Stop), Read(0, CloseOwn)] + [])
  }

  lemma RunNone(s: State)
    ensures Run(s, []) == Some(s)
  {
  }

  /** And that can happen: the reader of a stream closed with the old socket takes the new stream, open and
      being read, out of the table. */
  lemma NewerSessionDropped(d: Datagram)
    requires d.port > 0
    ensures Run(INIT, StaleEvents(d)).Some?
    ensures var s := Run(INIT, StaleEvents(d)).value;
      && Enabled(s, Read(0, DropOwn)) && s.table.Has(d.port, d.addr) && s.table.sessions[d.port][d.addr] == 1
      && var t := Apply(s, Read(0, DropOwn));
      && !t.table.Has(d.port, d.addr) && 1 !in t.table.closed && 1 in t.readers && t.readers[1] == Running
  {
    OverlapReached(d);
    var s := Run(INIT, OverlapEvents(d)).value;
    var u := Apply(Apply(s, Read(0, Stop)), Read(0, CloseOwn));
    var t := Apply(u, Read(0, DropOwn));
    assert u.table.sessions == s.table.sessions && !t.table.Has(d.port, d.addr);
    hide Run, Apply, Enabled, OverlapEvents;
    RunTwo(s, Read(0, Stop), Read(0, CloseOwn), []);
    RunConcat(INIT, OverlapEvents(d), [Read(0, Stop), Read(0, CloseOwn)] + []);
    RunNone(u);
  }
}
