/** What the idle sweep may and must close, over whole runs and in the times of the steps themselves. */
module UdpSweeps {
  import opened Wrappers
  import opened UdpTable
  import opened UdpRuns
  import opened UdpHistory

  // ---------- when a session was last seen ----------

  /** A step in which a datagram or a response uses the stream: its session is found, its stream opened, its
      stamp written, or a response read from it. */
  predicate Uses(s: State, e: Event, x: StreamId) {
    match e
    case Obtain(h, step) =>
      && h in s.handlers
      && (step == Open(x, true)
          || (step.Search? && s.table.Has(s.handlers[h].cause.port, s.handlers[h].cause.addr)
            && s.table.sessions[s.handlers[h].cause.port][s.handlers[h].cause.addr] == x))
    case Deliver(h, step) =>
      && h in s.handlers && step.Stamp?
      && (s.handlers[h].stage == Touching(x) || s.handlers[h].stage == Started(x))
    case Read(stream, step) => stream == x && step.Respond?
    case _ => false
  }

  lemma StoreKeepsTimes(s: State, h: nat)
    requires CanObtain(s, h, Store)
    ensures ApplyObtain(s, h, Store).table.lastSeen == s.table.lastSeen
    ensures ApplyObtain(s, h, Store).table.lastClean == s.table.lastClean
  {
  }

  ghost predicate SeenAfter(s: State, e: Event, t: State, x: StreamId) {
    && (x in t.table.lastSeen <==> x in s.table.lastSeen || Uses(s, e, x))
    && (x in t.table.lastSeen ==> t.table.lastSeen[x] == if Uses(s, e, x) then s.now else s.table.lastSeen[x])
  }

  lemma ObtainSeen(s: State, h: nat, step: ObtainStep, x: StreamId)
    requires CanObtain(s, h, step) && !step.Store?
    ensures SeenAfter(s, Obtain(h, step), ApplyObtain(s, h, step), x)
  {
    hide TryInstall;
  }

  lemma DeliverSeen(s: State, h: nat, step: DeliverStep, x: StreamId)
    requires CanDeliver(s, h, step)
    ensures SeenAfter(s, Deliver(h, step), ApplyDeliver(s, h, step), x)
  {
    hide Drop, Sweep, Recent;
  }

  lemma StepSeen(s: State, e: Event, x: StreamId)
    requires Enabled(s, e)
    ensures SeenAfter(s, e, Apply(s, e), x)
  {
    if e.Obtain? {
      if e.obtain.Store? {
        StoreKeepsTimes(s, e.h);
      } else {
        ObtainSeen(s, e.h, e.obtain, x);
      }
    } else if e.Deliver? {
      DeliverSeen(s, e.h, e.deliver, x);
    }
    hide ApplyObtain, ApplyDeliver, CanObtain, CanDeliver, Listen, Unlisten, Drop;
  }

  lemma StepNow(s: State, e: Event)
    requires Enabled(s, e)
    ensures Apply(s, e).now >= s.now
  {
    hide Listen, Unlisten, Drop, Sweep, TryInstall, Recent, Touch;
  }

  lemma {:induction false} NowGrows(events: seq<Event>, i: nat, n: nat)
    requires Run(INIT, events).Some? && i <= n <= |events|
    ensures After(events, i).now <= After(events, n).now
    decreases n
  {
    hide After, Run, Apply, Enabled;
    if i < n {
      NowGrows(events, i, n - 1);
      AfterStep(events, n - 1);
      StepNow(After(events, n - 1), events[n - 1]);
    }
  }

  /** The time a session was last seen is the time of the last step that used its stream. */
  lemma {:induction false} LastUse(events: seq<Event>, x: StreamId, n: nat) returns (j: nat)
    requires Run(INIT, events).Some? && n <= |events| && x in After(events, n).table.lastSeen
    ensures j < n && Uses(After(events, j), events[j], x)
    ensures After(events, j).now == After(events, n).table.lastSeen[x]
    ensures forall i :: 0 <= i < n && Uses(After(events, i), events[i], x) ==> i <= j
    decreases n
  {
    hide After, Run, Apply, Enabled, Uses;
    NoneAtFirst(events);
    AfterStep(events, n - 1);
    StepSeen(After(events, n - 1), events[n - 1], x);
    j := n - 1;
    if !Uses(After(events, n - 1), events[n - 1], x) {
      j := LastUse(events, x, n - 1);
    }
  }

  lemma {:induction false} UsedIsSeen(events: seq<Event>, x: StreamId, i: nat, n: nat)
    requires Run(INIT, events).Some? && i < n <= |events| && Uses(After(events, i), events[i], x)
    ensures x in After(events, n).table.lastSeen
    decreases n
  {
    hide After, Run, Apply, Enabled, Uses;
    AfterStep(events, n - 1);
    StepSeen(After(events, n - 1), events[n - 1], x);
    if i < n - 1 {
      UsedIsSeen(events, x, i, n - 1);
    }
  }

  lemma OpenUses(s: State, e: Event, x: StreamId)
    requires Enabled(s, e) && x in Apply(s, e).streams && x !in s.streams
    ensures Uses(s, e, x)
  {
    hide Listen, Unlisten, Drop, Sweep, TryInstall, Recent, Touch;
  }

  /** A stream was used when it was opened. */
  lemma {:induction false} StreamWasUsed(events: seq<Event>, x: StreamId, n: nat)
    requires Run(INIT, events).Some? && n <= |events| && x in After(events, n).streams
    ensures x in After(events, n).table.lastSeen
    decreases n
  {
    hide After, Run, Apply, Enabled;
    NoneAtFirst(events);
    AfterStep(events, n - 1);
    var s, e := After(events, n - 1), events[n - 1];
    StepSeen(s, e, x);
    if x in s.streams {
      StreamWasUsed(events, x, n - 1);
    } else {
      OpenUses(s, e, x);
    }
  }

  // ---------- what a sweep keeps ----------

  ghost predicate Sweeps(s: State, e: Event, port: int) {
    Enabled(s, e) && e.Deliver? && e.deliver.SweepPort? && s.handlers[e.h].cause.port == port
  }

  /** When the sweep reads the clock for the session of an address. */
  function Reading(s: State, e: Event, a: Addr): int
    requires e.Deliver? && e.deliver.SweepPort?
  {
    s.now + if a in e.deliver.delays then e.deliver.delays[a] else 0
  }

  /** The stream was used at most two minutes before `reading`, in one of the first `n` steps. */
  ghost predicate UsedLately(events: seq<Event>, x: StreamId, n: nat, reading: int)
    requires Run(INIT, events).Some? && n <= |events|
  {
    exists j :: 0 <= j < n && Uses(After(events, j), events[j], x) && reading - After(events, j).now <= 120_000_000_000
  }

  lemma UsedLatelyIff(events: seq<Event>, x: StreamId, n: nat, reading: int)
    requires Run(INIT, events).Some? && n <= |events| && x in After(events, n).table.lastSeen
    ensures UsedLately(events, x, n, reading) <==> reading - After(events, n).table.lastSeen[x] <= 120_000_000_000
  {
    hide After, Run, Uses;
    var j := LastUse(events, x, n);
    forall i | 0 <= i < n && Uses(After(events, i), events[i], x)
      ensures After(events, i).now <= After(events, j).now
    {
      NowGrows(events, i, j);
    }
  }

  lemma SweepStepKeeps(s: State, e: Event, port: int, a: Addr)
    requires Inv(s) && Sweeps(s, e, port) && s.table.Has(port, a)
    requires s.table.sessions[port][a] in s.table.lastSeen
    ensures var t, x := Apply(s, e), s.table.sessions[port][a];
      && (t.table.Has(port, a) <==> Reading(s, e, a) - s.table.lastSeen[x] <= 120_000_000_000)
      && (t.table.Has(port, a) ==> t.table.sessions[port][a] == x)
      && (!t.table.Has(port, a) ==> x in t.table.closed)
      && (x in t.table.closed && t.table.Has(port, a) ==> x in s.table.closed)
  {
    TakenOutIsClosed(s.table, port, Clock(s.now, e.deliver.delays), port, a);
    var t, x := Apply(s, e), s.table.sessions[port][a];
    SessionBacked(s, port, a);
    if x in t.table.closed && x !in s.table.closed {
      var b := SweepCloses(s.table, port, Clock(s.now, e.deliver.delays), x);
      SessionBacked(s, port, b);
    }
    hide Sweep, Inv;
  }

  /** In every run, a sweep keeps a session of its port exactly when a datagram or a response used its stream
      at most two minutes before the sweep read the clock for it; a kept session stays the same and its stream
      is not closed, and that of any other is. */
  lemma SweepKeepsIff(events: seq<Event>, n: nat, port: int, a: Addr)
    requires Run(INIT, events).Some? && n < |events|
    requires Sweeps(After(events, n), events[n], port) && After(events, n).table.Has(port, a)
    ensures var s, t := After(events, n), After(events, n + 1);
      var x := s.table.sessions[port][a];
      && (t.table.Has(port, a) <==> UsedLately(events, x, n, Reading(s, events[n], a)))
      && (t.table.Has(port, a) ==> t.table.sessions[port][a] == x)
      && (!t.table.Has(port, a) ==> x in t.table.closed)
      && (x in t.table.closed && t.table.Has(port, a) ==> x in s.table.closed)
  {
    AfterInv(events, n);
    AfterStep(events, n);
    hide After, Run, Apply, UsedLately;
    var s := After(events, n);
    var x := s.table.sessions[port][a];
    SessionBacked(s, port, a);
    StreamWasUsed(events, x, n);
    UsedLatelyIff(events, x, n, Reading(s, events[n], a));
    SweepStepKeeps(s, events[n], port, a);
  }

  /** So a sweep closes no stream that was used at most two minutes before. */
  lemma SweepSparesUsed(events: seq<Event>, n: nat, port: int, x: StreamId) returns (a: Addr)
    requires Run(INIT, events).Some? && n < |events| && Sweeps(After(events, n), events[n], port)
    requires x in After(events, n + 1).table.closed && x !in After(events, n).table.closed
    ensures After(events, n).table.Has(port, a) && After(events, n).table.sessions[port][a] == x
    ensures !UsedLately(events, x, n, Reading(After(events, n), events[n], a))
  {
    AfterStep(events, n);
    var s, e := After(events, n), events[n];
    hide After, Run, UsedLately;
    a := SweepCloses(s.table, port, Clock(s.now, e.deliver.delays), x);
    AfterInv(events, n);
    SessionBacked(s, port, a);
    StreamWasUsed(events, x, n);
    UsedLatelyIff(events, x, n, Reading(s, e, a));
  }

  // ---------- when a sweep is due ----------

  /** A step that checks the interval and finds a sweep due. */
  predicate Announces(s: State, e: Event) {
    Enabled(s, e) && e.Deliver? && e.deliver.Check? && e.h in Apply(s, e).handlers
  }

  lemma StepClean(s: State, e: Event)
    requires Enabled(s, e)
    ensures Apply(s, e).table.lastClean == if Announces(s, e) then Some(s.now) else s.table.lastClean
    ensures e.Deliver? && e.deliver.Check? ==>
      (Announces(s, e) <==> s.table.lastClean.Some? ==> s.now - s.table.lastClean.value >= 30_000_000_000)
  {
    hide Listen, Unlisten, Drop, Sweep, TryInstall;
    if e.Obtain? && e.obtain.Store? {
      StoreKeepsTimes(s, e.h);
    }
  }

  /** lastClean is the time of the last sweep announced, if there was one. */
  lemma {:induction false} LastAnnounced(events: seq<Event>, n: nat) returns (j: nat)
    requires Run(INIT, events).Some? && n <= |events|
    ensures After(events, n).table.lastClean == None ==>
      forall i :: 0 <= i < n ==> !Announces(After(events, i), events[i])
    ensures After(events, n).table.lastClean.Some? ==>
      && j < n && Announces(After(events, j), events[j])
      && After(events, j).now == After(events, n).table.lastClean.value
      && (forall i :: 0 <= i < n && Announces(After(events, i), events[i]) ==> i <= j)
    decreases n
  {
    hide After, Run, Apply, Enabled, Announces;
    NoneAtFirst(events);
    j := 0;
    if n > 0 {
      AfterStep(events, n - 1);
      StepClean(After(events, n - 1), events[n - 1]);
      j := n - 1;
      if !Announces(After(events, n - 1), events[n - 1]) {
        j := LastAnnounced(events, n - 1);
      }
    }
  }

  /** In every run, an interval check finds a sweep due exactly when every sweep announced before, on any port,
      was announced at least 30 seconds ago. */
  lemma SweepDueIff(events: seq<Event>, n: nat)
    requires Run(INIT, events).Some? && n < |events| && events[n].Deliver? && events[n].deliver.Check?
    ensures Announces(After(events, n), events[n])
      <==> forall j :: 0 <= j < n && Announces(After(events, j), events[j]) ==>
        After(events, n).now - After(events, j).now >= 30_000_000_000
  {
    hide After, Run, Apply, Enabled, Announces;
    AfterStep(events, n);
    StepClean(After(events, n), events[n]);
    var j := LastAnnounced(events, n);
    forall i | 0 <= i < n && Announces(After(events, i), events[i])
      ensures After(events, n).table.lastClean.Some? && After(events, i).now <= After(events, j).now
    {
      NowGrows(events, i, j);
    }
  }
}
