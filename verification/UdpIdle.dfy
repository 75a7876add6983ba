/** How long a UDP session can stay idle: the bound the sweep gives, when it holds, and how it fails. */
module UdpIdle {
  import opened Wrappers
  import opened UdpTable
  import opened UdpRuns
  import opened UdpScenarios

  // ---------- the bound ----------

  /** Not idle for more than the timeout when the last sweep was stamped. */
  predicate Fresh(t: Table, stream: StreamId) {
    t.lastClean == None || t.Seen(stream) >= t.lastClean.value - IDLE_TIMEOUT
  }

  /** Stored by a handler that is still about to write the session's lastSeen for the first time. */
  predicate Unstamped(s: State, stream: StreamId) {
    && stream in s.streams && s.streams[stream].opener in s.handlers
    && s.handlers[s.streams[stream].opener].stage in {Spawning(stream), Started(stream)}
  }

  predicate Settled(s: State, stream: StreamId) {
    Fresh(s.table, stream) || Unstamped(s, stream)
  }

  /** No sweep has been announced and not yet carried out. */
  ghost predicate Calm(s: State) {
    forall h :: h in s.handlers ==> !s.handlers[h].stage.Sweeping?
  }

  ghost predicate StampInv(s: State) {
    s.table.lastClean.Some? ==> s.table.lastClean.value <= s.now
  }

  ghost predicate SettledInv(s: State) {
    Calm(s) ==> forall p, a :: p in s.table.sessions && a in s.table.sessions[p] ==>
      Settled(s, s.table.sessions[p][a])
  }

  ghost predicate OnePort(s: State, port: int) {
    && (forall p :: p in s.table.sessions ==> p == port)
    && (forall h :: h in s.handlers ==> s.handlers[h].cause.port == port)
  }

  ghost predicate IdleInv(s: State, port: int) {
    StampInv(s) && SettledInv(s) && OnePort(s, port)
  }

  predicate EndsInSweepCall(s: State, e: Event) {
    e.Deliver? && (e.deliver.SweepPort? || (e.deliver.Check? && Recent(s.table, s.now)))
  }

  predicate IdleTooLong(s: State, stream: StreamId) {
    s.now - s.table.Seen(stream) >= 150_000_000_000
  }

  /** Listeners and datagrams of one port only. */
  predicate Concerns(e: Event, port: int) {
    (e.Ensure? ==> e.port == port) && (e.Arrive? ==> e.datagram.port == port)
  }

  // ---------- one step ----------

  lemma CalmBefore(s: State, e: Event)
    requires Enabled(s, e) && Calm(Apply(s, e))
    ensures Calm(s) || (e.Deliver? && e.deliver.SweepPort?)
  {
    hide Listen, Unlisten, Drop, Sweep, TryInstall, Touch, Recent;
    if !Calm(s) {
      var h :| h in s.handlers && s.handlers[h].stage.Sweeping?;
      assert h !in Apply(s, e).handlers;
    }
  }

  /** A stream stays settled when its lastSeen and its opener stay, or when it is touched. */
  lemma StaysSettled(s: State, t: State, x: StreamId)
    requires StampInv(s) && t.table.lastClean == s.table.lastClean && Settled(s, x)
    requires t.table.Seen(x) == s.table.Seen(x) || t.table.Seen(x) == s.now
    requires Unstamped(s, x) ==> t.table.Seen(x) == s.now || Unstamped(t, x)
    ensures Settled(t, x)
  {
  }

  lemma SettledBefore(s: State, p: int, a: Addr)
    requires SettledInv(s) && Calm(s) && s.table.Has(p, a)
    ensures Settled(s, s.table.sessions[p][a])
  {
    assert p in s.table.sessions && a in s.table.sessions[p];
  }

  lemma StoreKeepsSettled(s: State, h: nat, x: StreamId)
    requires StampInv(s) && CanObtain(s, h, Store) && Settled(s, x)
    ensures Settled(ApplyObtain(s, h, Store), x)
  {
    StaysSettled(s, ApplyObtain(s, h, Store), x);
    hide Fresh;
  }

  lemma StoredAwaitsStamp(s: State, h: nat)
    requires Inv(s) && CanObtain(s, h, Store)
    requires var d := s.handlers[h].cause; d.port in s.table.sessions && !s.table.Has(d.port, d.addr)
    ensures Unstamped(ApplyObtain(s, h, Store), s.handlers[h].stage.own)
  {
    assert StageOk(s, h, s.handlers[h]);
    hide Inv, StageOk;
  }

  lemma StoreSettles(s: State, h: nat, p: int, a: Addr)
    requires Inv(s) && StampInv(s) && SettledInv(s) && Calm(s)
    requires CanObtain(s, h, Store) && ApplyObtain(s, h, Store).table.Has(p, a)
    ensures var t := ApplyObtain(s, h, Store); Settled(t, t.table.sessions[p][a])
  {
    var d := s.handlers[h].cause;
    if s.table.Has(p, a) {
      SettledBefore(s, p, a);
      StoreKeepsSettled(s, h, s.table.sessions[p][a]);
    } else {
      StoredAwaitsStamp(s, h);
    }
    hide Inv, StampInv, SettledInv, Calm, Fresh, Unstamped;
  }

  lemma SpawnSettles(s: State, h: nat, x: StreamId)
    requires StampInv(s) && CanObtain(s, h, Spawn) && Settled(s, x)
    ensures Settled(ApplyObtain(s, h, Spawn), x)
  {
    StaysSettled(s, ApplyObtain(s, h, Spawn), x);
    hide Fresh;
  }

  lemma OpenSettles(s: State, h: nat, stream: StreamId, ok: bool, x: StreamId)
    requires StampInv(s) && CanObtain(s, h, Open(stream, ok)) && Settled(s, x) && x in s.streams
    ensures Settled(ApplyObtain(s, h, Open(stream, ok)), x)
  {
    StaysSettled(s, ApplyObtain(s, h, Open(stream, ok)), x);
    hide Fresh;
  }

  /** The steps that neither store, start nor open anything. */
  lemma QuietSettles(s: State, h: nat, step: ObtainStep, x: StreamId)
    requires StampInv(s) && CanObtain(s, h, step) && Settled(s, x) && (step.Lookup? || step.Search? || step.Discard?)
    ensures Settled(ApplyObtain(s, h, step), x)
  {
    StaysSettled(s, ApplyObtain(s, h, step), x);
    hide Fresh;
  }

  lemma ObtainSettles(s: State, h: nat, step: ObtainStep, p: int, a: Addr)
    requires Inv(s) && StampInv(s) && SettledInv(s) && Calm(s)
    requires CanObtain(s, h, step) && ApplyObtain(s, h, step).table.Has(p, a)
    ensures var t := ApplyObtain(s, h, step); Settled(t, t.table.sessions[p][a])
  {
    if step.Store? {
      StoreSettles(s, h, p, a);
    } else {
      assert p in s.table.sessions && a in s.table.sessions[p];
      SessionBacked(s, p, a);
      var x := s.table.sessions[p][a];
      match step
      case Spawn => SpawnSettles(s, h, x);
      case Open(stream, ok) => OpenSettles(s, h, stream, ok, x);
      case _ => QuietSettles(s, h, step, x);
    }
    hide Inv, Calm, SettledInv, Settled, TryInstall, CanObtain;
  }

  lemma SweepSettles(s: State, h: nat, delays: map<Addr, nat>, port: int, p: int, a: Addr)
    requires StampInv(s) && OnePort(s, port) && CanDeliver(s, h, SweepPort(delays))
    requires ApplyDeliver(s, h, SweepPort(delays)).table.Has(p, a)
    ensures var t := ApplyDeliver(s, h, SweepPort(delays)); Settled(t, t.table.sessions[p][a])
  {
    assert p in s.table.sessions && a in s.table.sessions[p];
    assert p == port == s.handlers[h].cause.port;
    assert !Idle(s.table, s.table.sessions[p][a], Clock(s.now, delays).At(a));
    hide Unstamped, OnePort;
  }

  /** A step that neither sweeps nor stamps a sweep leaves a session that stays as settled as it was. */
  lemma DeliverSettles(s: State, h: nat, step: DeliverStep, p: int, a: Addr)
    requires StampInv(s) && CanDeliver(s, h, step) && s.table.Has(p, a) && Settled(s, s.table.sessions[p][a])
    requires !step.SweepPort? && (step.Check? ==> Recent(s.table, s.now)) && ApplyDeliver(s, h, step).table.Has(p, a)
    ensures var t := ApplyDeliver(s, h, step); Settled(t, t.table.sessions[p][a])
  {
    hide Sweep, Recent;
    StaysSettled(s, ApplyDeliver(s, h, step), s.table.sessions[p][a]);
    hide Fresh;
  }

  lemma StampingIsPending(s: State, h: nat)
    requires CanDeliver(s, h, Check) && !Recent(s.table, s.now)
    ensures !Calm(ApplyDeliver(s, h, Check))
  {
    assert ApplyDeliver(s, h, Check).handlers[h].stage.Sweeping?;
  }

  lemma DeliverOf(s: State, h: nat, step: DeliverStep, p: int, a: Addr)
    requires CanDeliver(s, h, step) && Calm(ApplyDeliver(s, h, step)) && ApplyDeliver(s, h, step).table.Has(p, a)
    ensures s.table.Has(p, a) && (step.Check? ==> Recent(s.table, s.now))
  {
    if step.Check? && !Recent(s.table, s.now) {
      StampingIsPending(s, h);
    }
    hide Recent, Calm;
  }

  lemma OtherSettles(s: State, e: Event, p: int, a: Addr)
    requires StampInv(s) && SettledInv(s) && Calm(s)
    requires Enabled(s, e) && !e.Obtain? && !e.Deliver? && Apply(s, e).table.Has(p, a)
    ensures var t := Apply(s, e); Settled(t, t.table.sessions[p][a])
  {
    assert s.table.Has(p, a);
    StaysSettled(s, Apply(s, e), s.table.sessions[p][a]);
    hide Calm, SettledInv, Fresh;
  }

  lemma StepStamp(s: State, e: Event)
    requires StampInv(s) && Enabled(s, e)
    ensures StampInv(Apply(s, e))
  {
    hide Listen, Unlisten, Drop, Sweep, Recent;
  }

  lemma StepConns(s: State, e: Event, port: int)
    requires s.table.conns.Keys <= {port} && Enabled(s, e) && Concerns(e, port)
    ensures Apply(s, e).table.conns.Keys <= {port}
  {
    hide ApplyObtain, ApplyDeliver, ApplyRead;
  }

  lemma StepOnePort(s: State, e: Event, port: int)
    requires Inv(s) && OnePort(s, port) && Enabled(s, e) && Concerns(e, port)
    ensures OnePort(Apply(s, e), port)
  {
    assert s.table.conns.Keys == s.table.sessions.Keys;
    assert forall p :: p in s.table.conns.Keys ==> p in s.table.sessions && p == port;
    StepConns(s, e, port);
    StepInv(s, e);
    var t := Apply(s, e);
    forall h | h in t.handlers ensures t.handlers[h].cause.port == port {
      StepCauses(s, e, h);
    }
    assert t.table.conns.Keys == t.table.sessions.Keys;
    hide Inv, Apply, Enabled;
  }

  lemma StepSettled(s: State, e: Event, port: int)
    requires Inv(s) && IdleInv(s, port) && Enabled(s, e)
    ensures SettledInv(Apply(s, e))
  {
    var t := Apply(s, e);
    if Calm(t) {
      CalmBefore(s, e);
      forall p, a | p in t.table.sessions && a in t.table.sessions[p]
        ensures Settled(t, t.table.sessions[p][a])
      {
        match e
        case Obtain(h, step) => ObtainSettles(s, h, step, p, a);
        case Deliver(h, step) =>
          if step.SweepPort? {
            SweepSettles(s, h, step.delays, port, p, a);
          } else {
            DeliverOf(s, h, step, p, a);
            SettledBefore(s, p, a);
            DeliverSettles(s, h, step, p, a);
          }
        case _ => OtherSettles(s, e, p, a);
      }
    }
    hide Apply, Enabled, Inv, IdleInv, Settled;
  }

  /** Whatever is in flight on the port, between sweeps every session in the table was fresh at the last
      one or awaits its first stamp. */
  lemma StepIdle(s: State, e: Event, port: int)
    requires Inv(s) && IdleInv(s, port) && Enabled(s, e) && Concerns(e, port)
    ensures IdleInv(Apply(s, e), port)
  {
    StepStamp(s, e);
    StepOnePort(s, e, port);
    StepSettled(s, e, port);
    hide Apply, Enabled, Inv;
  }

  lemma SweepCallBound(s: State, e: Event, port: int, p: int, a: Addr)
    requires IdleInv(s, port) && Enabled(s, e) && EndsInSweepCall(s, e) && (e.deliver.SweepPort? || Calm(s))
    requires Apply(s, e).table.Has(p, a)
    ensures var t := Apply(s, e); !IdleTooLong(t, t.table.sessions[p][a]) || Unstamped(t, t.table.sessions[p][a])
  {
    assert p in s.table.sessions && a in s.table.sessions[p];
    var x := s.table.sessions[p][a];
    if e.deliver.SweepPort? {
      assert p == port == s.handlers[e.h].cause.port;
      assert !Idle(s.table, x, Clock(s.now, e.deliver.delays).At(a));
    } else {
      assert Settled(s, x);
    }
  }

  // ---------- whole runs ----------

  lemma {:induction false} RunIdle(s: State, events: seq<Event>, port: int)
    requires Inv(s) && IdleInv(s, port) && Run(s, events).Some?
    requires forall e :: e in events ==> Concerns(e, port)
    ensures Inv(Run(s, events).value) && IdleInv(Run(s, events).value, port)
    decreases |events|
  {
    hide Inv, IdleInv, Enabled, Apply;
    if events != [] {
      StepInv(s, events[0]);
      StepIdle(s, events[0], port);
      RunIdle(Apply(s, events[0]), events[1..], port);
    }
  }

  /** The idle bound, for any number of handlers in flight on one port: when a datagram's handling ends in
      the sweep call, and it swept or no other sweep is pending, no session has been idle for 150 seconds or
      more, except one that its own handler has stored and not yet stamped. */
  lemma IdleBound(events: seq<Event>, e: Event, port: int, p: int, a: Addr)
    requires Run(INIT, events).Some? && forall e :: e in events ==> Concerns(e, port)
    requires var s := Run(INIT, events).value;
      && Enabled(s, e) && EndsInSweepCall(s, e) && (e.deliver.SweepPort? || Calm(s)) && Apply(s, e).table.Has(p, a)
    ensures var t := Apply(Run(INIT, events).value, e);
      t.now - t.table.Seen(t.table.sessions[p][a]) < 150_000_000_000 || Unstamped(t, t.table.sessions[p][a])
  {
    RunIdle(INIT, events, port);
    SweepCallBound(Run(INIT, events).value, e, port, p, a);
  }

  /** So a datagram that is alone in flight when its handling ends leaves no such session at all. */
  lemma IdleBoundAlone(events: seq<Event>, e: Event, port: int, p: int, a: Addr)
    requires Run(INIT, events).Some? && forall e :: e in events ==> Concerns(e, port)
    requires var s := Run(INIT, events).value;
      && Enabled(s, e) && EndsInSweepCall(s, e) && s.handlers.Keys == {e.h} && Apply(s, e).table.Has(p, a)
    ensures var t := Apply(Run(INIT, events).value, e);
      t.now - t.table.Seen(t.table.sessions[p][a]) < 150_000_000_000
  {
    IdleBound(events, e, port, p, a);
    hide Run, Sweep;
    assert Apply(Run(INIT, events).value, e).handlers == map[];
  }

  // ---------- where it fails ----------

  /** Long enough for any session to be idle too long and for the next sweep to be due. */
  function LongWait(s: State, stream: StreamId): nat {
    var sinceSeen := IDLE_TIMEOUT + CLEANUP_EVERY + s.table.Seen(stream) - s.now;
    var sinceClean := if s.table.lastClean.Some? then CLEANUP_EVERY + s.table.lastClean.value - s.now else 0;
    if sinceSeen >= 0 && sinceSeen >= sinceClean then sinceSeen else if sinceClean >= 0 then sinceClean else 0
  }

  function StampEvents(k: nat, wait: nat): seq<Event> {
    [Tick(wait), Deliver(k, Check)] + []
  }

  /** Handler `k` waits, finds a sweep due and stamps it. */
  function Stamped(s: State, k: nat, wait: nat): State
    requires k in s.handlers
  {
    var handler := s.handlers[k].(stage := Sweeping);
    s.(now := s.now + wait, table := s.table.(lastClean := Some(s.now + wait)), handlers := s.handlers[k := handler])
  }

  lemma StampReached(s: State, k: nat, wait: nat)
    requires !s.crashed && k in s.handlers && s.handlers[k].stage == Checking && !Recent(s.table, s.now + wait)
    ensures Run(s, StampEvents(k, wait)) == Some(Stamped(s, k, wait))
  {
    hide Recent;
    assert Apply(Apply(s, Tick(wait)), Deliver(k, Check)) == Stamped(s, k, wait);
    assert Enabled(s, Tick(wait)) && Enabled(Apply(s, Tick(wait)), Deliver(k, Check));
    hide Apply, Enabled, Stamped;
    RunTwo(s, Tick(wait), Deliver(k, Check), []);
  }

  /** No pending sweep is needed: in any state, two handlers about to check the interval, on one port or
      two, can leave any session of the table idle for 150 seconds or more. */
  lemma PendingSweepBreaks(s: State, g: nat, h: nat, p: int, a: Addr)
    requires !s.crashed && g in s.handlers && h in s.handlers && g != h
    requires s.handlers[g].stage == Checking && s.handlers[h].stage == Checking && s.table.Has(p, a)
    ensures var t := Run(s, StampEvents(g, LongWait(s, s.table.sessions[p][a])));
      && t.Some? && Enabled(t.value, Deliver(h, Check)) && EndsInSweepCall(t.value, Deliver(h, Check))
      && var u := Apply(t.value, Deliver(h, Check));
      u.table.sessions == s.table.sessions && IdleTooLong(u, s.table.sessions[p][a])
  {
    StampReached(s, g, LongWait(s, s.table.sessions[p][a]));
    hide StampEvents, Run;
  }

  function SweepEvents(k: nat, wait: nat): seq<Event> {
    StampEvents(k, wait) + [Deliver(k, SweepPort(map[]))]
  }

  /** Handler `k` waits, finds a sweep due and carries it out at once. */
  function AfterSweep(s: State, k: nat, wait: nat): State
    requires k in s.handlers
  {
    var table := Sweep(s.table.(lastClean := Some(s.now + wait)), s.handlers[k].cause.port, Clock(s.now + wait, map[]));
    s.(now := s.now + wait, handlers := s.handlers - {k}, table := table)
  }

  lemma StampedSweeps(s: State, k: nat, wait: nat)
    requires !s.crashed && k in s.handlers
    ensures Enabled(Stamped(s, k, wait), Deliver(k, SweepPort(map[])))
    ensures Apply(Stamped(s, k, wait), Deliver(k, SweepPort(map[]))) == AfterSweep(s, k, wait)
  {
    hide Sweep, Touch, Drop;
    assert Stamped(s, k, wait).handlers - {k} == s.handlers - {k};
  }

  lemma SweepReached(s: State, k: nat, wait: nat)
    requires !s.crashed && k in s.handlers && s.handlers[k].stage == Checking && !Recent(s.table, s.now + wait)
    ensures Run(s, SweepEvents(k, wait)) == Some(AfterSweep(s, k, wait))
  {
    hide Run, Apply, Enabled, AfterSweep, Stamped, StampEvents, Recent;
    StampReached(s, k, wait);
    StampedSweeps(s, k, wait);
    RunConcat(s, StampEvents(k, wait), [Deliver(k, SweepPort(map[]))]);
    RunOne(Stamped(s, k, wait), Deliver(k, SweepPort(map[])));
  }

  /** One port is needed: a sweep of another port, carried out in full, has the same effect. */
  lemma OtherPortBreaks(s: State, g: nat, h: nat, p: int, a: Addr)
    requires !s.crashed && g in s.handlers && h in s.handlers && g != h && s.handlers[g].cause.port != p
    requires s.handlers[g].stage == Checking && s.handlers[h].stage == Checking && s.table.Has(p, a)
    ensures var t := Run(s, SweepEvents(g, LongWait(s, s.table.sessions[p][a])));
      && t.Some? && Enabled(t.value, Deliver(h, Check)) && EndsInSweepCall(t.value, Deliver(h, Check))
      && (Calm(s) ==> Calm(t.value))
      && var u := Apply(t.value, Deliver(h, Check));
      u.table.Has(p, a) && u.table.sessions[p][a] == s.table.sessions[p][a] && IdleTooLong(u, s.table.sessions[p][a])
  {
    SweepReached(s, g, LongWait(s, s.table.sessions[p][a]));
    hide SweepEvents, Run, Kept, Expired;
  }

  lemma StoreThenCheck(s: State, g: nat, h: nat, own: StreamId)
    requires !s.crashed && g in s.handlers && h in s.handlers && Recent(s.table, s.now)
    requires s.handlers[g].stage == Installing(own) && s.handlers[h].stage == Checking
    requires own in s.streams && s.streams[own].opener == g && IdleTooLong(s, own)
    requires var d := s.handlers[g].cause; d.port in s.table.sessions && !s.table.Has(d.port, d.addr)
    ensures Enabled(s, Obtain(g, Store))
    ensures var t := Apply(s, Obtain(g, Store));
      && Enabled(t, Deliver(h, Check)) && EndsInSweepCall(t, Deliver(h, Check)) && (Calm(s) ==> Calm(t))
      && var u, d := Apply(t, Deliver(h, Check)), s.handlers[g].cause;
      u.table.Has(d.port, d.addr) && u.table.sessions[d.port][d.addr] == own && Unstamped(u, own) && IdleTooLong(u, own)
  {
    var d := s.handlers[g].cause;
    var t := Apply(s, Obtain(g, Store));
    var u := Apply(t, Deliver(h, Check));
    assert u.table.sessions[d.port][d.addr] == own;
  }

  /** And so is the exception: a session stored only after the sweep, by a handler that opened its stream
      long before, is in the table with its old time when the next datagram's handling ends. */
  lemma LateStoreBreaks(s: State, g: nat, k: nat, h: nat, own: StreamId)
    requires !s.crashed && g in s.handlers && k in s.handlers && h in s.handlers && k != h
    requires s.handlers[g].stage == Installing(own) && s.handlers[k].stage == Checking
    requires s.handlers[h].stage == Checking
    requires own in s.streams && s.streams[own].opener == g
    requires var d := s.handlers[g].cause; d.port in s.table.sessions && !s.table.Has(d.port, d.addr)
    ensures var t := Run(s, SweepEvents(k, LongWait(s, own)) + [Obtain(g, Store)]);
      && t.Some? && Enabled(t.value, Deliver(h, Check)) && EndsInSweepCall(t.value, Deliver(h, Check))
      && (Calm(s) ==> Calm(t.value))
      && var u, d := Apply(t.value, Deliver(h, Check)), s.handlers[g].cause;
      u.table.Has(d.port, d.addr) && u.table.sessions[d.port][d.addr] == own && Unstamped(u, own) && IdleTooLong(u, own)
  {
    SweepReached(s, k, LongWait(s, own));
    var r := AfterSweep(s, k, LongWait(s, own));
    StoreThenCheck(r, g, h, own);
    hide Apply, Enabled, SweepEvents, AfterSweep, IdleTooLong, EndsInSweepCall, Unstamped, Calm;
    RunConcat(s, SweepEvents(k, LongWait(s, own)), [Obtain(g, Store)]);
    RunOne(r, Obtain(g, Store));
  }

  // ---------- a run that gets there ----------

  lemma OverlapConcerns(d: Datagram)
    ensures forall e :: e in OverlapEvents(d) ==> Concerns(e, d.port)
  {
    assert forall h: nat, x: nat, e :: e in ServeEvents(d, h, x) ==> Concerns(e, d.port);
    assert forall e :: e in ReopenEvents(d.port) ==> Concerns(e, d.port);
  }

  /** So the bound fails in a run of one port, any port and any datagram. */
  lemma OverlapBreaksBound(d: Datagram) returns (events: seq<Event>)
    requires d.port > 0
    ensures Run(INIT, events).Some? && forall e :: e in events ==> Concerns(e, d.port)
    ensures var s := Run(INIT, events).value;
      && Enabled(s, Deliver(1, Check)) && EndsInSweepCall(s, Deliver(1, Check))
      && var u := Apply(s, Deliver(1, Check));
      u.table.Has(d.port, d.addr) && IdleTooLong(u, u.table.sessions[d.port][d.addr])
  {
    OverlapReached(d);
    OverlapConcerns(d);
    hide Run, Apply, Enabled, EndsInSweepCall, OverlapEvents;
    var s := Run(INIT, OverlapEvents(d)).value;
    PendingSweepBreaks(s, 0, 1, d.port, d.addr);
    hide IdleTooLong, LongWait;
    var more := StampEvents(0, LongWait(s, 1));
    events := OverlapEvents(d) + more;
    RunConcat(INIT, OverlapEvents(d), more);
  }

  // ---------- a run that needs the exception ----------

  /** A handler of the old socket has opened its stream and is slow; its port is reopened, and another
      datagram is served there. */
  function SlowStart(d: Datagram): seq<Event> {
    [Ensure(d.port, 0, true)] + (OpenEvents(d, 0, 0) + ReopenEvents(d.port))
  }

  function SlowEvents(d: Datagram, next: Datagram): seq<Event> {
    SlowStart(d) + ServeEvents(next, 1, 1)
  }

  /** The slow handler still has its stream in hand, and the other is about to check the interval. */
  ghost predicate Slow(s: State, d: Datagram, next: Datagram) {
    && !s.crashed && s.now == 0 && s.handlers == map[0 := Handler(d, 0, Installing(0)), 1 := Handler(next, 1, Checking)]
    && s.streams.Keys == {0, 1} && s.streams[0].opener == 0 && s.table.closed == {} && s.table.lastClean == None
    && s.table.conns == map[d.port := 1] && s.table.sessions == map[d.port := map[next.addr := 1]]
    && s.table.Seen(0) == 0
  }

  lemma SlowStarted(d: Datagram) returns (s: State)
    requires d.port > 0
    ensures Run(INIT, SlowStart(d)) == Some(s)
    ensures !s.crashed && s.now == 0 && s.handlers == map[0 := Handler(d, 0, Installing(0))]
    ensures s.streams == map[0 := Stream(d, 0, 0, [])] && s.table.lastSeen == map[0 := 0]
    ensures s.table.closed == {} && s.table.lastClean == None
    ensures s.table.conns == map[d.port := 1] && s.table.sessions == map[d.port := map[]]
  {
    var s1 := Apply(INIT, Ensure(d.port, 0, true));
    FirstDatagramOpens(s1, d, 0, 0);
    var s2 := Opened(s1, d, 0, 0);
    assert s2.table.SessionsOf(d.port) == map[];
    PortReopened(s2, d.port);
    s := Reopened(s2, d.port);
    var w, x := OpenEvents(d, 0, 0), ReopenEvents(d.port);
    assert ([Ensure(d.port, 0, true)] + (w + x))[1..] == w + x;
    assert Run(INIT, SlowStart(d)) == Run(s1, w + x);
    hide *;
    RunConcat(s1, w, x);
  }

  lemma SlowReached(d: Datagram, next: Datagram)
    requires d.port > 0 && next.port == d.port
    ensures Run(INIT, SlowEvents(d, next)).Some? && Slow(Run(INIT, SlowEvents(d, next)).value, d, next)
  {
    var s := SlowStarted(d);
    hide Run, SlowStart, ServeEvents;
    FirstDatagramServed(s, next, 1, 1);
    RunConcat(INIT, SlowStart(d), ServeEvents(next, 1, 1));
  }

  /** The other handler sweeps long after, and then the slow one stores its session. */
  function StoreEvents(wait: nat): seq<Event> {
    SweepEvents(1, wait) + [Obtain(0, Store)]
  }

  lemma SweptLate(s: State, d: Datagram, next: Datagram, last: Datagram, wait: nat)
    requires Slow(s, d, next) && wait >= IDLE_TIMEOUT + CLEANUP_EVERY
    requires last.port == d.port && last.addr != next.addr
    ensures var r := AfterSweep(s, 1, wait);
      && r.handlers == map[0 := Handler(d, 0, Installing(0))] && r.streams == s.streams && !r.crashed
      && d.port in r.table.conns && d.port in r.table.sessions && !r.table.Has(d.port, last.addr)
      && r.table.closed <= {1} && r.table.lastClean == Some(wait) && r.now == wait
      && r.table.lastSeen == s.table.lastSeen
      && (d.addr != next.addr ==> !r.table.Has(d.port, d.addr))
  {
    hide Expired;
  }

  lemma StoresOwn(r: State, d: Datagram, last: Datagram)
    requires !r.crashed && r.handlers == map[0 := Handler(d, 0, Installing(0))]
    requires d.port in r.table.sessions && !r.table.Has(d.port, d.addr)
    requires NewTo(r, last, 2, 2) && last.addr != d.addr
    ensures Enabled(r, Obtain(0, Store))
    ensures var t := Apply(r, Obtain(0, Store));
      && NewTo(t, last, 2, 2) && t.handlers == map[0 := Handler(d, 0, Spawning(0))]
      && t.table.Has(d.port, d.addr) && t.table.sessions[d.port][d.addr] == 0
      && t.streams == r.streams && t.table.lastSeen == r.table.lastSeen
      && t.now == r.now && t.table.lastClean == r.table.lastClean
  {
    var t := Apply(r, Obtain(0, Store));
    assert t.table.sessions[d.port][d.addr] == 0 && t.handlers == map[0 := Handler(d, 0, Spawning(0))];
  }

  lemma StoredLate(s: State, d: Datagram, next: Datagram, last: Datagram, wait: nat)
    requires Slow(s, d, next) && d.addr != next.addr && wait >= IDLE_TIMEOUT + CLEANUP_EVERY
    requires last.port == d.port && last.addr != d.addr && last.addr != next.addr
    ensures var t := Run(s, StoreEvents(wait));
      && t.Some? && NewTo(t.value, last, 2, 2) && t.value.handlers == map[0 := Handler(d, 0, Spawning(0))]
      && t.value.table.Has(d.port, d.addr) && t.value.table.sessions[d.port][d.addr] == 0
      && t.value.streams == s.streams && t.value.table.Seen(0) == 0
      && t.value.now == wait && t.value.table.lastClean == Some(wait)
  {
    SweepReached(s, 1, wait);
    SweptLate(s, d, next, last, wait);
    var r := AfterSweep(s, 1, wait);
    hide AfterSweep, Sweep, Run, SweepEvents, Apply, Enabled, Recent;
    assert NewTo(r, last, 2, 2);
    StoresOwn(r, d, last);
    RunConcat(s, SweepEvents(1, wait), [Obtain(0, Store)]);
    RunOne(r, Obtain(0, Store));
  }

  lemma CheckedAfterStore(s: State, d: Datagram)
    requires !s.crashed && 0 in s.handlers && s.handlers[0].stage == Spawning(0) && 2 in s.handlers
    requires s.handlers[2].stage == Checking
    requires 0 in s.streams && s.streams[0].opener == 0 && s.table.Has(d.port, d.addr)
    requires s.table.sessions[d.port][d.addr] == 0
    requires s.now >= IDLE_TIMEOUT + CLEANUP_EVERY && s.table.lastClean == Some(s.now) && s.table.Seen(0) == 0
    ensures Enabled(s, Deliver(2, Check)) && EndsInSweepCall(s, Deliver(2, Check))
    ensures var u := Apply(s, Deliver(2, Check));
      u.table.Has(d.port, d.addr) && u.table.sessions[d.port][d.addr] == 0 && Unstamped(u, 0) && IdleTooLong(u, 0)
  {
  }

  lemma LastServed(s: State, d: Datagram, last: Datagram)
    requires NewTo(s, last, 2, 2) && s.handlers == map[0 := Handler(d, 0, Spawning(0))]
    requires last.port == d.port && last.addr != d.addr && s.table.Has(d.port, d.addr)
    requires s.table.sessions[d.port][d.addr] == 0
    requires 0 in s.streams && s.streams[0].opener == 0 && s.table.Seen(0) == 0
    requires s.now >= IDLE_TIMEOUT + CLEANUP_EVERY && s.table.lastClean == Some(s.now)
    ensures var t := Run(s, ServeEvents(last, 2, 2));
      && t.Some? && t.value.handlers.Keys == {0, 2} && Calm(t.value)
      && Enabled(t.value, Deliver(2, Check)) && EndsInSweepCall(t.value, Deliver(2, Check))
      && var u := Apply(t.value, Deliver(2, Check));
      u.table.Has(d.port, d.addr) && u.table.sessions[d.port][d.addr] == 0 && Unstamped(u, 0) && IdleTooLong(u, 0)
  {
    FirstDatagramServed(s, last, 2, 2);
    var t := Run(s, ServeEvents(last, 2, 2)).value;
    hide Run, ServeEvents, NewTo;
    assert t.table.sessions[d.port] == s.table.sessions[d.port][last.addr := 2];
    CheckedAfterStore(t, d);
    hide Apply, Enabled, EndsInSweepCall, IdleTooLong, Unstamped;
  }

  lemma LateConcerns(d: Datagram, next: Datagram, last: Datagram, wait: nat)
    requires next.port == d.port == last.port
    ensures forall e :: e in SlowEvents(d, next) + (StoreEvents(wait) + ServeEvents(last, 2, 2)) ==> Concerns(e, d.port)
  {
    assert forall e :: e in SlowStart(d) ==> Concerns(e, d.port);
    assert forall e :: e in ServeEvents(next, 1, 1) ==> Concerns(e, d.port);
    assert forall e :: e in ServeEvents(last, 2, 2) ==> Concerns(e, d.port);
    assert forall e :: e in StoreEvents(wait) ==> Concerns(e, d.port);
    hide SlowStart, ServeEvents, StoreEvents;
  }

  /** For every three datagrams of one port with different addresses there is a run from the start, of that
      port alone and with two handlers in flight, in which no sweep is pending when a datagram's handling ends
      in the sweep call, and a session that awaits its first stamp is left idle for 150 seconds. */
  lemma LateStoreReached(d: Datagram, next: Datagram, last: Datagram) returns (events: seq<Event>)
    requires d.port > 0 && next.port == d.port == last.port
    requires d.addr != next.addr && last.addr != d.addr && last.addr != next.addr
    ensures Run(INIT, events).Some? && forall e :: e in events ==> Concerns(e, d.port)
    ensures var s := Run(INIT, events).value;
      && s.handlers.Keys == {0, 2} && Calm(s) && Enabled(s, Deliver(2, Check)) && EndsInSweepCall(s, Deliver(2, Check))
      && var u := Apply(s, Deliver(2, Check));
      u.table.Has(d.port, d.addr) && u.table.sessions[d.port][d.addr] == 0 && Unstamped(u, 0) && IdleTooLong(u, 0)
  {
    var wait: nat := IDLE_TIMEOUT + CLEANUP_EVERY;
    SlowReached(d, next);
    var s1 := Run(INIT, SlowEvents(d, next)).value;
    StoredLate(s1, d, next, last, wait);
    var s2 := Run(s1, StoreEvents(wait)).value;
    assert 0 in s2.streams && s2.streams[0].opener == 0;
    hide *;
    LastServed(s2, d, last);
    LateConcerns(d, next, last, wait);
    events := SlowEvents(d, next) + (StoreEvents(wait) + ServeEvents(last, 2, 2));
    RunConcat(INIT, SlowEvents(d, next), StoreEvents(wait) + ServeEvents(last, 2, 2));
    RunConcat(s1, StoreEvents(wait), ServeEvents(last, 2, 2));
  }
}
