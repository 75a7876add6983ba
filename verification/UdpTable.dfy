/** The UDP proxy's tables: open sockets by port, and per port the stream serving each remote address. */
module UdpTable {
  import opened Wrappers

  type Addr = string

  type StreamId = nat

  // Durations in nanoseconds.
  const SECOND: int := 1_000_000_000
  const IDLE_TIMEOUT: int := 120 * SECOND
  const CLEANUP_EVERY: int := 30 * SECOND

  /** `lastSeen` is the field of each session object, `closed` says which streams this side has closed,
      and `lastClean == None` is Go's zero time, longer ago than any interval. */
  datatype Table = Table(
    conns: map<int, nat>,
    sessions: map<int, map<Addr, StreamId>>,
    lastSeen: map<StreamId, int>,
    closed: set<StreamId>,
    lastClean: Option<int>)
  {
    function SessionsOf(port: int): map<Addr, StreamId> {
      if port in sessions then sessions[port] else map[]
    }

    function Seen(stream: StreamId): int {
      if stream in lastSeen then lastSeen[stream] else 0
    }

    predicate Has(port: int, addr: Addr) {
      addr in SessionsOf(port)
    }
  }

  function Listen(t: Table, port: int, owner: nat, available: bool): (r: Table)
    ensures r.closed == t.closed && r.lastSeen == t.lastSeen && r.lastClean == t.lastClean
  {
    if port <= 0 || port in t.conns || !available then t
    else t.(conns := t.conns[port := owner], sessions := t.sessions[port := map[]])
  }

  function Unlisten(t: Table, port: int): (r: Table)
    ensures t.closed <= r.closed <= t.closed + t.SessionsOf(port).Values
    ensures r.lastSeen == t.lastSeen && r.lastClean == t.lastClean
  {
    if port !in t.conns then t
    else t.(closed := t.closed + t.SessionsOf(port).Values, conns := t.conns - {port}, sessions := t.sessions - {port})
  }

  function Touch(t: Table, stream: StreamId, now: int): Table {
    t.(lastSeen := t.lastSeen[stream := now])
  }

  function Drop(t: Table, port: int, addr: Addr): (r: Table)
    ensures r.closed == t.closed && r.lastSeen == t.lastSeen && r.lastClean == t.lastClean
  {
    if port in t.sessions then t.(sessions := t.sessions[port := t.sessions[port] - {addr}]) else t
  }

  predicate Idle(t: Table, stream: StreamId, now: int) {
    now - t.Seen(stream) > IDLE_TIMEOUT
  }

  /** When a sweep that starts at `start` reads the clock for each session it visits. */
  datatype Clock = Clock(start: int, delays: map<Addr, nat>) {
    function At(a: Addr): (reading: int)
      ensures reading >= start
    {
      start + if a in delays then delays[a] else 0
    }
  }

  /** A sweep of `inner` that has `todo` still to visit: what it leaves, and what it has closed. */
  function Kept(t: Table, inner: map<Addr, StreamId>, todo: set<Addr>, clock: Clock): map<Addr, StreamId> {
    map a | a in inner && (a in todo || !Idle(t, inner[a], clock.At(a))) :: inner[a]
  }

  function Expired(t: Table, inner: map<Addr, StreamId>, todo: set<Addr>, clock: Clock): set<StreamId> {
    set a | a in inner && a !in todo && Idle(t, inner[a], clock.At(a)) :: inner[a]
  }

  function Sweep(t: Table, port: int, clock: Clock): (r: Table)
    ensures t.closed <= r.closed <= t.closed + t.SessionsOf(port).Values
    ensures r.lastSeen == t.lastSeen && r.lastClean == t.lastClean
  {
    if port !in t.sessions then t
    else
      var inner := t.sessions[port];
      t.(closed := t.closed + Expired(t, inner, {}, clock), sessions := t.sessions[port := Kept(t, inner, {}, clock)])
  }

  lemma SweepStep(t: Table, inner: map<Addr, StreamId>, todo: set<Addr>, clock: Clock, a: Addr)
    requires a in todo && a in inner
    ensures Idle(t, inner[a], clock.At(a)) ==> Kept(t, inner, todo - {a}, clock) == Kept(t, inner, todo, clock) - {a}
    ensures Idle(t, inner[a], clock.At(a)) ==>
      Expired(t, inner, todo - {a}, clock) == Expired(t, inner, todo, clock) + {inner[a]}
    ensures !Idle(t, inner[a], clock.At(a)) ==> Kept(t, inner, todo - {a}, clock) == Kept(t, inner, todo, clock)
    ensures !Idle(t, inner[a], clock.At(a)) ==> Expired(t, inner, todo - {a}, clock) == Expired(t, inner, todo, clock)
  {
  }

  lemma SweepStart(t: Table, inner: map<Addr, StreamId>, clock: Clock)
    ensures Kept(t, inner, inner.Keys, clock) == inner && Expired(t, inner, inner.Keys, clock) == {}
  {
  }

  predicate Recent(t: Table, now: int) {
    t.lastClean.Some? && now - t.lastClean.value < CLEANUP_EVERY
  }

  /** The second locked region of getOrCreateSession. Writing to the inner map of a port whose listener
      was removed while the lock was released panics. */
  datatype Install = Installed(table: Table) | Exists(stream: StreamId) | Panic

  function TryInstall(t: Table, port: int, addr: Addr, stream: StreamId): Install {
    if t.Has(port, addr) then Exists(t.sessions[port][addr])
    else if port !in t.sessions then Panic
    else
      var inner: map<Addr, StreamId> := t.sessions[port][addr := stream];
      Installed(t.(sessions := t.sessions[port := inner]))
  }

  /** A removed listener takes out all its sessions. A sweep takes out those of its port whose lastSeen was more
      than two minutes before the clock was read for them, and keeps the others. Both close what they take out. */
  lemma TakenOutIsClosed(t: Table, port: int, clock: Clock, p: int, a: Addr)
    requires t.Has(p, a) && t.conns.Keys == t.sessions.Keys
    ensures !Unlisten(t, port).Has(p, a) <==> p == port
    ensures p == port ==> t.sessions[p][a] in Unlisten(t, port).closed
    ensures !Sweep(t, port, clock).Has(p, a)
      <==> p == port && clock.At(a) - t.Seen(t.sessions[p][a]) > 120_000_000_000
    ensures !Sweep(t, port, clock).Has(p, a) ==> t.sessions[p][a] in Sweep(t, port, clock).closed
    ensures Sweep(t, port, clock).Has(p, a) ==> Sweep(t, port, clock).sessions[p][a] == t.sessions[p][a]
  {
    assert a in t.sessions[p].Keys && t.sessions[p][a] in t.sessions[p].Values;
  }

  /** And a sweep closes nothing else. */
  lemma SweepCloses(t: Table, port: int, clock: Clock, x: StreamId) returns (a: Addr)
    requires x in Sweep(t, port, clock).closed && x !in t.closed
    ensures t.Has(port, a) && t.sessions[port][a] == x && clock.At(a) - t.Seen(x) > 120_000_000_000
  {
    a :| a in t.sessions[port] && t.sessions[port][a] == x && Idle(t, x, clock.At(a));
  }

  class UDPProxy {
    var conns: map<int, nat>
    var sessions: map<int, map<Addr, StreamId>>
    var lastSeen: map<StreamId, int>
    var closed: set<StreamId>
    var lastClean: Option<int>

    ghost function State(): Table
      reads this
    {
      Table(conns, sessions, lastSeen, closed, lastClean)
    }

    constructor ()
      ensures State() == Table(map[], map[], map[], {}, None)
    {
      conns, sessions, lastSeen, closed, lastClean := map[], map[], map[], {}, None;
    }

    /** `available` is whether the operating system grants the port. */
    method EnsureListener(port: int, owner: nat, available: bool) returns (ok: bool)
      modifies this
      ensures State() == Listen(old(State()), port, owner, available)
      ensures !ok <==> port > 0 && port !in old(conns) && !available
    {
      if port <= 0 || port in conns {
        return true;
      }
      if !available {
        return false;
      }
      conns := conns[port := owner];
      sessions := sessions[port := map[]];
      return true;
    }

    method RemoveListener(port: int)
      modifies this
      ensures State() == Unlisten(old(State()), port)
    {
      if port !in conns {
        return;
      }
      if port in sessions {
        var inner := sessions[port];
        var todo := inner.Keys;
        while todo != {}
          invariant todo <= inner.Keys
          invariant closed == old(closed) + set a | a in inner && a !in todo :: inner[a]
          invariant State() == old(State()).(closed := closed)
          decreases todo
        {
          var a :| a in todo;
          closed := closed + {inner[a]};
          todo := todo - {a};
        }
        assert (set a | a in inner && a !in todo :: inner[a]) == inner.Values;
      }
      conns := conns - {port};
      sessions := sessions - {port};
    }

    /** The first locked region of getOrCreateSession. */
    method FindSession(port: int, addr: Addr, now: int) returns (found: Option<StreamId>)
      modifies this
      ensures found == if old(State()).Has(port, addr) then Some(old(sessions)[port][addr]) else None
      ensures State() == if found.Some? then Touch(old(State()), found.value, now) else old(State())
    {
      if port in sessions && addr in sessions[port] {
        var stream := sessions[port][addr];
        lastSeen := lastSeen[stream := now];
        return Some(stream);
      }
      return None;
    }

    method InstallSession(port: int, addr: Addr, stream: StreamId) returns (result: Install)
      modifies this
      ensures result == TryInstall(old(State()), port, addr, stream)
      ensures State() == if result.Installed? then result.table else old(State())
    {
      if port in sessions && addr in sessions[port] {
        return Exists(sessions[port][addr]);
      }
      if port !in sessions {
        return Panic;
      }
      var inner: map<Addr, StreamId> := sessions[port][addr := stream];
      sessions := sessions[port := inner];
      return Installed(Table(conns, sessions, lastSeen, closed, lastClean));
    }

    method DropSession(port: int, addr: Addr)
      modifies this
      ensures State() == Drop(old(State()), port, addr)
    {
      if port in sessions {
        sessions := sessions[port := sessions[port] - {addr}];
      }
    }

    /** The clock is read for the interval check, for lastClean, and under the lock once for each session. */
    method CleanupSessions(port: int, checked: int, stamped: int, clock: Clock)
      requires checked <= stamped <= clock.start
      modifies this
      ensures var recent := old(lastClean).Some? && checked - old(lastClean).value < 30_000_000_000;
        State() == if recent then old(State()) else Sweep(old(State()).(lastClean := Some(stamped)), port, clock)
    {
      if lastClean.Some? && checked - lastClean.value < CLEANUP_EVERY {
        return;
      }
      lastClean := Some(stamped);
      if port !in sessions {
        return;
      }
      ghost var t := State();
      var before := sessions[port];
      var kept, todo := before, before.Keys;
      SweepStart(t, before, clock);
      assert t.sessions == t.sessions[port := kept];
      hide Kept, Expired;
      while todo != {}
        invariant todo <= before.Keys
        invariant kept == Kept(t, before, todo, clock)
        invariant closed == t.closed + Expired(t, before, todo, clock)
        invariant State() == t.(closed := closed, sessions := t.sessions[port := kept])
        decreases todo
      {
        var a :| a in todo;
        SweepStep(t, before, todo, clock, a);
        var seen := if before[a] in lastSeen then lastSeen[before[a]] else 0;
        var now := clock.At(a);
        if now - seen > IDLE_TIMEOUT {
          closed := closed + {before[a]};
          kept := kept - {a};
          sessions := sessions[port := kept];
        }
        todo := todo - {a};
      }
    }
  }
}
