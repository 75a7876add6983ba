/** The UDP proxy as a concurrent machine: datagram handlers, response readers, listener changes and a
    clock interleave, one locked region or blocking call per step. */
module UdpRuns {
  import opened Wrappers
  import opened UdpTable

  datatype Datagram = Datagram(port: int, addr: Addr, payload: seq<int>)

  /** A stream to the tunnel client: the datagram it was opened for, the owner of the listener that this
      arrived on, the handler that opened the stream, and the datagrams framed onto it. */
  datatype Stream = Stream(cause: Datagram, via: nat, opener: nat, written: seq<Datagram>)

  /** A datagram sent back, and the owner of the listener it was sent through. */
  datatype Response = Response(stream: StreamId, port: int, addr: Addr, payload: seq<int>, through: nat)

  /** Where a datagram handler is. A finished handler is no longer in the state. */
  datatype Stage =
    | Looking                                          // before the registry lookup
    | Searching                                        // before the first lock
    | Opening                                          // no session found, lock released
    | Installing(own: StreamId)                        // stream opened, before the second lock
    | Discarding(own: StreamId, existing: StreamId)    // lost the race, own stream to be closed
    | Spawning(own: StreamId)                          // session stored, reader not started
    | Started(session: StreamId)                       // reader started, before the session's first stamp
    | Touching(session: StreamId)                      // session found, before the lastSeen update
    | Writing(session: StreamId)
    | Dropping                                         // the write failed
    | Checking                                         // before the sweep's interval check
    | Sweeping                                         // lastClean set, before the sweep's lock

  datatype Handler = Handler(cause: Datagram, via: nat, stage: Stage)

  datatype ReaderStage = Pending | Running | Closing | Removing | Ended

  datatype State = State(
    table: Table, now: int,
    streams: map<StreamId, Stream>, handlers: map<nat, Handler>, readers: map<StreamId, ReaderStage>,
    arrived: set<Datagram>, sent: seq<Response>, crashed: bool)

  const INIT := State(Table(map[], map[], map[], {}, None), 0, map[], map[], map[], {}, [], false)

  /** The steps of getOrCreateSession, and the lookup before it. */
  datatype ObtainStep = Lookup(found: bool) | Search | Open(stream: StreamId, ok: bool) | Store | Discard | Spawn

  /** The rest of handleDatagram. */
  datatype DeliverStep = Stamp | Write(ok: bool) | DropFailed | Check | SweepPort(delays: map<Addr, nat>)

  /** The steps of readResponses: one response, or the way out. */
  datatype ReadStep = Respond(payload: seq<int>) | Stop | CloseOwn | DropOwn

  datatype Event =
    | Tick(elapsed: nat)
    | Ensure(port: int, owner: nat, available: bool)
    | Remove(port: int)
    | Arrive(h: nat, datagram: Datagram)
    | Obtain(h: nat, obtain: ObtainStep)
    | Deliver(h: nat, deliver: DeliverStep)
    | Read(stream: StreamId, read: ReadStep)

  // ---------- steps ----------

  predicate CanObtain(s: State, h: nat, step: ObtainStep) {
    && h in s.handlers
    && var stage := s.handlers[h].stage;
    match step
    case Lookup(_) => stage.Looking?
    case Search => stage.Searching?
    case Open(stream, _) => stage.Opening? && stream !in s.streams
    case Store => stage.Installing?
    case Discard => stage.Discarding?
    case Spawn => stage.Spawning?
  }

  predicate CanDeliver(s: State, h: nat, step: DeliverStep) {
    && h in s.handlers
    && var stage := s.handlers[h].stage;
    match step
    case Stamp => stage.Touching? || stage.Started?
    case Write(ok) => stage.Writing? && stage.session in s.streams && (ok ==> stage.session !in s.table.closed)
    case DropFailed => stage.Dropping?
    case Check => stage.Checking?
    case SweepPort(_) => stage.Sweeping?
  }

  predicate CanRead(s: State, stream: StreamId, step: ReadStep) {
    && stream in s.readers && stream in s.streams
    && match step
       case Respond(_) => s.readers[stream] == Running && s.streams[stream].cause.port in s.table.conns
       case Stop => s.readers[stream] == Running
       case CloseOwn => s.readers[stream] == Closing
       case DropOwn => s.readers[stream] == Removing
  }

  predicate Enabled(s: State, e: Event) {
    && !s.crashed
    && match e
       case Tick(_) => true
       case Ensure(_, _, _) => true
       case Remove(_) => true
       case Arrive(h, d) => h !in s.handlers && d.port in s.table.conns
       case Obtain(h, step) => CanObtain(s, h, step)
       case Deliver(h, step) => CanDeliver(s, h, step)
       case Read(stream, step) => CanRead(s, stream, step)
  }

  function Moved(s: State, h: nat, stage: Stage): State
    requires h in s.handlers
  {
    s.(handlers := s.handlers[h := s.handlers[h].(stage := stage)])
  }

  function Finished(s: State, h: nat): State {
    s.(handlers := s.handlers - {h})
  }

  function ApplyObtain(s: State, h: nat, step: ObtainStep): (t: State)
    requires CanObtain(s, h, step)
    ensures t.table.conns == s.table.conns
  {
    var d, stage := s.handlers[h].cause, s.handlers[h].stage;
    match step
    case Lookup(found) => if found then Moved(s, h, Searching) else Finished(s, h)
    case Search =>
      if s.table.Has(d.port, d.addr) then
        var session := s.table.sessions[d.port][d.addr];
        Moved(s.(table := Touch(s.table, session, s.now)), h, Touching(session))
      else Moved(s, h, Opening)
    case Open(stream, ok) =>
      if !ok then Finished(s, h)
      else
        var started := Stream(d, s.handlers[h].via, h, []);
        var t := s.(streams := s.streams[stream := started], table := Touch(s.table, stream, s.now));
        Moved(t, h, Installing(stream))
    case Store =>
      (match TryInstall(s.table, d.port, d.addr, stage.own)
       case Installed(table) =>
         Moved(s.(table := table, readers := s.readers[stage.own := Pending]), h, Spawning(stage.own))
       case Exists(stream) => Moved(s, h, Discarding(stage.own, stream))
       case Panic => s.(crashed := true))
    case Discard =>
      Moved(s.(table := s.table.(closed := s.table.closed + {stage.own})), h, Touching(stage.existing))
    case Spawn => Moved(s.(readers := s.readers[stage.own := Running]), h, Started(stage.own))
  }

  function ApplyDeliver(s: State, h: nat, step: DeliverStep): (t: State)
    requires CanDeliver(s, h, step)
    ensures t.table.conns == s.table.conns
  {
    var d, stage := s.handlers[h].cause, s.handlers[h].stage;
    match step
    case Stamp => Moved(s.(table := Touch(s.table, stage.session, s.now)), h, Writing(stage.session))
    case Write(ok) =>
      var stream := s.streams[stage.session];
      if ok then Moved(s.(streams := s.streams[stage.session := stream.(written := stream.written + [d])]), h, Checking)
      else Moved(s, h, Dropping)
    case DropFailed => Finished(s.(table := Drop(s.table, d.port, d.addr)), h)
    case Check =>
      if Recent(s.table, s.now) then Finished(s, h)
      else Moved(s.(table := s.table.(lastClean := Some(s.now))), h, Sweeping)
    case SweepPort(delays) => Finished(s.(table := Sweep(s.table, d.port, Clock(s.now, delays))), h)
  }

  function ApplyRead(s: State, stream: StreamId, step: ReadStep): (t: State)
    requires CanRead(s, stream, step)
    ensures t.table.conns == s.table.conns
  {
    var d := s.streams[stream].cause;
    match step
    case Respond(payload) =>
      var response := Response(stream, d.port, d.addr, payload, s.table.conns[d.port]);
      s.(sent := s.sent + [response], table := Touch(s.table, stream, s.now))
    case Stop => s.(readers := s.readers[stream := Closing])
    case CloseOwn =>
      s.(table := s.table.(closed := s.table.closed + {stream}), readers := s.readers[stream := Removing])
    case DropOwn => s.(table := Drop(s.table, d.port, d.addr), readers := s.readers[stream := Ended])
  }

  function Apply(s: State, e: Event): State
    requires Enabled(s, e)
  {
    match e
    case Tick(elapsed) => s.(now := s.now + elapsed)
    case Ensure(port, owner, available) => s.(table := Listen(s.table, port, owner, available))
    case Remove(port) => s.(table := Unlisten(s.table, port))
    case Arrive(h, d) =>
      var handler := Handler(d, s.table.conns[d.port], Looking);
      s.(handlers := s.handlers[h := handler], arrived := s.arrived + {d})
    case Obtain(h, step) => ApplyObtain(s, h, step)
    case Deliver(h, step) => ApplyDeliver(s, h, step)
    case Read(stream, step) => ApplyRead(s, stream, step)
  }

  function Run(s: State, events: seq<Event>): Option<State>
    decreases |events|
  {
    if events == [] then Some(s)
    else if Enabled(s, events[0]) then Run(Apply(s, events[0]), events[1..])
    else None
  }

  // ---------- invariants ----------

  predicate SameOrigin(a: Datagram, b: Datagram) {
    a.port == b.port && a.addr == b.addr
  }

  predicate Serves(s: State, stream: StreamId, d: Datagram) {
    stream in s.streams && SameOrigin(s.streams[stream].cause, d)
  }

  /** A session in the table: its stream was opened for that port and address, and its reader has been
      or is about to be started and has not ended. */
  predicate Backed(s: State, port: int, addr: Addr, stream: StreamId) {
    && stream in s.streams && s.streams[stream].cause.port == port && s.streams[stream].cause.addr == addr
    && stream in s.readers && s.readers[stream] != Ended
  }

  ghost predicate TableInv(s: State) {
    && s.table.conns.Keys == s.table.sessions.Keys
    && (forall p, a :: p in s.table.sessions && a in s.table.sessions[p] ==> Backed(s, p, a, s.table.sessions[p][a]))
  }

  predicate Holds(stage: Stage, stream: StreamId) {
    (stage.Installing? || stage.Discarding?) && stage.own == stream
  }

  /** Somebody answers for the stream: it is closed, or the handler that opened it still has it in
      hand, or its reader has not passed its own Close. */
  predicate Accounted(s: State, stream: StreamId)
    requires stream in s.streams
  {
    || stream in s.table.closed
    || (s.streams[stream].opener in s.handlers && Holds(s.handlers[s.streams[stream].opener].stage, stream))
    || (stream in s.readers && s.readers[stream] in {Pending, Running, Closing})
  }

  predicate StageOk(s: State, h: nat, handler: Handler) {
    match handler.stage
    case Installing(own) => Serves(s, own, handler.cause) && s.streams[own].opener == h && own !in s.readers
    case Discarding(own, existing) =>
      && Serves(s, own, handler.cause) && s.streams[own].opener == h && own !in s.readers
      && Serves(s, existing, handler.cause)
    case Spawning(own) =>
      Serves(s, own, handler.cause) && s.streams[own].opener == h && own in s.readers && s.readers[own] == Pending
    case Started(session) => Serves(s, session, handler.cause)
    case Touching(session) => Serves(s, session, handler.cause)
    case Writing(session) => Serves(s, session, handler.cause)
    case _ => true
  }

  ghost predicate HoldInv(s: State) {
    && s.readers.Keys <= s.streams.Keys && s.table.closed <= s.streams.Keys
    && (forall h :: h in s.handlers ==> StageOk(s, h, s.handlers[h]))
    && (forall stream :: stream in s.streams ==> Accounted(s, stream))
  }

  ghost predicate StreamSourced(s: State, stream: Stream) {
    && stream.cause in s.arrived
    && (forall i :: 0 <= i < |stream.written| ==>
      stream.written[i] in s.arrived && SameOrigin(stream.written[i], stream.cause))
  }

  predicate ResponseSourced(s: State, r: Response) {
    r.stream in s.streams && s.streams[r.stream].cause.port == r.port && s.streams[r.stream].cause.addr == r.addr
  }

  ghost predicate ResponsesSourced(s: State) {
    forall r :: r in s.sent ==> ResponseSourced(s, r)
  }

  ghost predicate SourceInv(s: State) {
    && (forall h :: h in s.handlers ==> s.handlers[h].cause in s.arrived)
    && (forall x :: x in s.streams ==> StreamSourced(s, s.streams[x]))
    && ResponsesSourced(s)
  }

  ghost predicate Inv(s: State) {
    TableInv(s) && HoldInv(s) && SourceInv(s)
  }

  ghost predicate OriginsKept(s: State, t: State) {
    forall x :: x in s.streams ==>
      && x in t.streams && t.streams[x].cause == s.streams[x].cause
      && t.streams[x].via == s.streams[x].via && t.streams[x].opener == s.streams[x].opener
  }

  /** No stream appears, nothing is un-closed, no reader moves, and no handler outside `moved` moves; those
      in `moved` hold no stream of their own. */
  ghost predicate Framed(s: State, t: State, moved: set<nat>) {
    && OriginsKept(s, t) && s.readers == t.readers && s.table.closed <= t.table.closed
    && (forall h :: h in moved && h in s.handlers ==>
      var stage := s.handlers[h].stage; !stage.Installing? && !stage.Discarding?)
    && (forall g :: g !in moved && g in s.handlers ==> g in t.handlers && t.handlers[g] == s.handlers[g])
  }

  lemma FrameHolds(s: State, t: State, moved: set<nat>)
    requires Framed(s, t, moved)
    ensures forall x :: x in s.streams && Accounted(s, x) ==> Accounted(t, x)
    ensures forall g :: g !in moved && g in s.handlers && StageOk(s, g, s.handlers[g]) ==> StageOk(t, g, t.handlers[g])
  {
  }

  lemma ResponsesKept(s: State, t: State)
    requires OriginsKept(s, t) && s.sent == t.sent && ResponsesSourced(s)
    ensures ResponsesSourced(t)
  {
  }

  /** Sessions that stay, with their streams' origins, and whose readers do not end, stay backed. */
  lemma TableKept(s: State, t: State)
    requires TableInv(s) && OriginsKept(s, t) && t.table.conns.Keys == t.table.sessions.Keys
    requires forall p, a :: p in t.table.sessions && a in t.table.sessions[p] ==>
      p in s.table.sessions && a in s.table.sessions[p] && t.table.sessions[p][a] == s.table.sessions[p][a]
    requires forall x :: x in s.readers ==> x in t.readers && (t.readers[x] == Ended ==> s.readers[x] == Ended)
    ensures TableInv(t)
  {
  }

  lemma SourcesGrow(s: State, t: State)
    requires s.arrived <= t.arrived
    ensures forall x: Stream :: StreamSourced(s, x) ==> StreamSourced(t, x)
  {
  }

  /** Streams only ever join with nothing written, and handlers only for datagrams that arrived. */
  lemma SourceKept(s: State, t: State)
    requires SourceInv(s) && OriginsKept(s, t) && s.sent == t.sent && s.arrived == t.arrived
    requires forall h :: h in t.handlers ==> h in s.handlers && t.handlers[h].cause == s.handlers[h].cause
    requires forall x :: x in t.streams ==>
      (x in s.streams && t.streams[x] == s.streams[x])
      || (t.streams[x].cause in s.arrived && t.streams[x].written == [])
    ensures SourceInv(t)
  {
    ResponsesKept(s, t);
    SourcesGrow(s, t);
    hide ResponsesSourced;
  }

  lemma SessionBacked(s: State, port: int, addr: Addr)
    requires TableInv(s) && s.table.Has(port, addr)
    ensures Backed(s, port, addr, s.table.sessions[port][addr])
  {
  }

  lemma ArriveKeeps(s: State, h: nat, d: Datagram)
    requires Inv(s) && Enabled(s, Arrive(h, d))
    ensures Inv(Apply(s, Arrive(h, d)))
  {
    var t := Apply(s, Arrive(h, d));
    SourcesGrow(s, t);
    ResponsesKept(s, t);
    TableKept(s, t);
    FrameHolds(s, t, {});
    hide TableInv, Accounted, StreamSourced, ResponsesSourced, Framed;
  }

  lemma EnvironmentKeeps(s: State, e: Event)
    requires Inv(s) && Enabled(s, e) && (e.Tick? || e.Ensure? || e.Remove?)
    ensures Inv(Apply(s, e))
  {
    var t := Apply(s, e);
    SourceKept(s, t);
    TableKept(s, t);
    hide SourceInv, TableInv, Accounted;
    FrameHolds(s, t, {});
  }

  /** A reader that has been started can move on without disturbing any handler. */
  lemma ReaderMoves(s: State, t: State, stream: StreamId)
    requires OriginsKept(s, t) && s.handlers == t.handlers && stream in s.readers && s.readers[stream] != Pending
    requires stream in t.readers && t.readers == s.readers[stream := t.readers[stream]]
    ensures forall h :: h in s.handlers && StageOk(s, h, s.handlers[h]) ==> StageOk(t, h, t.handlers[h])
  {
  }

  lemma StopKeeps(s: State, stream: StreamId)
    requires Inv(s) && CanRead(s, stream, Stop)
    ensures Inv(ApplyRead(s, stream, Stop))
  {
    SourceKept(s, ApplyRead(s, stream, Stop));
    TableKept(s, ApplyRead(s, stream, Stop));
    ReaderMoves(s, ApplyRead(s, stream, Stop), stream);
    hide SourceInv, TableInv, StageOk;
  }

  lemma CloseOwnKeeps(s: State, stream: StreamId)
    requires Inv(s) && CanRead(s, stream, CloseOwn)
    ensures Inv(ApplyRead(s, stream, CloseOwn))
  {
    SourceKept(s, ApplyRead(s, stream, CloseOwn));
    TableKept(s, ApplyRead(s, stream, CloseOwn));
    ReaderMoves(s, ApplyRead(s, stream, CloseOwn), stream);
    hide SourceInv, TableInv, StageOk;
  }

  lemma DropOwnKeepsTable(s: State, stream: StreamId)
    requires TableInv(s) && CanRead(s, stream, DropOwn)
    ensures TableInv(ApplyRead(s, stream, DropOwn))
  {
  }

  lemma DropOwnKeeps(s: State, stream: StreamId)
    requires Inv(s) && CanRead(s, stream, DropOwn)
    ensures Inv(ApplyRead(s, stream, DropOwn))
  {
    SourceKept(s, ApplyRead(s, stream, DropOwn));
    ReaderMoves(s, ApplyRead(s, stream, DropOwn), stream);
    DropOwnKeepsTable(s, stream);
    hide SourceInv, TableInv, StageOk;
  }

  lemma RespondKeeps(s: State, stream: StreamId, payload: seq<int>)
    requires Inv(s) && CanRead(s, stream, Respond(payload))
    ensures Inv(ApplyRead(s, stream, Respond(payload)))
  {
    var t := ApplyRead(s, stream, Respond(payload));
    FrameHolds(s, t, {});
    hide StreamSourced, Accounted;
  }

  lemma TimesKeep(s: State, seen: map<StreamId, int>, clean: Option<int>)
    requires Inv(s)
    ensures Inv(s.(table := s.table.(lastSeen := seen, lastClean := clean)))
  {
    var t := s.(table := s.table.(lastSeen := seen, lastClean := clean));
    ResponsesKept(s, t);
    SourcesGrow(s, t);
    FrameHolds(s, t, {});
    hide ResponsesSourced, StreamSourced, Accounted, Framed;
  }

  /** And it can move on to a stage that is in order. */
  lemma MoveKeeps(s: State, h: nat, stage: Stage)
    requires Inv(s) && h in s.handlers && !s.handlers[h].stage.Installing? && !s.handlers[h].stage.Discarding?
    requires StageOk(s, h, s.handlers[h].(stage := stage))
    ensures Inv(Moved(s, h, stage))
  {
    var t := Moved(s, h, stage);
    SourceKept(s, t);
    TableKept(s, t);
    FrameHolds(s, t, {h});
    assert StageOk(t, h, t.handlers[h]);
    hide SourceInv, TableInv, Accounted, Framed, StageOk;
  }

  lemma StampKeeps(s: State, h: nat)
    requires Inv(s) && CanDeliver(s, h, Stamp)
    ensures Inv(ApplyDeliver(s, h, Stamp))
  {
    assert StageOk(s, h, s.handlers[h]);
    var session := s.handlers[h].stage.session;
    MoveKeeps(s, h, Writing(session));
    TimesKeep(Moved(s, h, Writing(session)), s.table.lastSeen[session := s.now], s.table.lastClean);
  }

  lemma DropFailedKeeps(s: State, h: nat)
    requires Inv(s) && CanDeliver(s, h, DropFailed)
    ensures Inv(ApplyDeliver(s, h, DropFailed))
  {
    var t := ApplyDeliver(s, h, DropFailed);
    SourceKept(s, t);
    TableKept(s, t);
    FrameHolds(s, t, {h});
    hide SourceInv, TableInv, Accounted;
  }

  /** A handler with no stream in hand can finish. */
  lemma FinishKeeps(s: State, h: nat)
    requires Inv(s) && h in s.handlers && !s.handlers[h].stage.Installing? && !s.handlers[h].stage.Discarding?
    ensures Inv(Finished(s, h))
  {
    SourceKept(s, Finished(s, h));
    TableKept(s, Finished(s, h));
    FrameHolds(s, Finished(s, h), {h});
    hide SourceInv, TableInv, Accounted, Framed, StageOk;
  }

  lemma CheckKeeps(s: State, h: nat)
    requires Inv(s) && CanDeliver(s, h, Check)
    ensures Inv(ApplyDeliver(s, h, Check))
  {
    FinishKeeps(s, h);
    var stamped := s.(table := s.table.(lastClean := Some(s.now)));
    TimesKeep(s, s.table.lastSeen, Some(s.now));
    MoveKeeps(stamped, h, Sweeping);
    hide Inv;
  }

  lemma SweepPortKeeps(s: State, h: nat, delays: map<Addr, nat>)
    requires Inv(s) && CanDeliver(s, h, SweepPort(delays))
    ensures Inv(ApplyDeliver(s, h, SweepPort(delays)))
  {
    var t := ApplyDeliver(s, h, SweepPort(delays));
    SourceKept(s, t);
    TableKept(s, t);
    FrameHolds(s, t, {h});
    hide SourceInv, TableInv, Accounted;
  }

  lemma SourcedSnoc(s: State, x: Stream, d: Datagram)
    requires StreamSourced(s, x) && d in s.arrived && SameOrigin(d, x.cause)
    ensures StreamSourced(s, x.(written := x.written + [d]))
  {
  }

  lemma WriteKeepsSources(s: State, h: nat)
    requires HoldInv(s) && SourceInv(s) && CanDeliver(s, h, Write(true))
    ensures SourceInv(ApplyDeliver(s, h, Write(true)))
  {
    var t := ApplyDeliver(s, h, Write(true));
    assert StageOk(s, h, s.handlers[h]);
    SourcedSnoc(s, s.streams[s.handlers[h].stage.session], s.handlers[h].cause);
    ResponsesKept(s, t);
    SourcesGrow(s, t);
    hide HoldInv, ResponsesSourced, StreamSourced;
  }

  lemma WriteKeeps(s: State, h: nat, ok: bool)
    requires Inv(s) && CanDeliver(s, h, Write(ok))
    ensures Inv(ApplyDeliver(s, h, Write(ok)))
  {
    if ok {
      var t := ApplyDeliver(s, h, Write(ok));
      TableKept(s, t);
      FrameHolds(s, t, {h});
      WriteKeepsSources(s, h);
      assert StageOk(t, h, t.handlers[h]);
      hide SourceInv, TableInv, Accounted, Framed, StageOk;
    } else {
      MoveKeeps(s, h, Dropping);
      hide Inv;
    }
  }

  lemma LookupKeeps(s: State, h: nat, found: bool)
    requires Inv(s) && CanObtain(s, h, Lookup(found))
    ensures Inv(ApplyObtain(s, h, Lookup(found)))
  {
    MoveKeeps(s, h, Searching);
    FinishKeeps(s, h);
    hide Inv;
  }

  lemma SearchKeeps(s: State, h: nat)
    requires Inv(s) && CanObtain(s, h, Search)
    ensures Inv(ApplyObtain(s, h, Search))
  {
    var d := s.handlers[h].cause;
    if s.table.Has(d.port, d.addr) {
      var session := s.table.sessions[d.port][d.addr];
      SessionBacked(s, d.port, d.addr);
      MoveKeeps(s, h, Touching(session));
      TimesKeep(Moved(s, h, Touching(session)), s.table.lastSeen[session := s.now], s.table.lastClean);
    } else {
      MoveKeeps(s, h, Opening);
    }
    hide Inv;
  }

  lemma SpawnKeepsHolds(s: State, h: nat)
    requires HoldInv(s) && CanObtain(s, h, Spawn)
    ensures HoldInv(ApplyObtain(s, h, Spawn))
  {
    var t := ApplyObtain(s, h, Spawn);
    assert StageOk(s, h, s.handlers[h]);
    forall x | x in t.streams ensures Accounted(t, x) {
      assert Accounted(s, x);
    }
    forall g | g in t.handlers ensures StageOk(t, g, t.handlers[g]) {
      assert StageOk(s, g, s.handlers[g]);
    }
    hide Accounted, StageOk;
  }

  lemma SpawnKeeps(s: State, h: nat)
    requires Inv(s) && CanObtain(s, h, Spawn)
    ensures Inv(ApplyObtain(s, h, Spawn))
  {
    SourceKept(s, ApplyObtain(s, h, Spawn));
    TableKept(s, ApplyObtain(s, h, Spawn));
    SpawnKeepsHolds(s, h);
    hide SourceInv, TableInv, HoldInv;
  }

  lemma DiscardKeepsHolds(s: State, h: nat)
    requires HoldInv(s) && CanObtain(s, h, Discard)
    ensures HoldInv(ApplyObtain(s, h, Discard))
  {
    var t := ApplyObtain(s, h, Discard);
    assert StageOk(s, h, s.handlers[h]);
    forall x | x in t.streams ensures Accounted(t, x) {
      assert Accounted(s, x);
    }
    forall g | g in t.handlers ensures StageOk(t, g, t.handlers[g]) {
      assert StageOk(s, g, s.handlers[g]);
    }
    hide Accounted, StageOk;
  }

  lemma DiscardKeeps(s: State, h: nat)
    requires Inv(s) && CanObtain(s, h, Discard)
    ensures Inv(ApplyObtain(s, h, Discard))
  {
    SourceKept(s, ApplyObtain(s, h, Discard));
    TableKept(s, ApplyObtain(s, h, Discard));
    DiscardKeepsHolds(s, h);
    hide SourceInv, TableInv, HoldInv;
  }

  lemma InstalledKeepsTable(s: State, h: nat)
    requires TableInv(s) && HoldInv(s) && CanObtain(s, h, Store)
    requires TryInstall(s.table, s.handlers[h].cause.port, s.handlers[h].cause.addr, s.handlers[h].stage.own).Installed?
    ensures TableInv(ApplyObtain(s, h, Store))
  {
    assert StageOk(s, h, s.handlers[h]);
    hide HoldInv;
  }

  lemma InstalledKeepsAccounts(s: State, h: nat, stream: StreamId)
    requires HoldInv(s) && CanObtain(s, h, Store) && stream in s.streams
    ensures Accounted(ApplyObtain(s, h, Store), stream)
  {
    assert Accounted(s, stream) && StageOk(s, h, s.handlers[h]);
    hide HoldInv;
  }

  lemma InstalledKeepsStages(s: State, h: nat, g: nat)
    requires HoldInv(s) && CanObtain(s, h, Store) && g in s.handlers
    requires TryInstall(s.table, s.handlers[h].cause.port, s.handlers[h].cause.addr, s.handlers[h].stage.own).Installed?
    ensures var t := ApplyObtain(s, h, Store); StageOk(t, g, t.handlers[g])
  {
    assert StageOk(s, g, s.handlers[g]) && StageOk(s, h, s.handlers[h]);
    hide HoldInv;
  }

  lemma InstalledKeeps(s: State, h: nat)
    requires Inv(s) && CanObtain(s, h, Store)
    requires TryInstall(s.table, s.handlers[h].cause.port, s.handlers[h].cause.addr, s.handlers[h].stage.own).Installed?
    ensures Inv(ApplyObtain(s, h, Store))
  {
    var t := ApplyObtain(s, h, Store);
    SourceKept(s, t);
    InstalledKeepsTable(s, h);
    forall stream | stream in t.streams ensures Accounted(t, stream) {
      InstalledKeepsAccounts(s, h, stream);
    }
    forall g | g in t.handlers ensures StageOk(t, g, t.handlers[g]) {
      InstalledKeepsStages(s, h, g);
    }
    assert StageOk(s, h, s.handlers[h]);
    hide SourceInv, TableInv, Accounted, StageOk;
  }

  lemma RefusedKeepsHolds(s: State, h: nat)
    requires HoldInv(s) && CanObtain(s, h, Store)
    requires var d := s.handlers[h].cause;
      (d.port in s.table.sessions ==> s.table.Has(d.port, d.addr) && Serves(s, s.table.sessions[d.port][d.addr], d))
    ensures HoldInv(ApplyObtain(s, h, Store))
  {
    var t := ApplyObtain(s, h, Store);
    forall x | x in t.streams ensures Accounted(t, x) {
      assert Accounted(s, x);
    }
    forall g | g in t.handlers ensures StageOk(t, g, t.handlers[g]) {
      assert StageOk(s, g, s.handlers[g]);
    }
    hide Accounted, StageOk;
  }

  lemma StoreKeeps(s: State, h: nat)
    requires Inv(s) && CanObtain(s, h, Store)
    ensures Inv(ApplyObtain(s, h, Store))
  {
    var d := s.handlers[h].cause;
    if TryInstall(s.table, d.port, d.addr, s.handlers[h].stage.own).Installed? {
      InstalledKeeps(s, h);
    } else {
      if s.table.Has(d.port, d.addr) {
        SessionBacked(s, d.port, d.addr);
      }
      SourceKept(s, ApplyObtain(s, h, Store));
      TableKept(s, ApplyObtain(s, h, Store));
      RefusedKeepsHolds(s, h);
      hide SourceInv, TableInv, HoldInv;
    }
  }

  lemma OpenKeepsHolds(s: State, h: nat, stream: StreamId, ok: bool)
    requires HoldInv(s) && CanObtain(s, h, Open(stream, ok))
    ensures HoldInv(ApplyObtain(s, h, Open(stream, ok)))
  {
    var t := ApplyObtain(s, h, Open(stream, ok));
    forall x | x in t.streams ensures Accounted(t, x) {
      assert x != stream ==> x in s.streams && Accounted(s, x);
    }
    forall g | g in t.handlers ensures StageOk(t, g, t.handlers[g]) {
      assert StageOk(s, g, s.handlers[g]);
    }
    hide Accounted, StageOk;
  }

  lemma OpenKeeps(s: State, h: nat, stream: StreamId, ok: bool)
    requires Inv(s) && CanObtain(s, h, Open(stream, ok))
    ensures Inv(ApplyObtain(s, h, Open(stream, ok)))
  {
    var t := ApplyObtain(s, h, Open(stream, ok));
    SourceKept(s, t);
    TableKept(s, t);
    OpenKeepsHolds(s, h, stream, ok);
    hide SourceInv, TableInv, HoldInv;
  }

  lemma ObtainKeeps(s: State, h: nat, step: ObtainStep)
    requires Inv(s) && CanObtain(s, h, step)
    ensures Inv(ApplyObtain(s, h, step))
  {
    match step
    case Lookup(found) => LookupKeeps(s, h, found);
    case Search => SearchKeeps(s, h);
    case Open(stream, ok) => OpenKeeps(s, h, stream, ok);
    case Store => StoreKeeps(s, h);
    case Discard => DiscardKeeps(s, h);
    case Spawn => SpawnKeeps(s, h);
  }

  lemma DeliverKeeps(s: State, h: nat, step: DeliverStep)
    requires Inv(s) && CanDeliver(s, h, step)
    ensures Inv(ApplyDeliver(s, h, step))
  {
    match step
    case Stamp => StampKeeps(s, h);
    case Write(ok) => WriteKeeps(s, h, ok);
    case DropFailed => DropFailedKeeps(s, h);
    case Check => CheckKeeps(s, h);
    case SweepPort(delays) => SweepPortKeeps(s, h, delays);
  }

  lemma ReadKeeps(s: State, stream: StreamId, step: ReadStep)
    requires Inv(s) && CanRead(s, stream, step)
    ensures Inv(ApplyRead(s, stream, step))
  {
    match step
    case Respond(payload) => RespondKeeps(s, stream, payload);
    case Stop => StopKeeps(s, stream);
    case CloseOwn => CloseOwnKeeps(s, stream);
    case DropOwn => DropOwnKeeps(s, stream);
  }

  lemma StepInv(s: State, e: Event)
    requires Inv(s) && Enabled(s, e)
    ensures Inv(Apply(s, e))
  {
    match e
    case Obtain(h, step) => ObtainKeeps(s, h, step);
    case Deliver(h, step) => DeliverKeeps(s, h, step);
    case Read(stream, step) => ReadKeeps(s, stream, step);
    case Arrive(h, d) => ArriveKeeps(s, h, d);
    case _ => EnvironmentKeeps(s, e);
  }

  lemma {:induction false} RunInv(s: State, events: seq<Event>)
    requires Inv(s) && Run(s, events).Some?
    ensures Inv(Run(s, events).value)
    decreases |events|
  {
    hide Inv, Enabled, Apply;
    if events != [] {
      StepInv(s, events[0]);
      RunInv(Apply(s, events[0]), events[1..]);
    }
  }

  lemma ObtainCauses(s: State, h: nat, step: ObtainStep, g: nat)
    requires CanObtain(s, h, step) && g in ApplyObtain(s, h, step).handlers
    ensures g in s.handlers
    ensures var before, after := s.handlers[g], ApplyObtain(s, h, step).handlers[g];
      after.cause == before.cause && after.via == before.via
  {
    hide Touch, TryInstall;
  }

  lemma StepCauses(s: State, e: Event, h: nat)
    requires Enabled(s, e) && h in Apply(s, e).handlers
    ensures var after := Apply(s, e).handlers[h];
      (h in s.handlers && after.cause == s.handlers[h].cause && after.via == s.handlers[h].via)
      || (e.Arrive? && e.h == h)
  {
    if e.Obtain? {
      ObtainCauses(s, e.h, e.obtain, h);
    }
    hide ApplyObtain, Listen, Unlisten, Drop, Sweep, Touch, TryInstall, Recent;
  }

  // ---------- whole runs ----------

  /** Stream conservation, in every state of every interleaving. */
  lemma Conservation(events: seq<Event>)
    requires Run(INIT, events).Some?
    ensures var s := Run(INIT, events).value;
      && s.table.conns.Keys == s.table.sessions.Keys
      && (forall p, a :: s.table.Has(p, a) ==> Backed(s, p, a, s.table.sessions[p][a]))
      && (forall x :: x in s.streams ==> Accounted(s, x))
  {
    RunInv(INIT, events);
  }

  /** Once openers and readers have finished, every stream ever opened is closed and no session is left. */
  lemma NothingLeaks(events: seq<Event>)
    requires Run(INIT, events).Some?
    requires Run(INIT, events).value.handlers == map[]
    requires forall x :: x in Run(INIT, events).value.readers ==> Run(INIT, events).value.readers[x] == Ended
    ensures var s := Run(INIT, events).value;
      s.table.closed == s.streams.Keys && forall p, a :: !s.table.Has(p, a)
  {
    RunInv(INIT, events);
    var s := Run(INIT, events).value;
    forall x | x in s.streams ensures x in s.table.closed {
      assert Accounted(s, x);
    }
  }

  /** Every response sent from a port to an address came over a stream opened for a datagram that arrived
      on that port from that address, and nothing else was ever framed onto that stream. */
  lemma Provenance(events: seq<Event>, r: Response)
    requires Run(INIT, events).Some? && r in Run(INIT, events).value.sent
    ensures var s := Run(INIT, events).value;
      && r.stream in s.streams
      && s.streams[r.stream].cause in s.arrived && s.streams[r.stream].cause.port == r.port
      && s.streams[r.stream].cause.addr == r.addr
      && forall d :: d in s.streams[r.stream].written ==> d in s.arrived && d.port == r.port && d.addr == r.addr
  {
    RunInv(INIT, events);
    var s := Run(INIT, events).value;
    assert ResponseSourced(s, r);
    assert StreamSourced(s, s.streams[r.stream]);
  }
}
