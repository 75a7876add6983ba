/** One HTTP request relayed over a stream: the proxy's half and the client's half run concurrently,
    each writing and reading any number of bytes at a time, over two byte queues of bounded capacity. */
module Exchange {
  import opened Wrappers
  import opened Framing

  datatype Reply = Reply(head: seq<byte>, body: seq<byte>)

  /** The inputs of one exchange. `request` and `head` are the JSON envelopes as bytes, `isRequest` and
      `isReply` say which bytes unmarshal as one; `respond` is whatever the local service answers. */
  datatype Plan = Plan(
    request: seq<byte>, body: seq<byte>, webSocket: bool,
    isRequest: seq<byte> -> bool, isReply: seq<byte> -> bool,
    respond: (seq<byte>, seq<byte>) -> Reply,
    upCapacity: nat, downCapacity: nat)

  /** A ReadFrame in progress: inside the header, or inside a payload of known length. */
  datatype Reader = Header(got: seq<byte>) | Payload(length: nat, got: seq<byte>)

  datatype Proxy =
    | Sending(pending: seq<byte>)
    | Awaiting(frames: seq<seq<byte>>, reader: Reader)
    | Answered(reply: Reply)
    | ProxyFailed

  datatype Client =
    | Receiving(frames: seq<seq<byte>>, reader: Reader)
    | Replying(frames: seq<seq<byte>>, pending: seq<byte>)
    | Closed(frames: seq<seq<byte>>)
    | Upgrading(frames: seq<seq<byte>>)
    | ClientFailed

  datatype State = State(up: seq<byte>, down: seq<byte>, proxy: Proxy, client: Client) {
    /** The proxy has answered its caller, with the reply or with an error. */
    predicate ProxyEnded() {
      proxy.Answered? || proxy.ProxyFailed?
    }

    predicate ClientEnded() {
      client.Closed? || client.ClientFailed?
    }
  }

  /** A half that has ended has closed its end of the stream: then the other half's reads find the end of
      the stream once the queue is empty, and its writes fail. */
  datatype Event =
    | ProxyWrite(n: nat) | ProxyRead(n: nat) | ClientRead(n: nat) | ClientWrite(n: nat)
    | ProxyEof | ProxyCutOff | ClientEof | ClientCutOff

  /** For a WebSocket request the proxy sends no body frame. */
  function Sent(plan: Plan): seq<seq<byte>> {
    if plan.webSocket then [plan.request] else [plan.request, plan.body]
  }

  function ReplyFrames(reply: Reply): seq<seq<byte>> {
    [reply.head, reply.body]
  }

  function Init(plan: Plan): State {
    State([], [], Sending(EncodeAll(Sent(plan))), Receiving([], Header([])))
  }

  // ---------- reading ----------

  datatype Fed = More(reader: Reader) | Complete(payload: seq<byte>) | Rejected

  function Need(reader: Reader): int {
    match reader
    case Header(got) => 4 - |got|
    case Payload(length, got) => length - |got|
  }

  function Feed(reader: Reader, bytes: seq<byte>): Fed
    requires |bytes| <= Need(reader)
  {
    match reader
    case Header(got) =>
      if |got + bytes| < 4 then More(Header(got + bytes))
      else
        var length := Uint32(got + bytes);
        if length == 0 then Complete([])
        else if length > FRAME_SIZE_LIMIT then Rejected
        else More(Payload(length, []))
    case Payload(length, got) =>
      if |got + bytes| < length then More(Payload(length, got + bytes)) else Complete(got + bytes)
  }

  predicate WellFormed(reader: Reader) {
    match reader
    case Header(got) => |got| < 4
    case Payload(length, got) => 0 < length <= FRAME_SIZE_LIMIT && |got| < length
  }

  /** The bytes a reader has taken of its unfinished frame. */
  function Partial(reader: Reader): seq<byte>
    requires WellFormed(reader)
  {
    match reader
    case Header(got) => got
    case Payload(length, got) => PutUint32(length) + got
  }

  lemma FeedAccounts(reader: Reader, bytes: seq<byte>)
    requires WellFormed(reader) && |bytes| <= Need(reader)
    ensures match Feed(reader, bytes)
      case More(next) => WellFormed(next) && Partial(next) == Partial(reader) + bytes
      case Complete(payload) => Fits(payload) && EncodeFrame(payload) == Partial(reader) + bytes
      case Rejected => |Partial(reader) + bytes| == 4 && Uint32(Partial(reader) + bytes) > FRAME_SIZE_LIMIT
  {
    hide Uint32, PutUint32;
    match reader
    case Header(got) =>
      if |got + bytes| == 4 {
        HeaderCanonical(got + bytes);
      }
    case Payload(length, got) =>
      assert PutUint32(length) + got + bytes == PutUint32(length) + (got + bytes);
  }

  // ---------- the two programs ----------

  predicate Enabled(plan: Plan, s: State, e: Event) {
    match e
    case ProxyWrite(n) => s.proxy.Sending? && 0 < n <= |s.proxy.pending| && |s.up| + n <= plan.upCapacity
    case ProxyRead(n) => s.proxy.Awaiting? && 0 < n <= |s.down| && n <= Need(s.proxy.reader)
    case ClientRead(n) => s.client.Receiving? && 0 < n <= |s.up| && n <= Need(s.client.reader)
    case ClientWrite(n) => s.client.Replying? && 0 < n <= |s.client.pending| && |s.down| + n <= plan.downCapacity
    case ProxyEof => s.proxy.Awaiting? && s.down == [] && s.ClientEnded()
    case ProxyCutOff => s.proxy.Sending? && s.ClientEnded()
    case ClientEof => s.client.Receiving? && s.up == [] && s.ProxyEnded()
    case ClientCutOff => s.client.Replying? && s.ProxyEnded()
  }

  /** ReadJSON takes an empty frame for the end of the stream. */
  predicate Reads(parses: seq<byte> -> bool, head: seq<byte>) {
    head != [] && parses(head)
  }

  function AfterProxyFrame(plan: Plan, frames: seq<seq<byte>>): Proxy
    requires frames != []
  {
    if |frames| == 1 then if Reads(plan.isReply, frames[0]) then Awaiting(frames, Header([])) else ProxyFailed
    else Answered(Reply(frames[0], frames[1]))
  }

  function AfterClientFrame(plan: Plan, frames: seq<seq<byte>>): Client
    requires frames != []
  {
    if |frames| == 1 then if Reads(plan.isRequest, frames[0]) then Receiving(frames, Header([])) else ClientFailed
    else if plan.webSocket then Upgrading(frames)
    else Replying(frames, EncodeAll(ReplyFrames(plan.respond(frames[0], frames[1]))))
  }

  function Apply(plan: Plan, s: State, e: Event): State
    requires Enabled(plan, s, e)
  {
    match e
    case ProxyWrite(n) =>
      var left := s.proxy.pending[n..];
      s.(up := s.up + s.proxy.pending[..n], proxy := if left == [] then Awaiting([], Header([])) else Sending(left))
    case ClientWrite(n) =>
      var left := s.client.pending[n..];
      s.(down := s.down + s.client.pending[..n],
      client := if left == [] then Closed(s.client.frames) else Replying(s.client.frames, left))
    case ProxyRead(n) =>
      s.(down := s.down[n..], proxy := match Feed(s.proxy.reader, s.down[..n])
      case More(reader) => Awaiting(s.proxy.frames, reader)
      case Complete(payload) => AfterProxyFrame(plan, s.proxy.frames + [payload])
      case Rejected => ProxyFailed)
    case ClientRead(n) =>
      s.(up := s.up[n..], client := match Feed(s.client.reader, s.up[..n])
      case More(reader) => Receiving(s.client.frames, reader)
      case Complete(payload) => AfterClientFrame(plan, s.client.frames + [payload])
      case Rejected => ClientFailed)
    case ProxyEof => s.(proxy := ProxyFailed)
    case ProxyCutOff => s.(proxy := ProxyFailed)
    case ClientEof => s.(client := ClientFailed)
    case ClientCutOff => s.(client := ClientFailed)
  }

  function Execute(plan: Plan, s: State, events: seq<Event>): Option<State>
    decreases |events|
  {
    if events == [] then Some(s)
    else if Enabled(plan, s, events[0]) then Execute(plan, Apply(plan, s, events[0]), events[1..])
    else None
  }

  ghost predicate Halted(plan: Plan, s: State) {
    forall e: Event :: !Enabled(plan, s, e)
  }

  /** The client handled exactly the request sent, and the proxy got exactly the reply produced. */
  predicate Delivered(plan: Plan, s: State) {
    && s.client == Closed([plan.request, plan.body])
    && s.proxy == Answered(plan.respond(plan.request, plan.body))
  }

  // ---------- invariant ----------

  ghost predicate Envelope(parses: seq<byte> -> bool, head: seq<byte>, body: seq<byte>) {
    head != [] && parses(head) && Fits(head) && Fits(body)
  }

  /** Every frame of the exchange is within the limit and the JSON envelopes unmarshal. */
  ghost predicate Sized(plan: Plan) {
    var reply := plan.respond(plan.request, plan.body);
    Envelope(plan.isRequest, plan.request, plan.body) && Envelope(plan.isReply, reply.head, reply.body)
  }

  function Outgoing(p: Proxy): seq<byte> {
    if p.Sending? then p.pending else []
  }

  function ReplyOutgoing(c: Client): seq<byte> {
    if c.Replying? then c.pending else []
  }

  /** What a reader has consumed, what is in the queue and what is unwritten make up what is sent. */
  ghost predicate Flow(frames: seq<seq<byte>>, reader: Reader, queue: seq<byte>, pending: seq<byte>,
      sent: seq<seq<byte>>)
  {
    && WellFormed(reader)
    && AllFit(frames) && AllFit(sent) && |frames| <= |sent|
    && EncodeAll(frames) + (Partial(reader) + (queue + pending)) == EncodeAll(sent)
  }

  ghost predicate Inv(plan: Plan, s: State) {
    var reply := ReplyFrames(plan.respond(plan.request, plan.body));
    && !s.proxy.ProxyFailed? && !s.client.ClientFailed? && !s.client.Upgrading?
    && (s.proxy.Sending? ==> s.proxy.pending != [])
    && (s.client.Replying? ==> s.client.pending != [])
    && (s.client.Receiving? ==>
      && |s.client.frames| < 2
      && Flow(s.client.frames, s.client.reader, s.up, Outgoing(s.proxy), Sent(plan))
      && s.down == []
      && (s.proxy.Sending? || s.proxy == Awaiting([], Header([]))))
    && (!s.client.Receiving? ==>
      && s.client.frames == Sent(plan) == [plan.request, plan.body]
      && s.up == [] && !s.proxy.Sending?
      && (s.proxy.Awaiting? ==>
        && |s.proxy.frames| < 2
        && Flow(s.proxy.frames, s.proxy.reader, s.down, ReplyOutgoing(s.client), reply))
      && (s.proxy.Answered? ==> s.down == [] && s.client.Closed? && ReplyFrames(s.proxy.reply) == reply))
  }

  lemma NothingLeft(x: seq<byte>, frames: seq<seq<byte>>)
    requires frames == [] && x == EncodeAll(frames) + []
    ensures x == []
  {
  }

  lemma EncodeAllSingle(payload: seq<byte>)
    ensures EncodeAll([payload]) == EncodeFrame(payload)
  {
    assert [payload][1..] == [];
    assert EncodeFrame(payload) + [] == EncodeFrame(payload);
  }

  lemma NextHeader(frames: seq<seq<byte>>, header: seq<byte>, left: seq<byte>)
    requires frames != [] && AllFit(frames) && |header| == 4
    requires header + left == EncodeAll(frames) + []
    ensures Uint32(header) == |frames[0]|
  {
    hide Uint32, PutUint32;
    HeaderRoundTrip(|frames[0]|);
    assert header == (header + left)[..4] == EncodeFrame(frames[0])[..4];
  }

  /** What a read leaves accounts for the whole wire, unless it was rejected. */
  ghost predicate WireKept(fed: Fed, frames: seq<seq<byte>>, left: seq<byte>, wire: seq<byte>) {
    match fed
    case More(next) => WellFormed(next) && EncodeAll(frames) + (Partial(next) + left) == wire
    case Complete(payload) => Fits(payload) && EncodeAll(frames + [payload]) + left == wire
    case Rejected => true
  }

  /** One read moves bytes from the queue into the reader and the frames read, and loses none. */
  lemma FeedKeepsWire(frames: seq<seq<byte>>, reader: Reader, queue: seq<byte>, pending: seq<byte>, wire: seq<byte>,
      n: nat)
    requires WellFormed(reader) && EncodeAll(frames) + (Partial(reader) + (queue + pending)) == wire
    requires n <= |queue| && n <= Need(reader)
    ensures WireKept(Feed(reader, queue[..n]), frames, queue[n..] + pending, wire)
  {
    hide EncodeFrame, EncodeAll, Uint32, PutUint32, Feed, Partial, WellFormed;
    var bytes, left := queue[..n], queue[n..] + pending;
    FeedAccounts(reader, bytes);
    assert Partial(reader) + (queue + pending) == Partial(reader) + bytes + left by {
      assert queue == bytes + queue[n..];
    }
    match Feed(reader, bytes)
    case Complete(payload) =>
      EncodeAllConcat(frames, [payload]);
      EncodeAllSingle(payload);
      assert EncodeAll(frames) + (EncodeFrame(payload) + left) == EncodeAll(frames) + EncodeFrame(payload) + left;
    case _ =>
  }

  /** One read keeps the flow, and only ever completes the next frame that was sent. */
  lemma FeedKeepsFlow(frames: seq<seq<byte>>, reader: Reader, queue: seq<byte>, pending: seq<byte>,
      sent: seq<seq<byte>>, n: nat)
    requires Flow(frames, reader, queue, pending, sent)
    requires 0 < n <= |queue| && n <= Need(reader)
    ensures match Feed(reader, queue[..n])
      case More(next) => Flow(frames, next, queue[n..], pending, sent)
      case Complete(payload) =>
        && |frames| < |sent| && frames + [payload] == sent[..|frames| + 1]
        && Flow(frames + [payload], Header([]), queue[n..], pending, sent)
      case Rejected => false
  {
    hide EncodeFrame, EncodeAll, Uint32, PutUint32, Feed;
    var bytes, left := queue[..n], queue[n..] + pending;
    var x := Partial(reader) + (queue + pending);
    FeedAccounts(reader, bytes);
    FeedKeepsWire(frames, reader, queue, pending, EncodeAll(sent), n);
    assert x == Partial(reader) + bytes + left;
    FramesArePrefix(frames, x, sent, []) by {
      assert EncodeAll(sent) + [] == EncodeAll(sent);
    }
    if |frames| == |sent| {
      NothingLeft(x, sent[|frames|..]);
      assert false;
    }
    match Feed(reader, bytes)
    case More(next) =>
    case Complete(payload) =>
      FramesArePrefix(frames + [payload], left, sent, []) by {
        assert EncodeAll(sent) + [] == EncodeAll(sent);
      }
      assert [] + left == left;
    case Rejected =>
      NextHeader(sent[|frames|..], Partial(reader) + bytes, left);
  }

  lemma PartialTooShort(reader: Reader, frames: seq<seq<byte>>)
    requires WellFormed(reader) && AllFit(frames) && frames != []
    ensures Partial(reader) != EncodeAll(frames) + []
  {
    hide Uint32, PutUint32;
    var length := |EncodeAll(frames)|;
    assert length >= 4 + |frames[0]|;
    if Partial(reader) == EncodeAll(frames) + [] && reader.Payload? {
      NextHeader(frames, PutUint32(reader.length), reader.got);
      HeaderRoundTrip(reader.length);
    }
  }

  /** While a frame is outstanding there are bytes of it in the queue or still to be written. */
  lemma FlowNotDry(frames: seq<seq<byte>>, reader: Reader, sent: seq<seq<byte>>)
    requires Flow(frames, reader, [], [], sent)
    ensures |frames| == |sent|
  {
    if |frames| < |sent| {
      hide EncodeAll, EncodeFrame, Uint32, PutUint32;
      var x := Partial(reader) + ([] + []);
      FramesArePrefix(frames, x, sent, []) by {
        assert EncodeAll(sent) + [] == EncodeAll(sent);
      }
      assert x == Partial(reader);
      PartialTooShort(reader, sent[|frames|..]);
    }
  }

  lemma InitInv(plan: Plan)
    requires Sized(plan)
    ensures Inv(plan, Init(plan))
  {
    assert |EncodeFrame(plan.request)| >= 4;
    hide EncodeFrame;
    assert EncodeAll([]) + (Partial(Header([])) + ([] + EncodeAll(Sent(plan)))) == EncodeAll(Sent(plan));
  }

  lemma FlowWrite(frames: seq<seq<byte>>, reader: Reader, queue: seq<byte>, pending: seq<byte>, sent: seq<seq<byte>>,
      n: nat)
    requires Flow(frames, reader, queue, pending, sent) && n <= |pending|
    ensures Flow(frames, reader, queue + pending[..n], pending[n..], sent)
  {
    assert queue + pending == queue + pending[..n] + pending[n..];
  }

  /** In an exchange that fits, neither half ever finds the other gone. */
  lemma NoEarlyEnd(plan: Plan, s: State, e: Event)
    requires Sized(plan) && Inv(plan, s) && (e.ProxyEof? || e.ProxyCutOff? || e.ClientEof? || e.ClientCutOff?)
    ensures !Enabled(plan, s, e)
  {
    hide EncodeFrame, EncodeAll, Flow;
    if e.ProxyEof? && Enabled(plan, s, e) {
      FlowNotDry(s.proxy.frames, s.proxy.reader, ReplyFrames(plan.respond(plan.request, plan.body)));
    }
  }

  lemma WriteInv(plan: Plan, s: State, e: Event)
    requires Sized(plan) && Inv(plan, s) && Enabled(plan, s, e) && (e.ProxyWrite? || e.ClientWrite?)
    ensures Inv(plan, Apply(plan, s, e))
  {
    hide EncodeFrame, EncodeAll, Flow;
    match e
    case ProxyWrite(n) =>
      FlowWrite(s.client.frames, s.client.reader, s.up, s.proxy.pending, Sent(plan), n);
    case ClientWrite(n) =>
      if s.proxy.Awaiting? {
        var reply := ReplyFrames(plan.respond(plan.request, plan.body));
        FlowWrite(s.proxy.frames, s.proxy.reader, s.down, s.client.pending, reply, n);
      }
  }

  lemma FlowComplete(sent: seq<seq<byte>>, queue: seq<byte>, pending: seq<byte>)
    requires Flow(sent, Header([]), queue, pending, sent)
    ensures queue == [] && pending == []
  {
    assert |EncodeAll(sent) + (Partial(Header([])) + (queue + pending))| == |EncodeAll(sent)| + |queue| + |pending|;
  }

  lemma ReplyStarts(plan: Plan, reply: Reply)
    requires Sized(plan) && reply == plan.respond(plan.request, plan.body)
    ensures EncodeAll(ReplyFrames(reply)) != []
    ensures Flow([], Header([]), [], EncodeAll(ReplyFrames(reply)), ReplyFrames(reply))
  {
    hide Uint32, PutUint32;
    var all := EncodeAll(ReplyFrames(reply));
    assert EncodeAll([]) + (Partial(Header([])) + ([] + all)) == all;
  }

  lemma ClientReadInv(plan: Plan, s: State, n: nat)
    requires Sized(plan) && Inv(plan, s) && Enabled(plan, s, ClientRead(n))
    ensures Inv(plan, Apply(plan, s, ClientRead(n)))
  {
    hide EncodeFrame, EncodeAll, Feed, Flow, Partial, WellFormed;
    var out := Outgoing(s.proxy);
    FeedKeepsFlow(s.client.frames, s.client.reader, s.up, out, Sent(plan), n);
    if Feed(s.client.reader, s.up[..n]).Complete? && |s.client.frames| == 1 {
      ReplyStarts(plan, plan.respond(plan.request, plan.body));
      assert Sent(plan)[..2] == Sent(plan);
      FlowComplete(Sent(plan), s.up[n..], out);
    }
  }

  lemma ProxyReadInv(plan: Plan, s: State, n: nat)
    requires Sized(plan) && Inv(plan, s) && Enabled(plan, s, ProxyRead(n))
    ensures Inv(plan, Apply(plan, s, ProxyRead(n)))
  {
    hide EncodeFrame, EncodeAll, Feed, Flow, Partial, WellFormed;
    if s.client.Receiving? {
      assert false;
    }
    var reply := ReplyFrames(plan.respond(plan.request, plan.body));
    FeedKeepsFlow(s.proxy.frames, s.proxy.reader, s.down, ReplyOutgoing(s.client), reply, n);
    if Feed(s.proxy.reader, s.down[..n]).Complete? && |s.proxy.frames| == 1 {
      assert reply[..2] == reply;
      FlowComplete(reply, s.down[n..], ReplyOutgoing(s.client));
    }
  }

  lemma StepInv(plan: Plan, s: State, e: Event)
    requires Sized(plan) && Inv(plan, s) && Enabled(plan, s, e)
    ensures Inv(plan, Apply(plan, s, e))
  {
    match e
    case ProxyWrite(n) => WriteInv(plan, s, e);
    case ClientWrite(n) => WriteInv(plan, s, e);
    case ClientRead(n) => ClientReadInv(plan, s, n);
    case ProxyRead(n) => ProxyReadInv(plan, s, n);
    case _ =>
      NoEarlyEnd(plan, s, e);
      assert false;
  }

  // ---------- delivery ----------

  /** No state is stuck before both halves are done, whatever the capacities of the two queues. */
  lemma NoDeadlock(plan: Plan, s: State)
    requires Sized(plan) && !plan.webSocket && plan.upCapacity > 0 && plan.downCapacity > 0
    requires Inv(plan, s) && Halted(plan, s)
    ensures Delivered(plan, s)
  {
    hide EncodeFrame, EncodeAll, Feed;
    if s.client.Receiving? {
      assert s.up == [] by {
        assert !Enabled(plan, s, ClientRead(1));
      }
      assert !Enabled(plan, s, ProxyWrite(1));
      FlowNotDry(s.client.frames, s.client.reader, Sent(plan));
      assert false;
    }
    if s.proxy.Awaiting? {
      assert s.down == [] by {
        assert !Enabled(plan, s, ProxyRead(1));
      }
      assert !Enabled(plan, s, ClientWrite(1));
      FlowNotDry(s.proxy.frames, s.proxy.reader, ReplyFrames(plan.respond(plan.request, plan.body)));
      assert false;
    }
    var reply := plan.respond(plan.request, plan.body);
    assert ReplyFrames(s.proxy.reply)[0] == reply.head && ReplyFrames(s.proxy.reply)[1] == reply.body;
  }

  lemma {:induction false} RunInv(plan: Plan, s: State, events: seq<Event>)
    requires Sized(plan) && Inv(plan, s) && Execute(plan, s, events).Some?
    ensures Inv(plan, Execute(plan, s, events).value)
    decreases |events|
  {
    hide Inv, Enabled, Apply;
    if events != [] {
      StepInv(plan, s, events[0]);
      RunInv(plan, Apply(plan, s, events[0]), events[1..]);
    }
  }

  // ---------- the limit is exact ----------

  ghost predicate HeadRead(parses: seq<byte> -> bool, frames: seq<seq<byte>>, reader: Reader) {
    && WellFormed(reader) && |frames| < 2 && AllFit(frames)
    && (frames != [] ==> frames[0] != [] && parses(frames[0]))
  }

  /** Holds of every plan, fitting or not: frames that were read are within the limit. */
  ghost predicate ReadsFit(plan: Plan, s: State) {
    && (s.proxy.Awaiting? ==> HeadRead(plan.isReply, s.proxy.frames, s.proxy.reader))
    && (s.proxy.Answered? ==> Envelope(plan.isReply, s.proxy.reply.head, s.proxy.reply.body))
    && (s.client.Receiving? ==> HeadRead(plan.isRequest, s.client.frames, s.client.reader))
    && (s.client.Replying? || s.client.Closed? ==>
      !plan.webSocket && |s.client.frames| == 2 && Envelope(plan.isRequest, s.client.frames[0], s.client.frames[1]))
  }

  lemma StepReadsFit(plan: Plan, s: State, e: Event)
    requires ReadsFit(plan, s) && Enabled(plan, s, e)
    ensures ReadsFit(plan, Apply(plan, s, e))
  {
    hide EncodeFrame, EncodeAll, Uint32, PutUint32;
    match e
    case ProxyRead(n) => FeedAccounts(s.proxy.reader, s.down[..n]);
    case ClientRead(n) => FeedAccounts(s.client.reader, s.up[..n]);
    case _ =>
  }

  lemma {:induction false} RunReadsFit(plan: Plan, s: State, events: seq<Event>)
    requires ReadsFit(plan, s) && Execute(plan, s, events).Some?
    ensures ReadsFit(plan, Execute(plan, s, events).value)
    decreases |events|
  {
    hide ReadsFit, Enabled, Apply;
    if events != [] {
      StepReadsFit(plan, s, events[0]);
      RunReadsFit(plan, Apply(plan, s, events[0]), events[1..]);
    }
  }

  /** However the two halves are interleaved, an exchange that can go no further has delivered
      everything exactly when the request is not a WebSocket upgrade and all four frames are within bounds. */
  lemma ExchangeOutcome(plan: Plan, events: seq<Event>)
    requires plan.upCapacity > 0 && plan.downCapacity > 0
    requires Execute(plan, Init(plan), events).Some? && Halted(plan, Execute(plan, Init(plan), events).value)
    ensures Delivered(plan, Execute(plan, Init(plan), events).value) <==> Sized(plan) && !plan.webSocket
  {
    var s := Execute(plan, Init(plan), events).value;
    RunReadsFit(plan, Init(plan), events);
    if Sized(plan) && !plan.webSocket {
      InitInv(plan);
      RunInv(plan, Init(plan), events);
      NoDeadlock(plan, s);
    }
  }

  /** A WebSocket exchange always ends with the proxy waiting for a response and the client waiting
      for a body frame that is never sent. */
  lemma WebSocketStuck(plan: Plan, events: seq<Event>)
    requires Sized(plan) && plan.webSocket && plan.upCapacity > 0
    requires Execute(plan, Init(plan), events).Some?
    ensures var s := Execute(plan, Init(plan), events).value;
      Halted(plan, s) <==> s == State([], [], Awaiting([], Header([])), Receiving([plan.request], Header([])))
  {
    hide EncodeFrame, EncodeAll, Feed;
    var s := Execute(plan, Init(plan), events).value;
    InitInv(plan);
    RunInv(plan, Init(plan), events);
    if Halted(plan, s) {
      assert !Enabled(plan, s, ClientRead(1)) && !Enabled(plan, s, ProxyWrite(1));
      var frames, reader := s.client.frames, s.client.reader;
      FlowNotDry(frames, reader, Sent(plan));
      var x := Partial(reader) + ([] + []);
      FramesArePrefix(frames, x, Sent(plan), []) by {
        assert EncodeAll(Sent(plan)) + [] == EncodeAll(Sent(plan));
      }
      NothingLeft(x, Sent(plan)[1..]);
    }
  }
}
