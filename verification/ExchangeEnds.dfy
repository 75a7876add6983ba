/** What holds of every HTTP exchange, also of one whose frames are too long: it ends, on both sides, and its
    caller never gets a wrong answer. */
module ExchangeEnds {
  import opened Wrappers
  import opened Framing
  import opened Exchange

  // ---------- termination ----------

  /** The reply the client would produce from the frames it can read off the wire, as bytes. */
  function Answer(plan: Plan): seq<byte> {
    match DecodeMany(EncodeAll(Sent(plan)), 2)
    case FramesFailed(_) => []
    case Frames(frames, _) => if plan.webSocket then [] else EncodeAll(ReplyFrames(plan.respond(frames[0], frames[1])))
  }

  /** Bytes still to be moved, counted once per move they need, and halves still to end. */
  function Measure(plan: Plan, s: State): nat {
    2 * |Outgoing(s.proxy)| + |s.up| + |s.down|
    + (if s.client.Receiving? then 2 * |Answer(plan)| else 2 * |ReplyOutgoing(s.client)|)
    + (if s.ProxyEnded() then 0 else 1) + (if s.ClientEnded() then 0 else 1)
  }

  /** Holds of every plan: no byte is lost on the way to the client while it is reading. */
  ghost predicate Wired(plan: Plan, s: State) {
    && ReadsFit(plan, s)
    && (s.proxy.Sending? ==> s.proxy.pending != []) && (s.client.Replying? ==> s.client.pending != [])
    && (s.client.Receiving? ==>
      EncodeAll(s.client.frames) + (Partial(s.client.reader) + (s.up + Outgoing(s.proxy))) == EncodeAll(Sent(plan)))
  }

  lemma InitWired(plan: Plan)
    ensures Wired(plan, Init(plan))
  {
    assert |EncodeFrame(plan.request)| >= 4;
    hide EncodeFrame;
    assert EncodeAll([]) + (Partial(Header([])) + ([] + EncodeAll(Sent(plan)))) == EncodeAll(Sent(plan));
  }

  lemma ReplyIsAnswer(plan: Plan, frames: seq<seq<byte>>, rest: seq<byte>)
    requires |frames| == 2 && AllFit(frames) && EncodeAll(frames) + rest == EncodeAll(Sent(plan)) && !plan.webSocket
    ensures Answer(plan) == EncodeAll(ReplyFrames(plan.respond(frames[0], frames[1]))) != []
  {
    FramesRoundTrip(frames, rest);
    hide DecodeMany;
    var reply := plan.respond(frames[0], frames[1]);
    assert |EncodeFrame(reply.head)| >= 4;
  }

  lemma NothingPartial(bytes: seq<byte>)
    ensures Partial(Header([])) + bytes == bytes
  {
  }

  lemma ClientReadWired(plan: Plan, s: State, n: nat)
    requires Wired(plan, s) && Enabled(plan, s, ClientRead(n))
    ensures Wired(plan, Apply(plan, s, ClientRead(n)))
    ensures Measure(plan, Apply(plan, s, ClientRead(n))) < Measure(plan, s)
  {
    var e := ClientRead(n);
    StepReadsFit(plan, s, e);
    hide EncodeFrame, EncodeAll, Feed, Answer, Partial;
    var out := Outgoing(s.proxy);
    FeedKeepsWire(s.client.frames, s.client.reader, s.up, out, EncodeAll(Sent(plan)), n);
    var fed := Feed(s.client.reader, s.up[..n]);
    if fed.Complete? {
      var frames := s.client.frames + [fed.payload];
      if |frames| == 2 && !plan.webSocket {
        ReplyIsAnswer(plan, frames, s.up[n..] + out);
      }
      NothingPartial(s.up[n..] + out);
    }
  }

  lemma StepWired(plan: Plan, s: State, e: Event)
    requires Wired(plan, s) && Enabled(plan, s, e)
    ensures Wired(plan, Apply(plan, s, e)) && Measure(plan, Apply(plan, s, e)) < Measure(plan, s)
  {
    if e.ClientRead? {
      ClientReadWired(plan, s, e.n);
    } else {
      StepReadsFit(plan, s, e);
      hide EncodeFrame, EncodeAll, Feed, Answer, Partial, ReadsFit;
      if e.ProxyWrite? {
        assert s.up + s.proxy.pending == s.up + s.proxy.pending[..e.n] + s.proxy.pending[e.n..];
      }
    }
  }

  lemma {:induction false} RunWired(plan: Plan, s: State, events: seq<Event>)
    requires Wired(plan, s) && Execute(plan, s, events).Some?
    ensures Wired(plan, Execute(plan, s, events).value)
    ensures Measure(plan, Execute(plan, s, events).value) + |events| <= Measure(plan, s)
    decreases |events|
  {
    hide Wired, Enabled, Apply, Measure;
    if events != [] {
      StepWired(plan, s, events[0]);
      RunWired(plan, Apply(plan, s, events[0]), events[1..]);
    }
  }

  /** Every interleaving of every exchange, within the limit or not, ends within an explicit number of moves. */
  lemma RunsTerminate(plan: Plan, events: seq<Event>)
    requires Execute(plan, Init(plan), events).Some?
    ensures |events| <= Measure(plan, Init(plan))
  {
    InitWired(plan);
    RunWired(plan, Init(plan), events);
  }

  // ---------- what is read off the wire ----------

  /** The length of the payload is a uint32, so its frame says it. */
  predicate Narrow(payload: seq<byte>) {
    |payload| < TWO_TO_THE_32
  }

  lemma TruncatedIff(payload: seq<byte>)
    ensures Truncated(payload) == payload <==> Narrow(payload)
    ensures Narrow(payload) ==> Leftover(payload) == []
  {
    if Truncated(payload) == payload {
      assert |Truncated(payload)| == |payload|;
    }
  }

  /** An envelope that unmarshals, as json.Marshal makes them: no proper prefix of it does. */
  ghost predicate Whole(parses: seq<byte> -> bool, head: seq<byte>) {
    head != [] && parses(head) && forall n :: 0 <= n < |head| ==> !parses(head[..n])
  }

  ghost predicate JSON(plan: Plan) {
    Whole(plan.isRequest, plan.request) && forall q, b :: Whole(plan.isReply, plan.respond(q, b).head)
  }

  lemma FirstFrameRead(f: seq<byte>, x: seq<byte>, g: seq<byte>, y: seq<byte>)
    requires Fits(f) && EncodeFrame(f) + x == EncodeFrame(g) + y
    ensures f == Truncated(g) && x == Leftover(g) + y
  {
    hide EncodeFrame, DecodeFrame;
    FrameRoundTripIff(f, x);
    WrittenReadsAs(g, y);
  }

  /** An envelope that was read from the wire is the one that was written. */
  lemma HeadIsWhole(parses: seq<byte> -> bool, f: seq<byte>, x: seq<byte>, g: seq<byte>, y: seq<byte>)
    requires Fits(f) && parses(f) && Whole(parses, g) && EncodeFrame(f) + x == EncodeFrame(g) + y
    ensures f == g && x == y
  {
    FirstFrameRead(f, x, g, y);
    hide EncodeFrame;
    assert f == g[..|f|];
    TruncatedIff(g);
    assert [] + y == y;
  }

  lemma TwoOnTheWire(a: seq<byte>, b: seq<byte>)
    ensures EncodeAll([a, b]) == EncodeFrame(a) + EncodeFrame(b)
  {
    assert [a, b][1..] == [b];
    EncodeAllSingle(b);
  }

  /** An envelope and a body read from the wire: the first is whole, the second what its length says. */
  lemma TwoRead(parses: seq<byte> -> bool, a: seq<byte>, b: seq<byte>, frames: seq<seq<byte>>, rest: seq<byte>)
    requires |frames| == 2 && AllFit(frames) && parses(frames[0]) && Whole(parses, a)
    requires EncodeAll(frames) + rest == EncodeAll([a, b])
    ensures frames == [a, Truncated(b)] && rest == Leftover(b)
  {
    hide EncodeFrame, EncodeAll, Truncated, Leftover, Whole;
    assert frames == [frames[0], frames[1]];
    TwoOnTheWire(frames[0], frames[1]);
    TwoOnTheWire(a, b);
    assert EncodeFrame(frames[0]) + (EncodeFrame(frames[1]) + rest) == EncodeFrame(a) + EncodeFrame(b);
    HeadIsWhole(parses, frames[0], EncodeFrame(frames[1]) + rest, a, EncodeFrame(b));
    assert EncodeFrame(b) + [] == EncodeFrame(b);
    FirstFrameRead(frames[1], rest, b, []);
    assert Leftover(b) + [] == Leftover(b);
  }

  lemma HeaderOnWire(header: seq<byte>, left: seq<byte>, g: seq<byte>, y: seq<byte>)
    requires |header| == 4 && header + left == EncodeFrame(g) + y
    ensures Uint32(header) == |g| % TWO_TO_THE_32
  {
    hide Uint32, PutUint32;
    HeaderRoundTrip(|g| % TWO_TO_THE_32);
    assert header == (header + left)[..4] == (EncodeFrame(g) + y)[..4] == PutUint32(|g| % TWO_TO_THE_32);
  }

  lemma PartialIsNoFrame(reader: Reader, g: seq<byte>, y: seq<byte>)
    requires WellFormed(reader)
    ensures Partial(reader) != EncodeFrame(g) + y
  {
    hide Uint32, PutUint32;
    if reader.Payload? && Partial(reader) == EncodeFrame(g) + y {
      HeaderOnWire(PutUint32(reader.length), reader.got, g, y);
      HeaderRoundTrip(reader.length);
    }
  }

  /** What the client has still to read is on the wire: the second frame after the request, or both. */
  lemma NextOnWire(plan: Plan, frames: seq<seq<byte>>, x: seq<byte>)
    requires !plan.webSocket && JSON(plan) && |frames| < 2 && AllFit(frames)
    requires frames != [] ==> plan.isRequest(frames[0])
    requires EncodeAll(frames) + x == EncodeAll(Sent(plan))
    ensures frames == [] ==> x == EncodeFrame(plan.request) + EncodeFrame(plan.body)
    ensures frames != [] ==> frames == [plan.request] && x == EncodeFrame(plan.body) + []
  {
    TwoOnTheWire(plan.request, plan.body);
    if frames == [] {
      assert EncodeAll(frames) + x == x;
    } else {
      assert frames == [frames[0]];
      EncodeAllSingle(frames[0]);
      hide EncodeFrame, EncodeAll, Whole;
      HeadIsWhole(plan.isRequest, frames[0], x, plan.request, EncodeFrame(plan.body));
    }
  }

  /** So while it reads fewer than two, some of them are in the queue or still to be written. */
  lemma WireNotDry(plan: Plan, frames: seq<seq<byte>>, reader: Reader)
    requires !plan.webSocket && JSON(plan) && HeadRead(plan.isRequest, frames, reader)
    ensures EncodeAll(frames) + Partial(reader) != EncodeAll(Sent(plan))
  {
    if EncodeAll(frames) + Partial(reader) == EncodeAll(Sent(plan)) {
      NextOnWire(plan, frames, Partial(reader));
      if frames == [] {
        PartialIsNoFrame(reader, plan.request, EncodeFrame(plan.body));
      } else {
        PartialIsNoFrame(reader, plan.body, []);
      }
    }
  }

  // ---------- what the halves take each other's frames for ----------

  /** What the local service is asked for, and its answer. */
  function Handled(plan: Plan): Reply {
    plan.respond(plan.request, Truncated(plan.body))
  }

  predicate NothingRead(proxy: Proxy) {
    !proxy.Answered? && (proxy.Awaiting? ==> proxy == Awaiting([], Header([])))
  }

  /** While the proxy still sends to a client that replies, the rest of the body is on the way up and the
      whole reply on the way down. */
  ghost predicate StillSending(plan: Plan, s: State)
    requires s.proxy.Sending?
  {
    && s.up + s.proxy.pending == Leftover(plan.body)
    && s.down + ReplyOutgoing(s.client) == EncodeAll(ReplyFrames(Handled(plan)))
  }

  /** The client handles the request as it was sent and as much of the body as its frame announces, and the
      proxy reads nothing but the reply to that. */
  ghost predicate Told(plan: Plan, s: State) {
    var replying, reply := s.client.Replying? || s.client.Closed?, Handled(plan);
    && ReadsFit(plan, s) && !s.client.Upgrading?
    && (s.client.Receiving? ==> s.down == [] && NothingRead(s.proxy))
    && (s.client.ClientFailed? ==> s.ProxyEnded() || (s.down == [] && NothingRead(s.proxy)))
    && (replying ==> s.client.frames == [plan.request, Truncated(plan.body)])
    && (replying && s.proxy.Sending? ==> StillSending(plan, s))
    && (replying && s.proxy.Awaiting? ==>
      var left := s.down + ReplyOutgoing(s.client);
      EncodeAll(s.proxy.frames) + (Partial(s.proxy.reader) + left) == EncodeAll(ReplyFrames(reply)))
    && (s.proxy.Answered? ==> s.proxy.reply == Reply(reply.head, Truncated(reply.body)))
  }

  lemma InitTold(plan: Plan)
    ensures Told(plan, Init(plan))
  {
  }

  lemma ProxyReadTold(plan: Plan, s: State, n: nat)
    requires JSON(plan) && Told(plan, s) && Enabled(plan, s, ProxyRead(n))
    ensures Told(plan, Apply(plan, s, ProxyRead(n)))
  {
    StepReadsFit(plan, s, ProxyRead(n));
    hide EncodeFrame, EncodeAll, Feed, Partial, Truncated, Leftover;
    var reply, left := Handled(plan), s.down[n..] + ReplyOutgoing(s.client);
    FeedKeepsWire(s.proxy.frames, s.proxy.reader, s.down, ReplyOutgoing(s.client), EncodeAll(ReplyFrames(reply)), n);
    var fed := Feed(s.proxy.reader, s.down[..n]);
    if fed.Complete? {
      NothingPartial(left);
      if |s.proxy.frames| == 1 {
        TwoRead(plan.isReply, reply.head, reply.body, s.proxy.frames + [fed.payload], left);
      }
    }
  }

  lemma StartOfReply(bytes: seq<byte>)
    ensures EncodeAll([]) + (Partial(Header([])) + ([] + bytes)) == bytes
  {
  }

  lemma BothRead(plan: Plan, s: State, n: nat)
    requires !plan.webSocket && JSON(plan) && Wired(plan, s) && Enabled(plan, s, ClientRead(n))
    requires Feed(s.client.reader, s.up[..n]).Complete? && |s.client.frames| == 1
    ensures var frames := s.client.frames + [Feed(s.client.reader, s.up[..n]).payload];
      frames == [plan.request, Truncated(plan.body)] && s.up[n..] + Outgoing(s.proxy) == Leftover(plan.body)
  {
    assert Whole(plan.isRequest, plan.request) && HeadRead(plan.isRequest, s.client.frames, s.client.reader);
    hide EncodeFrame, EncodeAll, Feed, Partial, Truncated, Leftover, JSON, Whole, ReadsFit;
    var frames, left := s.client.frames + [Feed(s.client.reader, s.up[..n]).payload], s.up[n..] + Outgoing(s.proxy);
    FeedKeepsWire(s.client.frames, s.client.reader, s.up, Outgoing(s.proxy), EncodeAll(Sent(plan)), n);
    TwoRead(plan.isRequest, plan.request, plan.body, frames, left);
  }

  /** The client has read two frames and replies. */
  lemma ReplyTold(plan: Plan, s: State, n: nat)
    requires !plan.webSocket && JSON(plan) && Wired(plan, s) && Told(plan, s) && Enabled(plan, s, ClientRead(n))
    requires Feed(s.client.reader, s.up[..n]).Complete? && |s.client.frames| == 1
    ensures Told(plan, Apply(plan, s, ClientRead(n)))
  {
    StepReadsFit(plan, s, ClientRead(n));
    BothRead(plan, s, n);
    StartOfReply(EncodeAll(ReplyFrames(Handled(plan))));
    hide EncodeFrame, EncodeAll, Feed, Partial, Truncated, Leftover, ReadsFit, JSON, Wired;
    assert [] + EncodeAll(ReplyFrames(Handled(plan))) == EncodeAll(ReplyFrames(Handled(plan)));
  }

  lemma ClientReadTold(plan: Plan, s: State, n: nat)
    requires !plan.webSocket && JSON(plan) && Wired(plan, s) && Told(plan, s) && Enabled(plan, s, ClientRead(n))
    ensures Told(plan, Apply(plan, s, ClientRead(n)))
  {
    if Feed(s.client.reader, s.up[..n]).Complete? && |s.client.frames| == 1 {
      ReplyTold(plan, s, n);
    } else {
      StepReadsFit(plan, s, ClientRead(n));
      hide EncodeFrame, EncodeAll, Feed, Partial, Truncated, Leftover, JSON;
    }
  }

  lemma WriteTold(plan: Plan, s: State, e: Event)
    requires Told(plan, s) && Enabled(plan, s, e) && (e.ProxyWrite? || e.ClientWrite?)
    ensures Told(plan, Apply(plan, s, e))
  {
    StepReadsFit(plan, s, e);
    hide EncodeFrame, EncodeAll, ReadsFit, Truncated, Leftover;
    if e.ClientWrite? {
      assert s.down + s.client.pending == s.down + s.client.pending[..e.n] + s.client.pending[e.n..];
    } else {
      assert s.up + s.proxy.pending == s.up + s.proxy.pending[..e.n] + s.proxy.pending[e.n..];
      StartOfReply(s.down + ReplyOutgoing(s.client));
      assert [] + (s.down + ReplyOutgoing(s.client)) == s.down + ReplyOutgoing(s.client);
    }
  }

  lemma StepTold(plan: Plan, s: State, e: Event)
    requires !plan.webSocket && JSON(plan) && Wired(plan, s) && Told(plan, s) && Enabled(plan, s, e)
    ensures Told(plan, Apply(plan, s, e))
  {
    match e
    case ProxyRead(n) => ProxyReadTold(plan, s, n);
    case ClientRead(n) => ClientReadTold(plan, s, n);
    case ProxyWrite(n) => WriteTold(plan, s, e);
    case ClientWrite(n) => WriteTold(plan, s, e);
    case _ =>
      StepReadsFit(plan, s, e);
      hide EncodeFrame, EncodeAll, Partial, ReadsFit, Truncated, Leftover;
  }

  lemma {:induction false} RunTold(plan: Plan, s: State, events: seq<Event>)
    requires !plan.webSocket && JSON(plan) && Wired(plan, s) && Told(plan, s) && Execute(plan, s, events).Some?
    ensures Wired(plan, Execute(plan, s, events).value) && Told(plan, Execute(plan, s, events).value)
    decreases |events|
  {
    hide Wired, Told, Apply, Enabled, Measure;
    if events != [] {
      StepWired(plan, s, events[0]);
      StepTold(plan, s, events[0]);
      RunTold(plan, Apply(plan, s, events[0]), events[1..]);
    }
  }

  /** In every state of every interleaving, whatever the lengths: a client that has handled a request has
      handled exactly the one sent, with as much of the body as its frame announces. So it has handled
      exactly what was sent if and only if the body's length does not wrap. */
  lemma HandledIff(plan: Plan, events: seq<Event>)
    requires !plan.webSocket && JSON(plan) && Execute(plan, Init(plan), events).Some?
    ensures var s := Execute(plan, Init(plan), events).value;
      s.client.Replying? || s.client.Closed? ==>
        && s.client.frames == [plan.request, Truncated(plan.body)]
        && (s.client.frames == [plan.request, plan.body] <==> Narrow(plan.body))
  {
    InitWired(plan);
    InitTold(plan);
    RunTold(plan, Init(plan), events);
    TruncatedIff(plan.body);
    hide Truncated, Leftover;
  }

  /** And a proxy that has an answer has exactly the head of the reply to that, with as much of its body as
      its frame announces: exactly the reply produced, if and only if that body's length does not wrap. */
  lemma AnsweredIff(plan: Plan, events: seq<Event>)
    requires !plan.webSocket && JSON(plan) && Execute(plan, Init(plan), events).Some?
    ensures var s := Execute(plan, Init(plan), events).value;
      s.proxy.Answered? ==>
        && s.proxy.reply == Reply(Handled(plan).head, Truncated(Handled(plan).body))
        && (s.proxy.reply == Handled(plan) <==> Narrow(Handled(plan).body))
  {
    InitWired(plan);
    InitTold(plan);
    RunTold(plan, Init(plan), events);
    TruncatedIff(Handled(plan).body);
    hide Truncated, Leftover;
  }

  /** So if neither body wraps nothing is ever handled or answered wrongly, whatever is too long: the proxy's
      caller gets the reply to what was sent, or an error. */
  lemma NeverWrong(plan: Plan, events: seq<Event>)
    requires !plan.webSocket && JSON(plan) && Execute(plan, Init(plan), events).Some?
    requires Narrow(plan.body) && Narrow(plan.respond(plan.request, plan.body).body)
    ensures var s := Execute(plan, Init(plan), events).value;
      && (s.client.Replying? || s.client.Closed? ==> s.client.frames == [plan.request, plan.body])
      && (s.proxy.Answered? ==> s.proxy.reply == plan.respond(plan.request, plan.body))
  {
    HandledIff(plan, events);
    AnsweredIff(plan, events);
    TruncatedIff(plan.body);
  }

  /** A body whose length wraps to zero vanishes: the service is asked as if there were none. */
  lemma WrappedBodyVanishes(plan: Plan, events: seq<Event>)
    requires !plan.webSocket && JSON(plan) && Execute(plan, Init(plan), events).Some?
    requires |plan.body| % TWO_TO_THE_32 == 0
    ensures var s := Execute(plan, Init(plan), events).value;
      && (s.client.Replying? || s.client.Closed? ==> s.client.frames == [plan.request, []])
      && (s.proxy.Answered? ==> s.proxy.reply.head == plan.respond(plan.request, []).head)
  {
    HandledIff(plan, events);
    AnsweredIff(plan, events);
    assert Truncated(plan.body) == [];
  }

  lemma SameStep(plan: Plan, s: State, e: Event)
    requires Enabled(plan, s, e)
    ensures Enabled(plan.(body := []), s, e) && Apply(plan.(body := []), s, e) == Apply(plan, s, e)
  {
    hide EncodeFrame, EncodeAll, Feed;
  }

  /** Every run of such an exchange is, move by move, that of the exchange with an empty body. */
  lemma {:induction false} RunsWithoutBody(plan: Plan, s: State, events: seq<Event>)
    requires |plan.body| % TWO_TO_THE_32 == 0
    ensures Init(plan) == Init(plan.(body := []))
    ensures Execute(plan, s, events) == Execute(plan.(body := []), s, events)
    decreases |events|
  {
    var other := plan.(body := []);
    assert EncodeFrame(plan.body) == EncodeFrame([]);
    hide EncodeFrame;
    TwoOnTheWire(plan.request, plan.body);
    TwoOnTheWire(plan.request, []);
    if events != [] && Enabled(plan, s, events[0]) {
      SameStep(plan, s, events[0]);
      RunsWithoutBody(plan, Apply(plan, s, events[0]), events[1..]);
    }
    hide EncodeAll, Apply;
    assert events != [] ==> (Enabled(plan, s, events[0]) <==> Enabled(other, s, events[0]));
  }

  // ---------- when an exchange does not end ----------

  /** Each half has more to write than the queue before it takes, and neither reads. */
  predicate BothWriting(plan: Plan, s: State) {
    s.proxy.Sending? && s.client.Replying? && |s.up| >= plan.upCapacity && |s.down| >= plan.downCapacity
  }

  /** Each half is waiting for bytes that nobody will write. */
  predicate BothReading(s: State) {
    s.proxy.Awaiting? && s.client.Receiving? && s.up == [] && s.down == []
  }

  /** A plain exchange, with frames of any length, can go no further exactly when both halves have ended or
      they wait for each other, both writing or both reading. */
  lemma HaltedIff(plan: Plan, s: State)
    requires plan.upCapacity > 0 && plan.downCapacity > 0 && Wired(plan, s) && !s.client.Upgrading?
    ensures Halted(plan, s) <==> (s.ProxyEnded() && s.ClientEnded()) || BothWriting(plan, s) || BothReading(s)
  {
    hide EncodeFrame, EncodeAll, Feed;
    if Halted(plan, s) {
      assert !Enabled(plan, s, ProxyWrite(1)) && !Enabled(plan, s, ClientWrite(1));
      assert !Enabled(plan, s, ProxyRead(1)) && !Enabled(plan, s, ClientRead(1));
      assert !Enabled(plan, s, ProxyEof) && !Enabled(plan, s, ProxyCutOff);
      assert !Enabled(plan, s, ClientEof) && !Enabled(plan, s, ClientCutOff);
    }
  }

  /** A body of 4 GiB or more whose frame announces little enough to be read, more behind that than the
      queue takes, and a reply that its queue does not take either. */
  ghost predicate MayBlock(plan: Plan) {
    var n := |plan.body| % TWO_TO_THE_32;
    && Fits(plan.request)
    && |plan.body| >= TWO_TO_THE_32 && 0 < n <= FRAME_SIZE_LIMIT
    && |plan.body| - n > plan.upCapacity
    && |EncodeAll(ReplyFrames(plan.respond(plan.request, plan.body[..n])))| > plan.downCapacity
  }

  /** Such a run stops with neither half finished. */
  ghost predicate Blocks(plan: Plan, events: seq<Event>) {
    && Execute(plan, Init(plan), events).Some?
    && var s := Execute(plan, Init(plan), events).value; Halted(plan, s) && !(s.ProxyEnded() && s.ClientEnded())
  }

  lemma BlockedOnlyIf(plan: Plan, s: State)
    requires !plan.webSocket && JSON(plan) && plan.upCapacity > 0 && plan.downCapacity > 0
    requires Wired(plan, s) && Told(plan, s) && Halted(plan, s)
    ensures (s.ProxyEnded() && s.ClientEnded()) || (BothWriting(plan, s) && MayBlock(plan))
  {
    hide EncodeFrame, EncodeAll, Feed;
    HaltedIff(plan, s);
    if BothReading(s) {
      assert Partial(s.client.reader) + ([] + []) == Partial(s.client.reader);
      WireNotDry(plan, s.client.frames, s.client.reader);
    } else if BothWriting(plan, s) {
      assert |s.up + s.proxy.pending| > plan.upCapacity;
      assert |s.down + s.client.pending| > plan.downCapacity;
      assert Fits(s.client.frames[0]) && Fits(s.client.frames[1]);
    }
  }

  lemma RunTwo(plan: Plan, s: State, a: Event, b: Event, rest: seq<Event>)
    requires Enabled(plan, s, a) && Enabled(plan, Apply(plan, s, a), b)
    ensures Execute(plan, s, [a, b] + rest) == Execute(plan, Apply(plan, Apply(plan, s, a), b), rest)
  {
    hide Enabled, Apply;
    assert ([a, b] + rest)[1..] == [b] + rest && ([b] + rest)[1..] == rest;
  }

  /** The client has taken all that was written, and the proxy has more. */
  ghost predicate Pumping(plan: Plan, s: State) {
    Wired(plan, s) && Told(plan, s) && s.client.Receiving? && s.up == [] && s.proxy.Sending?
  }

  /** One more byte is written. */
  function Written(plan: Plan, s: State): State
    requires s.proxy.Sending? && s.proxy.pending != [] && s.up == [] && plan.upCapacity > 0
  {
    Apply(plan, s, ProxyWrite(1))
  }

  /** Every header on the wire of a blocked run is within the limit. */
  lemma HeaderFits(plan: Plan, frames: seq<seq<byte>>, header: seq<byte>, left: seq<byte>)
    requires !plan.webSocket && JSON(plan) && MayBlock(plan) && |frames| < 2 && AllFit(frames) && |header| == 4
    requires frames != [] ==> plan.isRequest(frames[0])
    requires EncodeAll(frames) + (header + left) == EncodeAll(Sent(plan))
    ensures Uint32(header) <= FRAME_SIZE_LIMIT
  {
    hide EncodeFrame, EncodeAll, Uint32;
    NextOnWire(plan, frames, header + left);
    if frames == [] {
      HeaderOnWire(header, left, plan.request, EncodeFrame(plan.body));
    } else {
      HeaderOnWire(header, left, plan.body, []);
    }
    hide JSON;
  }

  lemma NothingRejected(plan: Plan, s: State)
    requires !plan.webSocket && JSON(plan) && plan.upCapacity > 0 && MayBlock(plan) && Pumping(plan, s)
    ensures !Feed(s.client.reader, s.proxy.pending[..1]).Rejected?
  {
    hide EncodeFrame, EncodeAll, Feed, Uint32, PutUint32, JSON, MayBlock, Partial, Told;
    var bytes, left, reader := s.proxy.pending[..1], s.proxy.pending[1..], s.client.reader;
    FeedAccounts(reader, bytes);
    assert s.up + Outgoing(s.proxy) == bytes + left;
    assert Partial(reader) + (bytes + left) == Partial(reader) + bytes + left;
    if Feed(reader, bytes).Rejected? {
      HeaderFits(plan, s.client.frames, Partial(reader) + bytes, left);
    }
  }

  lemma FirstIsRequest(plan: Plan, payload: seq<byte>, rest: seq<byte>)
    requires !plan.webSocket && Fits(plan.request) && Fits(payload)
    requires EncodeAll([payload]) + rest == EncodeAll(Sent(plan))
    ensures payload == plan.request
  {
    TwoOnTheWire(plan.request, plan.body);
    EncodeAllSingle(payload);
    hide EncodeFrame, EncodeAll;
    FirstFrameRead(payload, rest, plan.request, EncodeFrame(plan.body));
    TruncatedIff(plan.request);
  }

  /** What the client read leaves more for the proxy to send: the rest of the body, or of a frame. */
  lemma MoreToSend(plan: Plan, frames: seq<seq<byte>>, fed: Fed, out: seq<byte>)
    requires !plan.webSocket && JSON(plan) && MayBlock(plan) && |frames| < 2 && AllFit(frames) && !fed.Rejected?
    requires frames != [] ==> Reads(plan.isRequest, frames[0])
    requires WireKept(fed, frames, out, EncodeAll(Sent(plan)))
    ensures out != []
    ensures fed.Complete? && frames == [] ==> fed.payload == plan.request
  {
    hide EncodeFrame, EncodeAll, Partial, Truncated;
    if fed.More? {
      WireNotDry(plan, frames, fed.reader);
      assert Partial(fed.reader) + [] == Partial(fed.reader);
    } else if frames == [] {
      assert frames + [fed.payload] == [fed.payload];
      FirstIsRequest(plan, fed.payload, out);
      WireNotDry(plan, [fed.payload], Header([]));
      NothingPartial([]);
    } else {
      TwoRead(plan.isRequest, plan.request, plan.body, frames + [fed.payload], out);
    }
  }

  /** The client takes that byte: it goes on reading, or replies; either way the proxy has more to send. */
  lemma PumpOne(plan: Plan, s: State) returns (t: State)
    requires !plan.webSocket && JSON(plan) && plan.upCapacity > 0 && MayBlock(plan) && Pumping(plan, s)
    ensures Enabled(plan, s, ProxyWrite(1)) && Enabled(plan, Apply(plan, s, ProxyWrite(1)), ClientRead(1))
    ensures t == Apply(plan, Apply(plan, s, ProxyWrite(1)), ClientRead(1)) && Wired(plan, t) && Told(plan, t)
    ensures t.up == [] && t.proxy.Sending? && |t.proxy.pending| < |s.proxy.pending|
    ensures t.client.Receiving? || (t.client.Replying? && t.down == [])
  {
    assert s.down == [];
    hide EncodeFrame, EncodeAll, Feed, Partial, Truncated, Leftover, Told;
    var w := Written(plan, s);
    StepWired(plan, s, ProxyWrite(1));
    StepTold(plan, s, ProxyWrite(1));
    assert w.up == s.proxy.pending[..1] == w.up[..1] && w.up[1..] == [];
    StepWired(plan, w, ClientRead(1));
    StepTold(plan, w, ClientRead(1));
    t := Apply(plan, w, ClientRead(1));
    NothingRejected(plan, s);
    var frames, reader, out := s.client.frames, s.client.reader, Outgoing(w.proxy);
    FeedKeepsWire(frames, reader, w.up, out, EncodeAll(Sent(plan)), 1);
    assert [] + out == out;
    MoreToSend(plan, frames, Feed(reader, w.up[..1]), out);
  }

  lemma {:induction false} Pump(plan: Plan, s: State) returns (events: seq<Event>)
    requires !plan.webSocket && JSON(plan) && plan.upCapacity > 0 && MayBlock(plan) && Pumping(plan, s)
    ensures Execute(plan, s, events).Some?
    ensures var t := Execute(plan, s, events).value;
      Told(plan, t) && Wired(plan, t) && t.up == [] && t.down == [] && t.proxy.Sending? && t.client.Replying?
    decreases |s.proxy.pending|
  {
    var t := PumpOne(plan, s);
    hide Apply, Enabled, Told, Wired, MayBlock, JSON;
    var more := [];
    if t.client.Receiving? {
      more := Pump(plan, t);
    }
    events := [ProxyWrite(1), ClientRead(1)] + more;
    RunTwo(plan, s, ProxyWrite(1), ClientRead(1), more);
  }

  /** Both queues fill up. */
  lemma FillUp(plan: Plan, s: State)
    requires MayBlock(plan) && Told(plan, s) && Wired(plan, s) && plan.upCapacity > 0 && plan.downCapacity > 0
    requires s.up == [] && s.down == [] && s.proxy.Sending? && s.client.Replying?
    ensures var t := Execute(plan, s, [ProxyWrite(plan.upCapacity), ClientWrite(plan.downCapacity)] + []);
      t.Some? && Halted(plan, t.value) && BothWriting(plan, t.value)
  {
    hide EncodeFrame, EncodeAll, ReadsFit;
    assert [] + s.proxy.pending == s.proxy.pending && [] + s.client.pending == s.client.pending;
    assert |s.proxy.pending| > plan.upCapacity && |s.client.pending| > plan.downCapacity;
    var r := Apply(plan, s, ProxyWrite(plan.upCapacity));
    var t := Apply(plan, r, ClientWrite(plan.downCapacity));
    StepWired(plan, s, ProxyWrite(plan.upCapacity));
    StepWired(plan, r, ClientWrite(plan.downCapacity));
    assert BothWriting(plan, t);
    HaltedIff(plan, t);
    hide Apply, Enabled, Wired, Told, Halted, BothWriting;
    RunTwo(plan, s, ProxyWrite(plan.upCapacity), ClientWrite(plan.downCapacity), []);
  }

  lemma {:induction false} RunConcat(plan: Plan, s: State, a: seq<Event>, b: seq<Event>)
    requires Execute(plan, s, a).Some?
    ensures Execute(plan, s, a + b) == Execute(plan, Execute(plan, s, a).value, b)
    decreases |a|
  {
    hide Enabled, Apply;
    if a == [] {
      assert a + b == b;
    } else {
      assert (a + b)[1..] == a[1..] + b;
      RunConcat(plan, Apply(plan, s, a[0]), a[1..], b);
    }
  }

  lemma SomeRunBlocks(plan: Plan) returns (events: seq<Event>)
    requires !plan.webSocket && JSON(plan) && plan.upCapacity > 0 && plan.downCapacity > 0 && MayBlock(plan)
    ensures Blocks(plan, events)
  {
    InitWired(plan);
    InitTold(plan);
    hide Wired, Told, MayBlock, JSON, Halted;
    var first := Pump(plan, Init(plan));
    var s := Execute(plan, Init(plan), first).value;
    FillUp(plan, s);
    var last := [ProxyWrite(plan.upCapacity), ClientWrite(plan.downCapacity)] + [];
    RunConcat(plan, Init(plan), first, last);
    events := first + last;
  }

  lemma NoRunBlocks(plan: Plan, events: seq<Event>)
    requires !plan.webSocket && JSON(plan) && plan.upCapacity > 0 && plan.downCapacity > 0 && Blocks(plan, events)
    ensures MayBlock(plan)
  {
    InitWired(plan);
    InitTold(plan);
    RunTold(plan, Init(plan), events);
    BlockedOnlyIf(plan, Execute(plan, Init(plan), events).value);
    hide Execute, Wired, Told, Halted, MayBlock;
  }

  /** The exact condition: a plain exchange has a run that stops with its halves waiting for each other if
      and only if its request is within the limit, its body wraps to a length that is too, and both the rest
      of the body and the reply are longer than their queues. */
  lemma BlocksIff(plan: Plan)
    requires !plan.webSocket && JSON(plan) && plan.upCapacity > 0 && plan.downCapacity > 0
    ensures (exists events :: Blocks(plan, events)) <==> MayBlock(plan)
  {
    hide Blocks, MayBlock, JSON;
    if MayBlock(plan) {
      var events := SomeRunBlocks(plan);
    }
    forall events | Blocks(plan, events) ensures MayBlock(plan) {
      NoRunBlocks(plan, events);
    }
  }

  /** Else, however the halves are interleaved and whatever is too long, an exchange that can go no further
      has ended on both sides: the proxy has answered its caller. */
  lemma ExchangeEnds(plan: Plan, events: seq<Event>)
    requires !plan.webSocket && JSON(plan) && plan.upCapacity > 0 && plan.downCapacity > 0 && !MayBlock(plan)
    requires Execute(plan, Init(plan), events).Some? && Halted(plan, Execute(plan, Init(plan), events).value)
    ensures var s := Execute(plan, Init(plan), events).value; s.ProxyEnded() && s.ClientEnded()
  {
    BlocksIff(plan);
    hide MayBlock, JSON, Execute, Halted;
    assert !Blocks(plan, events);
  }
}
