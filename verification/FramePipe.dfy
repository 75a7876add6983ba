/** A FrameWriter and a FrameReader at work at the same time, on the two ends of a queue of bounded capacity:
    each side moves any number of bytes at a time, in any order. */
module FramePipe {
  import opened Wrappers
  import opened Framing

  /** The reader inside a header, inside a frame, at the terminator, or stopped by a header it refuses. */
  datatype Reader = Heading(got: seq<byte>) | InFrame(remaining: nat) | Done | Refused

  datatype State = State(pending: seq<byte>, queue: seq<byte>, reader: Reader, out: seq<byte>)

  datatype Event = Write(n: nat) | Read(n: nat)

  function Init(wire: seq<byte>): State {
    State(wire, [], Heading([]), [])
  }

  /** How many bytes the reader can take at once, with a buffer that is long enough. */
  function Room(reader: Reader): int {
    match reader
    case Heading(got) => 4 - |got|
    case InFrame(remaining) => remaining
    case _ => 0
  }

  predicate Enabled(capacity: nat, s: State, e: Event) {
    match e
    case Write(n) => 0 < n <= |s.pending| && |s.queue| + n <= capacity
    case Read(n) => 0 < n <= |s.queue| && n <= Room(s.reader)
  }

  function AfterHeader(header: seq<byte>): Reader
    requires |header| == 4
  {
    var length := Uint32(header);
    if length == 0 then Done else if length > FRAME_SIZE_LIMIT then Refused else InFrame(length)
  }

  function Apply(capacity: nat, s: State, e: Event): State
    requires Enabled(capacity, s, e)
  {
    match e
    case Write(n) => s.(pending := s.pending[n..], queue := s.queue + s.pending[..n])
    case Read(n) =>
      var bytes, t := s.queue[..n], s.(queue := s.queue[n..]);
      match s.reader
      case Heading(got) => t.(reader := if |got + bytes| < 4 then Heading(got + bytes) else AfterHeader(got + bytes))
      case InFrame(remaining) =>
        t.(out := s.out + bytes, reader := if n < remaining then InFrame(remaining - n) else Heading([]))
  }

  function Run(capacity: nat, s: State, events: seq<Event>): Option<State>
    decreases |events|
  {
    if events == [] then Some(s)
    else if Enabled(capacity, s, events[0]) then Run(capacity, Apply(capacity, s, events[0]), events[1..])
    else None
  }

  ghost predicate Halted(capacity: nat, s: State) {
    forall e: Event :: !Enabled(capacity, s, e)
  }

  predicate WellFormed(reader: Reader) {
    (reader.Heading? ==> |reader.got| < 4) && (reader.InFrame? ==> reader.remaining > 0)
  }

  /** What a reader has still to deliver when `left` is all that is still to come. */
  function Due(reader: Reader, left: seq<byte>): Delivery {
    match reader
    case Heading(got) => Deliver(got + left, 0)
    case InFrame(remaining) => Deliver(left, remaining)
    case Done => Delivery([], Terminated(left))
    case Refused => Delivery([], Ended(TooLarge))
  }

  ghost predicate Inv(s: State, all: Delivery) {
    WellFormed(s.reader) && Prepend(s.out, Due(s.reader, s.queue + s.pending)) == all
  }

  lemma HeadingDue(got: seq<byte>, bytes: seq<byte>, left: seq<byte>)
    requires |got + bytes| <= 4
    ensures Due(Heading(got), bytes + left)
      == Due(if |got + bytes| < 4 then Heading(got + bytes) else AfterHeader(got + bytes), left)
  {
    hide Uint32;
    var data := got + bytes + left;
    assert got + (bytes + left) == data;
    if |got + bytes| == 4 {
      assert data[..4] == got + bytes && data[4..] == left;
    }
  }

  lemma InFrameDue(remaining: nat, bytes: seq<byte>, left: seq<byte>)
    requires |bytes| <= remaining && remaining > 0
    ensures Due(InFrame(remaining), bytes + left)
      == Prepend(bytes, Due(if |bytes| < remaining then InFrame(remaining - |bytes|) else Heading([]), left))
  {
    DeliverSplit(bytes + left, remaining, |bytes|);
    assert (bytes + left)[..|bytes|] == bytes && (bytes + left)[|bytes|..] == left && [] + left == left;
    hide Deliver;
  }

  lemma ReadInv(capacity: nat, s: State, n: nat, all: Delivery)
    requires Inv(s, all) && Enabled(capacity, s, Read(n))
    ensures Inv(Apply(capacity, s, Read(n)), all)
  {
    hide Due;
    var bytes, left := s.queue[..n], s.queue[n..] + s.pending;
    assert s.queue + s.pending == bytes + left;
    if s.reader.Heading? {
      HeadingDue(s.reader.got, bytes, left);
    } else {
      InFrameDue(s.reader.remaining, bytes, left);
      var d := Due(Apply(capacity, s, Read(n)).reader, left);
      assert s.out + (bytes + d.bytes) == s.out + bytes + d.bytes;
    }
  }

  lemma StepInv(capacity: nat, s: State, e: Event, all: Delivery)
    requires Inv(s, all) && Enabled(capacity, s, e)
    ensures Inv(Apply(capacity, s, e), all)
  {
    match e
    case Write(n) =>
      assert s.queue + s.pending[..n] + s.pending[n..] == s.queue + s.pending;
      hide Due;
    case Read(n) => ReadInv(capacity, s, n, all);
  }

  /** Moves still to be made. */
  function Measure(s: State): nat {
    2 * |s.pending| + |s.queue|
  }

  lemma {:induction false} RunInv(capacity: nat, s: State, events: seq<Event>, all: Delivery)
    requires Inv(s, all) && |s.queue| <= capacity && Run(capacity, s, events).Some?
    ensures Inv(Run(capacity, s, events).value, all) && |Run(capacity, s, events).value.queue| <= capacity
    ensures Measure(Run(capacity, s, events).value) + |events| <= Measure(s)
    decreases |events|
  {
    hide Inv;
    if events != [] {
      StepInv(capacity, s, events[0], all);
      RunInv(capacity, Apply(capacity, s, events[0]), events[1..], all);
    }
  }

  /** On any bytes, in every interleaving: what has been delivered so far is the beginning of what the stream
      delivers, the queue holds no more than its capacity, and the run is within twice as many moves as there
      are bytes. */
  lemma DeliversPrefix(capacity: nat, wire: seq<byte>, events: seq<Event>)
    requires Run(capacity, Init(wire), events).Some?
    ensures Run(capacity, Init(wire), events).value.out <= Deliver(wire, 0).bytes
    ensures |Run(capacity, Init(wire), events).value.queue| <= capacity
    ensures |events| <= 2 * |wire|
  {
    assert [] + ([] + wire) == wire;
    RunInv(capacity, Init(wire), events, Deliver(wire, 0));
  }

  lemma NothingMore(s: State)
    requires WellFormed(s.reader) && s.reader != Done && (s.reader.Refused? || s.queue + s.pending == [])
    ensures Due(s.reader, s.queue + s.pending).end.Ended?
  {
  }

  /** Any chunks and Close, any bytes behind them: whatever the capacity and the interleaving, when nothing
      more can move the reader is done, exactly the chunks' bytes have been delivered, and every byte behind
      the terminator is unread. */
  lemma PipeDelivers(capacity: nat, chunks: seq<seq<byte>>, suffix: seq<byte>, events: seq<Event>)
    requires capacity > 0 && AllFit(chunks)
    requires var wire := EncodeChunks(chunks) + EncodeFrame([]) + suffix;
      Run(capacity, Init(wire), events).Some? && Halted(capacity, Run(capacity, Init(wire), events).value)
    ensures var s := Run(capacity, Init(EncodeChunks(chunks) + EncodeFrame([]) + suffix), events).value;
      s.reader == Done && s.out == Flatten(chunks) && s.queue + s.pending == suffix
  {
    var wire := EncodeChunks(chunks) + EncodeFrame([]) + suffix;
    StreamRoundTrip(chunks, suffix);
    hide EncodeFrame, EncodeChunks;
    assert [] + ([] + wire) == wire;
    RunInv(capacity, Init(wire), events, Deliver(wire, 0));
    var s := Run(capacity, Init(wire), events).value;
    assert !Enabled(capacity, s, Write(1)) && !Enabled(capacity, s, Read(1));
    if s.reader != Done {
      assert s.reader.Refused? || s.queue + s.pending == [];
      NothingMore(s);
    }
  }
}
