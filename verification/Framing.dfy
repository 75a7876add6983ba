/** The length-prefixed frame codec as functions on byte sequences: the one-shot
    form, the streaming form, and the laws that connect them. */
module Framing {

  type byte = b: int | 0 <= b < 256

  const FRAME_SIZE_LIMIT: nat := 16 * 1024 * 1024
  const TWO_TO_THE_32: nat := 0x1_0000_0000

  // ---------- header ----------

  function PutUint32(v: nat): (header: seq<byte>)
    requires v < TWO_TO_THE_32
    ensures |header| == 4
  {
    [v / 0x100_0000, v / 0x1_0000 % 256, v / 256 % 256, v % 256]
  }

  function Uint32(header: seq<byte>): (v: nat)
    requires |header| == 4
    ensures v < TWO_TO_THE_32
  {
    ((header[0] as int * 256 + header[1]) * 256 + header[2]) * 256 + header[3]
  }

  function Pow256(k: nat): nat {
    if k == 0 then 1 else 256 * Pow256(k - 1)
  }

  /** The number that bytes denote with the most significant first. */
  function Value(bytes: seq<byte>): nat {
    if bytes == [] then 0 else bytes[0] * Pow256(|bytes| - 1) + Value(bytes[1..])
  }

  lemma HeaderPowers()
    ensures Pow256(0) == 1 && Pow256(1) == 256 && Pow256(2) == 0x1_0000 && Pow256(3) == 0x100_0000
  {
    assert Pow256(2) == 256 * Pow256(1) && Pow256(3) == 256 * Pow256(2);
  }

  lemma Shifts(v: nat)
    ensures v / 256 / 256 == v / 0x1_0000 && v / 0x1_0000 / 256 == v / 0x100_0000
  {
  }

  lemma Unshift(high: nat, low: byte)
    ensures (high * 256 + low) / 256 == high && (high * 256 + low) % 256 == low
  {
  }

  /** Every length survives its header, whose byte `i` is its base-256 digit of weight 256^(3 - i). */
  lemma HeaderRoundTrip(v: nat)
    requires v < TWO_TO_THE_32
    ensures Uint32(PutUint32(v)) == v
    ensures forall i :: 0 <= i < 4 ==> PutUint32(v)[i] == v / Pow256(3 - i) % 256
  {
    HeaderPowers();
    Shifts(v);
    hide Pow256;
  }

  lemma HeaderValue(header: seq<byte>)
    requires |header| == 4
    ensures Uint32(header) == Value(header)
  {
    HeaderPowers();
    hide Pow256;
    assert Value(header[3..]) == header[3] && header[2..][1..] == header[3..];
    assert Value(header[2..]) == header[2] as int * 256 + header[3] && header[1..][1..] == header[2..];
  }

  /** And every header is the header of the number it denotes in base 256. */
  lemma HeaderCanonical(header: seq<byte>)
    requires |header| == 4
    ensures PutUint32(Uint32(header)) == header
    ensures Uint32(header) == Value(header)
  {
    HeaderValue(header);
    hide Value;
    var high := header[0] as int * 256 + header[1];
    Unshift(header[0] as int, header[1]);
    Unshift(high, header[2]);
    Unshift(high * 256 + header[2], header[3]);
    Shifts(Uint32(header));
  }

  // ---------- one frame ----------

  datatype ReadError = Eof | UnexpectedEof | TooLarge | Broken

  datatype FrameResult = Frame(payload: seq<byte>, rest: seq<byte>) | Failed(error: ReadError)

  /** What WriteFrame puts on the wire. The length is a uint32, so it wraps, and a payload whose
      wrapped length is zero is not written at all. */
  function EncodeFrame(payload: seq<byte>): seq<byte> {
    var length := |payload| % TWO_TO_THE_32;
    PutUint32(length) + (if length == 0 then [] else payload)
  }

  /** What ReadFrame returns when `data` is everything the stream will ever carry. */
  function DecodeFrame(data: seq<byte>): FrameResult {
    if |data| == 0 then Failed(Eof)
    else if |data| < 4 then Failed(UnexpectedEof)
    else
      var length := Uint32(data[..4]);
      var tail := data[4..];
      if length == 0 then Frame([], tail)
      else if length > FRAME_SIZE_LIMIT then Failed(TooLarge)
      else if |tail| == 0 then Failed(Eof)
      else if |tail| < length then Failed(UnexpectedEof)
      else Frame(tail[..length], tail[length..])
  }

  ghost predicate Fits(payload: seq<byte>) {
    |payload| <= 16_777_216
  }

  /** What the wire carries for a short payload, byte by byte. */
  lemma ShortFrame(payload: seq<byte>)
    requires |payload| < 256
    ensures EncodeFrame(payload) == [0, 0, 0, |payload|] + payload
  {
    assert payload == [] ==> [0, 0, 0, 0] + payload == [0, 0, 0, 0];
  }

  /** A frame survives the wire exactly when its payload is within the limit. */
  lemma FrameRoundTripIff(payload: seq<byte>, rest: seq<byte>)
    ensures DecodeFrame(EncodeFrame(payload) + rest) == Frame(payload, rest) <==> Fits(payload)
  {
    var length := |payload| % TWO_TO_THE_32;
    var data := EncodeFrame(payload) + rest;
    HeaderRoundTrip(length);
    assert data[..4] == PutUint32(length);
    if length != 0 {
      assert data[4..] == payload + rest;
    }
    if Fits(payload) {
      assert length == |payload|;
      assert data[4..] == payload + rest;
      assert (payload + rest)[..length] == payload && (payload + rest)[length..] == rest;
    }
  }

  /** The part of a payload that its frame announces, and the part behind it, which the frame carries all
      the same unless the announced length is zero. */
  function Truncated(payload: seq<byte>): seq<byte> {
    payload[..|payload| % TWO_TO_THE_32]
  }

  function Leftover(payload: seq<byte>): seq<byte> {
    var length := |payload| % TWO_TO_THE_32;
    if length == 0 then [] else payload[length..]
  }

  /** What any frame that is written, of any length, reads back as. */
  lemma WrittenReadsAs(payload: seq<byte>, rest: seq<byte>)
    ensures DecodeFrame(EncodeFrame(payload) + rest) ==
      if |Truncated(payload)| > FRAME_SIZE_LIMIT then Failed(TooLarge)
      else Frame(Truncated(payload), Leftover(payload) + rest)
  {
    hide Uint32, PutUint32;
    var length := |payload| % TWO_TO_THE_32;
    var data := EncodeFrame(payload) + rest;
    HeaderRoundTrip(length);
    assert data[..4] == PutUint32(length);
    if length == 0 {
      assert data[4..] == rest == Leftover(payload) + rest;
    } else {
      assert data[4..] == payload + rest;
      assert (payload + rest)[..length] == payload[..length];
      assert (payload + rest)[length..] == payload[length..] + rest;
    }
  }

  /** ReadFrame succeeds only on encodings of small payloads: the encoding is canonical. */
  lemma DecodedIsEncoded(data: seq<byte>)
    requires DecodeFrame(data).Frame?
    ensures var f := DecodeFrame(data); Fits(f.payload) && data == EncodeFrame(f.payload) + f.rest
  {
    hide Uint32, PutUint32, Value;
    var length, tail := Uint32(data[..4]), data[4..];
    HeaderCanonical(data[..4]);
    assert data == data[..4] + tail;
    if length != 0 {
      assert tail == tail[..length] + tail[length..];
      assert |tail[..length]| % TWO_TO_THE_32 == length;
    }
  }

  /** Which bytes ReadFrame refuses, and with which error: a header it cannot complete, one above 16 MiB, or one
      whose payload is not all there. A header with none of its payload is reported as a plain end. */
  lemma DecodeFailsIff(data: seq<byte>)
    ensures DecodeFrame(data) == Failed(TooLarge) <==> |data| >= 4 && Value(data[..4]) > 16_777_216
    ensures DecodeFrame(data) == Failed(Eof) <==> data == [] || (|data| == 4 && 0 < Value(data[..4]) <= 16_777_216)
    ensures DecodeFrame(data) == Failed(UnexpectedEof)
      <==> 0 < |data| < 4 || (|data| > 4 && |data| - 4 < Value(data[..4]) <= 16_777_216)
    ensures DecodeFrame(data) != Failed(Broken)
  {
    hide Uint32, Value;
    if |data| >= 4 {
      HeaderCanonical(data[..4]);
    }
  }

  // ---------- lists of frames ----------

  ghost predicate AllFit(frames: seq<seq<byte>>) {
    forall i :: 0 <= i < |frames| ==> Fits(frames[i])
  }

  function EncodeAll(frames: seq<seq<byte>>): seq<byte> {
    if frames == [] then [] else EncodeFrame(frames[0]) + EncodeAll(frames[1..])
  }

  datatype FramesResult = Frames(frames: seq<seq<byte>>, rest: seq<byte>) | FramesFailed(error: ReadError)

  /** `count` calls of ReadFrame, stopping at the first error. */
  function DecodeMany(data: seq<byte>, count: nat): (r: FramesResult)
    ensures r.Frames? ==> |r.frames| == count
  {
    if count == 0 then Frames([], data)
    else match DecodeFrame(data)
      case Failed(e) => FramesFailed(e)
      case Frame(payload, rest) =>
        match DecodeMany(rest, count - 1)
        case FramesFailed(e) => FramesFailed(e)
        case Frames(frames, tail) => Frames([payload] + frames, tail)
  }

  lemma {:induction false} FramesRoundTrip(frames: seq<seq<byte>>, rest: seq<byte>)
    requires AllFit(frames)
    ensures DecodeMany(EncodeAll(frames) + rest, |frames|) == Frames(frames, rest)
  {
    hide EncodeFrame, DecodeFrame;
    if frames == [] {
      assert EncodeAll(frames) + rest == rest;
    } else {
      var tail := EncodeAll(frames[1..]) + rest;
      assert EncodeAll(frames) + rest == EncodeFrame(frames[0]) + tail;
      FrameRoundTripIff(frames[0], tail);
      FramesRoundTrip(frames[1..], rest);
    }
  }

  /** A stream that begins with one list of frames and also with a longer one: the first list is a
      prefix of the second. */
  lemma {:induction false} FramesArePrefix(short: seq<seq<byte>>, x: seq<byte>, long: seq<seq<byte>>, y: seq<byte>)
    requires AllFit(short) && AllFit(long) && |short| <= |long|
    requires EncodeAll(short) + x == EncodeAll(long) + y
    ensures short == long[..|short|] && x == EncodeAll(long[|short|..]) + y
  {
    if short != [] {
      var xs := EncodeAll(short[1..]) + x;
      var ys := EncodeAll(long[1..]) + y;
      assert EncodeAll(short) + x == EncodeFrame(short[0]) + xs;
      assert EncodeAll(long) + y == EncodeFrame(long[0]) + ys;
      FrameRoundTripIff(short[0], xs);
      FrameRoundTripIff(long[0], ys);
      FramesArePrefix(short[1..], x, long[1..], y);
      assert long[1..][|short| - 1..] == long[|short|..];
    } else {
      assert EncodeAll(short) + x == x && long[0..] == long;
    }
  }

  lemma EncodingInjective(a: seq<seq<byte>>, b: seq<seq<byte>>)
    requires AllFit(a) && AllFit(b) && EncodeAll(a) == EncodeAll(b)
    ensures a == b
  {
    var (short, long) := if |a| <= |b| then (a, b) else (b, a);
    FramesArePrefix(short, [], long, []) by {
      assert EncodeAll(short) + [] == EncodeAll(long) + [];
    }
    assert EncodeAll(long[|short|..]) == [] by {
      assert [] == EncodeAll(long[|short|..]) + [];
    }
  }

  lemma EncodingPrefixFree(p: seq<byte>, q: seq<byte>)
    requires Fits(p) && Fits(q) && EncodeFrame(p) <= EncodeFrame(q)
    ensures p == q
  {
    var x := EncodeFrame(q)[|EncodeFrame(p)|..];
    assert EncodeFrame(p) + x == EncodeFrame(q) + [];
    FrameRoundTripIff(p, x);
    FrameRoundTripIff(q, []);
  }

  lemma {:induction false} EncodeAllConcat(a: seq<seq<byte>>, b: seq<seq<byte>>)
    ensures EncodeAll(a + b) == EncodeAll(a) + EncodeAll(b)
  {
    if a == [] {
      assert a + b == b;
    } else {
      assert (a + b)[1..] == a[1..] + b;
      EncodeAllConcat(a[1..], b);
    }
  }

  // ---------- the streaming form ----------

  /** How a frame stream ends: at a terminator, leaving `rest` unread, or with an error. */
  datatype Ending = Terminated(rest: seq<byte>) | Ended(error: ReadError)

  datatype Delivery = Delivery(bytes: seq<byte>, end: Ending)

  function Prepend(prefix: seq<byte>, d: Delivery): Delivery {
    d.(bytes := prefix + d.bytes)
  }

  /** What a FrameReader with `remaining` bytes of its frame outstanding will still deliver from
      `data`, before its first error or its terminator. Buffer sizes play no part in it. */
  function Deliver(data: seq<byte>, remaining: nat): Delivery
    decreases |data|
  {
    if remaining > 0 then
      if |data| < remaining then Delivery(data, Ended(Eof))
      else Prepend(data[..remaining], Deliver(data[remaining..], 0))
    else if |data| == 0 then Delivery([], Ended(Eof))
    else if |data| < 4 then Delivery([], Ended(UnexpectedEof))
    else
      var length := Uint32(data[..4]);
      if length == 0 then Delivery([], Terminated(data[4..]))
      else if length > FRAME_SIZE_LIMIT then Delivery([], Ended(TooLarge))
      else Deliver(data[4..], length)
  }

  /** Reading `n` bytes of the current frame, any `n`, only moves them out of what is still due. */
  lemma DeliverSplit(data: seq<byte>, remaining: nat, n: nat)
    requires n <= |data| && n <= remaining
    ensures Deliver(data, remaining) == Prepend(data[..n], Deliver(data[n..], remaining - n))
  {
    if n == 0 {
      assert data[0..] == data;
    } else if |data| < remaining {
      assert data[..n] + data[n..] == data;
    } else if n == remaining {
    } else {
      assert data[n..][..remaining - n] == data[n..remaining];
      assert data[..n] + data[n..remaining] == data[..remaining];
      assert data[n..][remaining - n..] == data[remaining..];
      var later := Deliver(data[remaining..], 0);
      assert data[..n] + (data[n..remaining] + later.bytes) == data[..remaining] + later.bytes;
    }
  }

  function Flatten(frames: seq<seq<byte>>): seq<byte> {
    if frames == [] then [] else frames[0] + Flatten(frames[1..])
  }

  /** Repeated ReadFrame until an empty frame or an error. */
  datatype FrameRun = FrameRun(frames: seq<seq<byte>>, stop: Ending, unread: seq<byte>)

  function ReadRun(data: seq<byte>): FrameRun
    decreases |data|
  {
    match DecodeFrame(data)
    case Failed(e) => FrameRun([], Ended(e), data)
    case Frame(payload, rest) =>
      if payload == [] then FrameRun([], Terminated(rest), rest)
      else var later := ReadRun(rest); FrameRun([payload] + later.frames, later.stop, later.unread)
  }

  lemma DeliverFrame(data: seq<byte>)
    requires DecodeFrame(data).Frame?
    ensures var f := DecodeFrame(data);
      Deliver(data, 0) ==
        if f.payload == [] then Delivery([], Terminated(f.rest)) else Prepend(f.payload, Deliver(f.rest, 0))
  {
  }

  /** The bytes present of a last frame that the stream cuts off. */
  function CutOff(run: FrameRun): seq<byte> {
    if run.stop.Ended? && run.stop.error != TooLarge && |run.unread| >= 4 then run.unread[4..] else []
  }

  /** On every byte stream, the streaming form delivers what repeated ReadFrame returns, plus the
      bytes present of one cut-off last frame; both agree on whether a terminator was reached. */
  lemma {:induction false} DeliverExtendsReadRun(data: seq<byte>)
    ensures Deliver(data, 0).bytes == Flatten(ReadRun(data).frames) + CutOff(ReadRun(data))
    ensures ReadRun(data).stop.Terminated? || Deliver(data, 0).end.Terminated? ==>
      Deliver(data, 0).end == ReadRun(data).stop
    ensures ReadRun(data).stop == Ended(TooLarge) <==> Deliver(data, 0).end == Ended(TooLarge)
    decreases |data|
  {
    match DecodeFrame(data)
    case Failed(e) =>
    case Frame(payload, rest) =>
      DeliverFrame(data);
      if payload != [] {
        DeliverExtendsReadRun(rest);
        var run := ReadRun(rest);
        assert Flatten([payload] + run.frames) == payload + Flatten(run.frames);
      }
  }

  /** What FrameWriter.Write puts on the wire: nothing at all for an empty slice. */
  function EncodeChunk(chunk: seq<byte>): seq<byte> {
    if chunk == [] then [] else EncodeFrame(chunk)
  }

  function EncodeChunks(chunks: seq<seq<byte>>): seq<byte> {
    if chunks == [] then [] else EncodeChunk(chunks[0]) + EncodeChunks(chunks[1..])
  }

  /** Every chunking of a byte string on the writing side, closed by Close, is delivered as that byte
      string, and nothing after the terminator is consumed. */
  lemma {:induction false} StreamRoundTrip(chunks: seq<seq<byte>>, suffix: seq<byte>)
    requires AllFit(chunks)
    ensures Deliver(EncodeChunks(chunks) + EncodeFrame([]) + suffix, 0) == Delivery(Flatten(chunks), Terminated(suffix))
  {
    hide EncodeFrame, DecodeFrame, Deliver;
    var data := EncodeChunks(chunks) + EncodeFrame([]) + suffix;
    if chunks == [] {
      assert data == EncodeFrame([]) + suffix;
      FrameRoundTripIff([], suffix);
      DeliverFrame(data);
    } else {
      StreamRoundTrip(chunks[1..], suffix);
      var later := EncodeChunks(chunks[1..]) + EncodeFrame([]) + suffix;
      assert data == EncodeChunk(chunks[0]) + later;
      if chunks[0] == [] {
        assert data == later;
      } else {
        FrameRoundTripIff(chunks[0], later);
        DeliverFrame(data);
      }
    }
  }

  ghost predicate IsClosedStream(data: seq<byte>, frames: seq<seq<byte>>, suffix: seq<byte>) {
    && AllFit(frames)
    && (forall i :: 0 <= i < |frames| ==> frames[i] != [])
    && data == EncodeAll(frames) + EncodeFrame([]) + suffix
  }

  lemma ClosedStreamCons(payload: seq<byte>, rest: seq<byte>, frames: seq<seq<byte>>, suffix: seq<byte>)
    requires Fits(payload) && payload != [] && IsClosedStream(rest, frames, suffix)
    ensures IsClosedStream(EncodeFrame(payload) + rest, [payload] + frames, suffix)
  {
    var x, y, z := EncodeFrame(payload), EncodeAll(frames), EncodeFrame([]);
    assert ([payload] + frames)[1..] == frames;
    assert EncodeAll([payload] + frames) == x + y;
    assert x + (y + z + suffix) == x + y + z + suffix;
  }

  lemma {:induction false} ReadRunReencodes(data: seq<byte>)
    requires ReadRun(data).stop.Terminated?
    ensures var run := ReadRun(data); IsClosedStream(data, run.frames, run.stop.rest)
    decreases |data|
  {
    var f := DecodeFrame(data);
    DecodedIsEncoded(data);
    if f.payload != [] {
      ReadRunReencodes(f.rest);
      ClosedStreamCons(f.payload, f.rest, ReadRun(f.rest).frames, ReadRun(f.rest).stop.rest);
    } else {
      assert EncodeAll([]) + EncodeFrame([]) == EncodeFrame([]);
    }
  }

  lemma {:induction false} ChunksAreFrames(frames: seq<seq<byte>>)
    requires forall i :: 0 <= i < |frames| ==> frames[i] != []
    ensures EncodeChunks(frames) == EncodeAll(frames)
  {
    if frames != [] {
      ChunksAreFrames(frames[1..]);
    }
  }

  /** A FrameReader can finish on `data` with `suffix` unread exactly when `data` is a well-formed
      closed stream followed by `suffix`: `done` never comes from a damaged stream. */
  lemma TerminatedIff(data: seq<byte>, suffix: seq<byte>)
    ensures Deliver(data, 0).end == Terminated(suffix) <==> exists frames :: IsClosedStream(data, frames, suffix)
  {
    DeliverExtendsReadRun(data);
    if Deliver(data, 0).end == Terminated(suffix) {
      ReadRunReencodes(data);
      assert IsClosedStream(data, ReadRun(data).frames, suffix);
    }
    forall frames | IsClosedStream(data, frames, suffix)
      ensures Deliver(data, 0).end == Terminated(suffix)
    {
      ChunksAreFrames(frames);
      StreamRoundTrip(frames, suffix);
    }
  }

  // ---------- a plain end of file ----------

  /** The header of a frame, and not all of the frame's payload. */
  predicate IsCutFrame(tail: seq<byte>) {
    |tail| >= 4 && 0 < Uint32(tail[..4]) <= FRAME_SIZE_LIMIT && |tail| - 4 < Uint32(tail[..4])
  }

  lemma DeliverTail(tail: seq<byte>)
    requires tail == [] || IsCutFrame(tail)
    ensures Deliver(tail, 0) == Delivery(if tail == [] then [] else tail[4..], Ended(Eof))
  {
  }

  /** A stream cut off inside a frame ends like a stream that carries nothing more. */
  lemma CutFrameEndsPlainly(payload: seq<byte>, n: nat)
    requires Fits(payload) && n < |payload|
    ensures Deliver(EncodeFrame(payload)[..4 + n], 0) == Delivery(payload[..n], Ended(Eof))
  {
    hide Uint32, PutUint32, Deliver;
    var data := EncodeFrame(payload)[..4 + n];
    HeaderRoundTrip(|payload|);
    assert data[..4] == PutUint32(|payload|) && data[4..] == payload[..n];
    DeliverTail(data);
  }

  ghost predicate EndsPlainly(data: seq<byte>, frames: seq<seq<byte>>, tail: seq<byte>) {
    && AllFit(frames) && (forall i :: 0 <= i < |frames| ==> frames[i] != [])
    && data == EncodeAll(frames) + tail
    && (tail == [] || IsCutFrame(tail))
  }

  lemma EndsPlainlyCons(payload: seq<byte>, rest: seq<byte>, frames: seq<seq<byte>>, tail: seq<byte>)
    requires Fits(payload) && payload != [] && EndsPlainly(rest, frames, tail)
    ensures EndsPlainly(EncodeFrame(payload) + rest, [payload] + frames, tail)
  {
    var x, y := EncodeFrame(payload), EncodeAll(frames);
    assert ([payload] + frames)[1..] == frames;
    assert x + (y + tail) == x + y + tail;
  }

  lemma {:induction false} EofOnlyThere(data: seq<byte>) returns (frames: seq<seq<byte>>, tail: seq<byte>)
    requires Deliver(data, 0).end == Ended(Eof)
    ensures EndsPlainly(data, frames, tail)
    decreases |data|
  {
    frames, tail := [], data;
    if DecodeFrame(data).Frame? {
      var f := DecodeFrame(data);
      DeliverFrame(data);
      DecodedIsEncoded(data);
      frames, tail := EofOnlyThere(f.rest);
      EndsPlainlyCons(f.payload, f.rest, frames, tail);
      frames := [f.payload] + frames;
    } else {
      assert EncodeAll([]) + data == data;
    }
  }

  lemma {:induction false} EofThere(data: seq<byte>, frames: seq<seq<byte>>, tail: seq<byte>)
    requires EndsPlainly(data, frames, tail)
    ensures Deliver(data, 0) == Delivery(Flatten(frames) + (if tail == [] then [] else tail[4..]), Ended(Eof))
    decreases |frames|
  {
    hide EncodeFrame, DecodeFrame, Uint32, Deliver, IsCutFrame;
    if frames == [] {
      assert data == tail;
      DeliverTail(tail);
    } else {
      var rest := EncodeAll(frames[1..]) + tail;
      assert data == EncodeFrame(frames[0]) + rest;
      EofThere(rest, frames[1..], tail);
      FrameRoundTripIff(frames[0], rest);
      DeliverFrame(data);
    }
  }

  /** What the caller of a FrameReader gets for an ending: the terminator too is an end of file. */
  function Reported(end: Ending): ReadError {
    match end
    case Terminated(_) => Eof
    case Ended(error) => error
  }

  /** A closed stream, or one that stops right after a frame or inside a frame's payload. */
  ghost predicate StopsPlainly(data: seq<byte>) {
    || (exists frames, suffix :: IsClosedStream(data, frames, suffix))
    || (exists frames, tail :: EndsPlainly(data, frames, tail))
  }

  /** The caller sees a plain end of file exactly on these streams: nothing tells them apart. */
  lemma EofIff(data: seq<byte>)
    ensures Reported(Deliver(data, 0).end) == Eof <==> StopsPlainly(data)
  {
    var end := Deliver(data, 0).end;
    hide Deliver, IsClosedStream, EndsPlainly;
    if end == Ended(Eof) {
      var frames, tail := EofOnlyThere(data);
      assert EndsPlainly(data, frames, tail);
    }
    forall frames, tail | EndsPlainly(data, frames, tail) ensures end == Ended(Eof) {
      EofThere(data, frames, tail);
    }
    if end.Terminated? {
      TerminatedIff(data, end.rest);
    }
    forall frames, suffix | IsClosedStream(data, frames, suffix) ensures end == Terminated(suffix) {
      TerminatedIff(data, suffix);
    }
  }
}
