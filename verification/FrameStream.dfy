/** Frames over a byte stream that may answer any read with fewer bytes than asked for, report its end
    early or late, or break. The methods are the code's loops; the functions of Framing say what they mean. */
module FrameStream {
  import opened Wrappers
  import opened Framing

  /** How the stream below answers one Read: with at most `limit` bytes, and then possibly an
      end-of-stream report together with the last bytes, or a transport failure. */
  datatype Turn = Short(limit: nat, eager: bool) | Fail(limit: nat)

  function Min(a: nat, b: nat): nat {
    if a < b then a else b
  }

  class ByteSource {
    var data: seq<byte>   // everything still to come
    var turns: seq<Turn>  // the stream's next answers; after them it answers in full

    constructor (data: seq<byte>, turns: seq<Turn>)
      ensures this.data == data && this.turns == turns
    {
      this.data, this.turns := data, turns;
    }

    ghost predicate Reliable()
      reads this
    {
      forall i :: 0 <= i < |turns| ==> turns[i].Short?
    }

    ghost function Left(): nat
      reads this
    {
      |data| + |turns|
    }

    method Read(p: array<byte>, lo: nat, hi: nat) returns (n: nat, err: Option<ReadError>)
      requires lo <= hi <= p.Length
      modifies this, p
      ensures n <= hi - lo && n <= |old(data)| && data == old(data)[n..]
      ensures p[..] == old(p[..lo]) + old(data)[..n] + old(p[lo + n..])
      ensures err == None || err == Some(Broken) || (err == Some(Eof) && data == [])
      ensures old(Reliable()) ==> Reliable() && err != Some(Broken)
      ensures |turns| <= |old(turns)|
      ensures lo < hi && err == None ==> Left() < old(Left())
    {
      n := Min(hi - lo, |data|);
      err := None;
      if turns == [] {
        if data == [] {
          err := Some(Eof);
        }
      } else {
        n := Min(n, turns[0].limit);
        if turns[0].Fail? {
          err := Some(Broken);
        } else if turns[0].eager && n == |data| {
          err := Some(Eof);
        }
        turns := turns[1..];
      }
      forall i | 0 <= i < n {
        p[lo + i] := data[i];
      }
      data := data[n..];
    }
  }

  /** io.ReadFull */
  method ReadFull(src: ByteSource, buf: array<byte>) returns (n: nat, err: Option<ReadError>)
    requires buf.Length > 0
    modifies src, buf
    ensures n <= buf.Length && n <= |old(src.data)| && src.data == old(src.data)[n..]
    ensures buf[..n] == old(src.data)[..n]
    ensures err == None <==> n == buf.Length
    ensures err == Some(Eof) ==> n == 0 && src.data == []
    ensures err == Some(UnexpectedEof) ==> n > 0 && src.data == []
    ensures err != Some(TooLarge)
    ensures old(src.Reliable()) ==> src.Reliable() && err != Some(Broken)
    ensures src.Left() <= old(src.Left()) && (err == None ==> src.Left() < old(src.Left()))
  {
    n, err := 0, None;
    while n < buf.Length && err == None
      invariant n <= buf.Length && n <= |old(src.data)| && src.data == old(src.data)[n..]
      invariant buf[..n] == old(src.data)[..n]
      invariant err == None || err == Some(Broken) || (err == Some(Eof) && src.data == [])
      invariant old(src.Reliable()) ==> src.Reliable() && err != Some(Broken)
      invariant |src.turns| <= |old(src.turns)|
      decreases buf.Length > n && err == None, src.Left()
    {
      var k;
      k, err := src.Read(buf, n, buf.Length);
      n := n + k;
    }
    if n == buf.Length {
      err := None;
    } else if n > 0 && err == Some(Eof) {
      err := Some(UnexpectedEof);
    }
  }

  method ReadFrame(src: ByteSource) returns (result: FrameResult)
    modifies src
    ensures result == Failed(Broken) || result == DecodeFrame(old(src.data))
    ensures result.Frame? ==> src.data == result.rest
    ensures old(src.Reliable()) ==> src.Reliable() && result == DecodeFrame(old(src.data))
  {
    var header := new byte[4];
    var n, err := ReadFull(src, header);
    if err != None {
      assert err.value.Broken? || |old(src.data)[n..]| == 0;
      return Failed(err.value);
    }
    assert header[..] == header[..4] == old(src.data)[..4];
    var length := Uint32(header[..]);
    if length == 0 {
      return Frame([], src.data);
    }
    if length > FRAME_SIZE_LIMIT {
      return Failed(TooLarge);
    }
    var payload := new byte[length];
    ghost var tail := src.data;
    n, err := ReadFull(src, payload);
    if err != None {
      assert err.value.Broken? || |tail[n..]| == 0;
      return Failed(err.value);
    }
    assert payload[..] == payload[..length];
    return Frame(payload[..], src.data);
  }

  class FrameReader {
    const r: ByteSource
    var remaining: nat
    var done: bool

    constructor (r: ByteSource)
      ensures this.r == r && remaining == 0 && !done
    {
      this.r, remaining, done := r, 0, false;
    }

    /** What this reader has still to deliver. */
    ghost function Due(): Delivery
      reads this, r
    {
      if done then Delivery([], Terminated(r.data)) else Deliver(r.data, remaining)
    }

    /** Each call moves the bytes it returns out of Due(), whatever the buffer size and the short reads
        below, and its first error is the end that Due() announced. */
    method Read(p: array<byte>) returns (n: nat, err: Option<ReadError>)
      modifies this, r, p
      ensures n <= p.Length && p[n..] == old(p[n..])
      ensures old(done) ==> n == 0 && err == Some(Eof) && r.data == old(r.data)
      ensures err == None ==> !done && old(Due()) == Prepend(p[..n], Due())
      ensures err.Some? && err.value != Broken ==>
        old(Due()) == Delivery(p[..n], if done then Terminated(r.data) else Ended(err.value))
      ensures done ==> err == Some(Eof)
      ensures err == Some(Broken) ==> p[..n] <= old(Due()).bytes
      ensures old(r.Reliable()) ==> r.Reliable() && err != Some(Broken)
      ensures p.Length > 0 && err == None ==> r.Left() < old(r.Left())
    {
      hide Uint32;
      if done {
        return 0, Some(Eof);
      }
      if remaining == 0 {
        var header := new byte[4];
        n, err := ReadFull(r, header);
        if err != None {
          return 0, err;
        }
        assert header[..] == header[..4] == old(r.data)[..4];
        var length := Uint32(header[..]);
        if length == 0 {
          done := true;
          return 0, Some(Eof);
        }
        if length > FRAME_SIZE_LIMIT {
          return 0, Some(TooLarge);
        }
        remaining := length;
      }
      assert old(Due()) == Deliver(r.data, remaining);
      hide Deliver;
      if p.Length == 0 {
        assert p[..0] + Due().bytes == Due().bytes;
        return 0, None;
      }
      var toRead := Min(remaining, p.Length);
      ghost var data, due := r.data, remaining;
      n, err := r.Read(p, 0, toRead);
      DeliverSplit(data, due, n);
      remaining := remaining - n;
      assert p[..n] == data[..n];
    }
  }

  lemma PrependTwice(a: seq<byte>, b: seq<byte>, d: Delivery)
    ensures Prepend(a, Prepend(b, d)) == Prepend(a + b, d)
  {
    assert a + (b + d.bytes) == a + b + d.bytes;
  }

  lemma PrefixPrepended(a: seq<byte>, b: seq<byte>, d: Delivery)
    ensures b <= d.bytes ==> a + b <= Prepend(a, d).bytes
  {
  }

  /** The read side of io.Copy over a FrameReader: any sequence of non-empty buffers, until the first error. */
  method Drain(fr: FrameReader, size: nat -> nat) returns (out: seq<byte>, err: ReadError)
    requires forall i :: size(i) > 0
    modifies fr, fr.r
    ensures err != Broken ==> old(fr.Due()) == Delivery(out, if fr.done then Terminated(fr.r.data) else Ended(err))
    ensures err == Broken ==> out <= old(fr.Due()).bytes
    ensures old(fr.r.Reliable()) ==> err != Broken
    ensures err != Broken && old(fr.remaining == 0 && !fr.done) ==> (err == Eof <==> StopsPlainly(old(fr.r.data)))
  {
    EofIff(fr.r.data);
    hide StopsPlainly, Deliver;
    out, err := [], Broken;
    var more, i := true, 0;
    while more
      invariant more ==> old(fr.Due()) == Prepend(out, fr.Due())
      invariant !more && err != Broken ==>
        old(fr.Due()) == Delivery(out, if fr.done then Terminated(fr.r.data) else Ended(err))
      invariant !more && err == Broken ==> out <= old(fr.Due()).bytes
      invariant !more && fr.done ==> err == Eof
      invariant old(fr.r.Reliable()) ==> fr.r.Reliable() && (!more ==> err != Broken)
      decreases more, fr.r.Left()
    {
      var p := new byte[size(i)];
      i := i + 1;
      ghost var before := fr.Due();
      var n, e := fr.Read(p);
      ghost var sofar := out;
      out := out + p[..n];
      PrependTwice(sofar, p[..n], fr.Due());
      PrefixPrepended(sofar, p[..n], before);
      if e.Some? {
        more, err := false, e.value;
      }
    }
  }

  class ByteSink {
    var written: seq<byte>
    var budget: Option<nat>  // bytes until the transport fails, if it ever does

    constructor (budget: Option<nat>)
      ensures written == [] && this.budget == budget
    {
      written, this.budget := [], budget;
    }

    method Write(p: seq<byte>) returns (ok: bool)
      modifies this
      ensures ok ==> written == old(written) + p
      ensures !ok ==> old(written) <= written < old(written) + p
      ensures old(budget) == None ==> ok && budget == None
    {
      if budget == None || |p| <= budget.value {
        written, ok := written + p, true;
        budget := if budget == None then None else Some(budget.value - |p|);
      } else {
        written, budget, ok := written + p[..budget.value], Some(0), false;
      }
    }
  }

  /** A failed WriteFrame leaves a proper prefix of the frame on the wire. */
  method WriteFrame(w: ByteSink, payload: seq<byte>) returns (ok: bool)
    modifies w
    ensures ok ==> w.written == old(w.written) + EncodeFrame(payload)
    ensures !ok ==> old(w.written) <= w.written < old(w.written) + EncodeFrame(payload)
    ensures old(w.budget) == None ==> ok && w.budget == None
  {
    var length := |payload| % TWO_TO_THE_32;
    ok := w.Write(PutUint32(length));
    if !ok {
      return;
    }
    if length == 0 {
      assert EncodeFrame(payload) == PutUint32(length);
      return;
    }
    ok := w.Write(payload);
    assert old(w.written) + PutUint32(length) + payload == old(w.written) + EncodeFrame(payload);
  }

  class FrameWriter {
    const w: ByteSink

    constructor (w: ByteSink)
      ensures this.w == w
    {
      this.w := w;
    }

    method Write(p: seq<byte>) returns (n: nat, ok: bool)
      modifies w
      ensures ok ==> n == |p| && w.written == old(w.written) + EncodeChunk(p)
      ensures !ok ==> n == 0 && old(w.written) <= w.written < old(w.written) + EncodeChunk(p)
      ensures old(w.budget) == None ==> ok && w.budget == None
    {
      if p == [] {
        return 0, true;
      }
      ok := WriteFrame(w, p);
      n := if ok then |p| else 0;
    }

    method Close() returns (ok: bool)
      modifies w
      ensures ok ==> w.written == old(w.written) + EncodeFrame([])
      ensures !ok ==> old(w.written) <= w.written < old(w.written) + EncodeFrame([])
      ensures old(w.budget) == None ==> ok && w.budget == None
    {
      ok := WriteFrame(w, []);
    }
  }

  lemma {:induction false} EncodeChunksSnoc(chunks: seq<seq<byte>>, c: seq<byte>)
    ensures EncodeChunks(chunks + [c]) == EncodeChunks(chunks) + EncodeChunk(c)
  {
    if chunks == [] {
      assert ([c])[1..] == [];
    } else {
      assert (chunks + [c])[1..] == chunks[1..] + [c];
      EncodeChunksSnoc(chunks[1..], c);
    }
  }

  /** Both ends together: any chunking, any buffer sizes, any short reads, any bytes behind the terminator. */
  method CopyAcross(chunks: seq<seq<byte>>, suffix: seq<byte>, turns: seq<Turn>, size: nat -> nat)
      returns (out: seq<byte>, unread: seq<byte>)
    requires AllFit(chunks)
    requires forall i :: 0 <= i < |turns| ==> turns[i].Short?
    requires forall i :: size(i) > 0
    ensures out == Flatten(chunks) && unread == suffix
  {
    var sink := new ByteSink(None);
    var fw := new FrameWriter(sink);
    for i := 0 to |chunks|
      invariant sink.budget == None && sink.written == EncodeChunks(chunks[..i])
    {
      var n, ok := fw.Write(chunks[i]);
      EncodeChunksSnoc(chunks[..i], chunks[i]);
      assert chunks[..i + 1] == chunks[..i] + [chunks[i]];
    }
    assert chunks[..|chunks|] == chunks;
    var ok := fw.Close();
    var src := new ByteSource(sink.written + suffix, turns);
    var fr := new FrameReader(src);
    StreamRoundTrip(chunks, suffix);
    var err;
    out, err := Drain(fr, size);
    unread := src.data;
  }
}
