/**
  Length-prefixed framing, `MessageRead::read_json_msg` and
  `MessageWrite::write_json_msg` of src/comms.rs. A frame is the payload
  length N as the 8 bytes of a `usize` in the host's byte order, then the N
  payload bytes.
 */
module Frame {
  import opened Wrappers
  import opened Bytes
  import opened Protocol

  /** The three ways `read_json_msg` fails. */
  datatype FrameError =
    | ShortLength    // "Unable to read msg length": fewer than 8 bytes before end of stream
    | ShortPayload   // "Unable to read message": fewer than N payload bytes before end of stream
    | Undecodable    // "Unable to deserialize": the N bytes are not a message

  /** What one read returns, and how many bytes of the stream it used up. */
  datatype ReadOutcome = ReadOutcome(result: Result<Message, FrameError>, consumed: nat)

  /** The bytes `write_json_msg` puts on the stream for a payload. */
  function FrameOf(order: ByteOrder, payload: seq<Byte>): (r: seq<Byte>)
    requires |payload| < UsizeBound
    ensures |r| == UsizeBytes + |payload|
    ensures r[..UsizeBytes] == UsizeToBytes(order, |payload|) && r[UsizeBytes..] == payload
  {
    UsizeToBytes(order, |payload|) + payload
  }

  /**
    One `read_json_msg` over the bytes still unread. `read_exact` that hits the
    end of the stream has taken everything that was there, so a short read
    uses up the rest of the stream.
   */
  function ReadFrame(order: ByteOrder, avail: seq<Byte>): (r: ReadOutcome)
    ensures r.consumed <= |avail|
    ensures r.result == Failure(ShortLength) <==> |avail| < UsizeBytes
    ensures r.result == Failure(ShortPayload) <==>
              |avail| >= UsizeBytes && UsizeFromBytes(order, avail[..UsizeBytes]) > |avail| - UsizeBytes
    ensures r.result.Success? ==>
              r.consumed == UsizeBytes + UsizeFromBytes(order, avail[..UsizeBytes]) &&
              Decode(avail[UsizeBytes..r.consumed]) == Some(r.result.value)
    ensures r.result.Failure? && r.result.error != Undecodable ==> r.consumed == |avail|
  {
    if |avail| < UsizeBytes then ReadOutcome(Failure(ShortLength), |avail|)
    else
      var size := UsizeFromBytes(order, avail[..UsizeBytes]);
      if |avail| - UsizeBytes < size then ReadOutcome(Failure(ShortPayload), |avail|)
      else
        var payload := avail[UsizeBytes..UsizeBytes + size];
        match Decode(payload)
        case None => ReadOutcome(Failure(Undecodable), UsizeBytes + size)
        case Some(m) => ReadOutcome(Success(m), UsizeBytes + size)
  }

  /**
    Reading a frame written for m gives m back, uses up exactly the 8 + N
    bytes of the frame, and leaves what follows for the next read.
   */
  lemma FrameRoundTrip(order: ByteOrder, m: Message, rest: seq<Byte>)
    requires |Encode(m)| < UsizeBound
    ensures var f := FrameOf(order, Encode(m));
            ReadFrame(order, f + rest) == ReadOutcome(Success(m), |f|)
  {
    var p := Encode(m);
    var b := FrameOf(order, p) + rest;
    assert b[..UsizeBytes] == UsizeToBytes(order, |p|);
    UsizeRoundTrip(order, |p|);
    assert b[UsizeBytes..UsizeBytes + |p|] == p;
    DecodeEncode(m);
  }

  /** A successful read took exactly one whole frame off the front of the stream. */
  lemma ReadFrameIsWhole(order: ByteOrder, avail: seq<Byte>)
    requires ReadFrame(order, avail).result.Success?
    ensures var r := ReadFrame(order, avail);
            |Encode(r.result.value)| < UsizeBound &&
            avail[..r.consumed] == FrameOf(order, Encode(r.result.value))
  {
    var r := ReadFrame(order, avail);
    var p := avail[UsizeBytes..r.consumed];
    EncodeDecode(p);
    UsizeBytesRoundTrip(order, avail[..UsizeBytes]);
    assert avail[..r.consumed] == avail[..UsizeBytes] + p;
  }

  /** Whether every message of ms fits in a frame. */
  predicate Framable(ms: seq<Message>)
  {
    forall i :: 0 <= i < |ms| ==> |Encode(ms[i])| < UsizeBound
  }

  /** The bytes of the frames of ms, one after another. */
  function FramesOf(order: ByteOrder, ms: seq<Message>): seq<Byte>
    requires Framable(ms)
  {
    if ms == [] then [] else FrameOf(order, Encode(ms[0])) + FramesOf(order, ms[1..])
  }

  /** The messages read from a stream until the first failed read, and that failure. */
  function ReadAll(order: ByteOrder, avail: seq<Byte>): (r: (seq<Message>, FrameError))
    decreases |avail|
  {
    var first := ReadFrame(order, avail);
    match first.result
    case Failure(e) => ([], e)
    case Success(m) =>
      var (ms, e) := ReadAll(order, avail[first.consumed..]);
      ([m] + ms, e)
  }

  /**
    A peer that writes the frames of ms and closes the connection is read as
    exactly ms, in order, after which the next read fails for want of a
    length prefix.
   */
  lemma {:induction false} ReadAllFrames(order: ByteOrder, ms: seq<Message>)
    requires Framable(ms)
    ensures ReadAll(order, FramesOf(order, ms)) == (ms, ShortLength)
  {
    if ms != [] {
      var f := FrameOf(order, Encode(ms[0]));
      var rest := FramesOf(order, ms[1..]);
      FrameRoundTrip(order, ms[0], rest);
      assert (f + rest)[|f|..] == rest;
      ReadAllFrames(order, ms[1..]);
      assert [ms[0]] + ms[1..] == ms;
    }
  }

  /**
    One direction of a `UnixStream`: `incoming` is everything the peer has
    written, `cursor` how much of it has been read; `outgoing` is everything
    written to the peer.
   */
  class Stream {
    const order: ByteOrder
    var incoming: seq<Byte>
    var cursor: nat
    var outgoing: seq<Byte>

    ghost predicate Valid()
      reads this
    {
      cursor <= |incoming|
    }

    function Unread(): (r: seq<Byte>)
      reads this
      requires Valid()
    {
      incoming[cursor..]
    }

    constructor (order: ByteOrder, incoming: seq<Byte>)
      ensures Valid()
      ensures this.order == order && this.incoming == incoming && cursor == 0 && outgoing == []
    {
      this.order := order;
      this.incoming := incoming;
      cursor := 0;
      outgoing := [];
    }

    /** `read_exact`: fills buf from the stream, or fails at the end of the stream. */
    method ReadExact(buf: array<Byte>) returns (ok: bool)
      requires Valid()
      modifies this`cursor, buf
      ensures Valid()
      ensures ok <==> buf.Length <= |old(Unread())|
      ensures ok ==> buf[..] == old(Unread())[..buf.Length] && cursor == old(cursor) + buf.Length
      ensures !ok ==> cursor == |incoming|
    {
      var i := 0;
      while i < buf.Length
        invariant 0 <= i <= buf.Length
        invariant cursor == old(cursor) + i <= |incoming|
        invariant buf[..i] == incoming[old(cursor)..cursor]
      {
        if cursor == |incoming| {
          return false;
        }
        buf[i] := incoming[cursor];
        cursor := cursor + 1;
        i := i + 1;
      }
      ok := true;
      assert buf[..] == buf[..i];
    }

    /** `read_json_msg::<Message>`. */
    method ReadMessage() returns (r: Result<Message, FrameError>)
      requires Valid()
      modifies this`cursor
      ensures Valid()
      ensures var expected := ReadFrame(order, old(Unread()));
              r == expected.result && cursor == old(cursor) + expected.consumed
    {
      ghost var avail := Unread();
      var lbuf := new Byte[UsizeBytes];
      var ok := ReadExact(lbuf);
      if !ok {
        return Failure(ShortLength);
      }
      assert lbuf[..] == avail[..UsizeBytes];
      var size := UsizeFromBytes(order, lbuf[..]);
      var buf := new Byte[size];
      ok := ReadExact(buf);
      if !ok {
        return Failure(ShortPayload);
      }
      assert buf[..] == avail[UsizeBytes..UsizeBytes + size];
      var m := Decode(buf[..]);
      if m.None? {
        return Failure(Undecodable);
      }
      r := Success(m.value);
    }

    /**
      `write_json_msg`: the length prefix, then the payload; returns the
      payload length, not counting the prefix.
     */
    method WriteMessage(m: Message) returns (size: nat)
      requires |Encode(m)| < UsizeBound
      modifies this`outgoing
      ensures outgoing == old(outgoing) + FrameOf(order, Encode(m))
      ensures size == |Encode(m)|
    {
      var payload := Encode(m);
      size := |payload|;
      outgoing := outgoing + UsizeToBytes(order, size);
      outgoing := outgoing + payload;
    }
  }
}
