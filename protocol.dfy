/**
  The wire messages of src/comms.rs and the encoding of one message as a frame
  payload. The program serialises payloads with serde_json; this model uses a
  self-describing byte encoding of its own with the same guarantees the frame
  layer relies on: every message encodes, decoding is total and says None for
  anything that is not exactly one encoded message, and the two are inverse.
 */
module Protocol {
  import opened Wrappers
  import opened Bytes

  /** `log::Level`. */
  datatype Level = Error | Warn | Info | Debug | Trace

  /** `comms::Message`: a closed set of eight variants. */
  datatype Message =
    | Greeting(id: Usize)
    | Log(thrId: Usize, level: Level, target: string, msg: string)
    | BatchRequest
    | Batch(links: seq<string>)
    | JSON(payload: string)
    | DownloadStart
    | DownloadEnd
    | EndRequest

  // ---------------------------------------------------------------------
  // Encoding. A string is its characters, three bytes per code point, ended
  // by the byte 0xFF (a code point is at most 0x10FFFF, so its first byte is
  // at most 0x10 and never 0xFF). A list of strings is each element after a
  // 0x01 marker, ended by 0x00. A message is a tag byte, then its fields.
  // ---------------------------------------------------------------------

  const StringEnd: Byte := 0xFF
  const ListMore: Byte := 0x01
  const ListEnd: Byte := 0x00

  function CharToBytes(c: char): (r: seq<Byte>)
    ensures |r| == 3 && r[0] <= 0x10
  {
    var n := c as int;
    [n / 0x1_0000, (n / 0x100) % 0x100, n % 0x100]
  }

  predicate IsScalarValue(n: int)
  {
    0 <= n < 0xD800 || 0xE000 <= n < 0x11_0000
  }

  function CharFromBytes(b0: Byte, b1: Byte, b2: Byte): (r: Option<char>)
    ensures r.Some? ==> CharToBytes(r.value) == [b0, b1, b2]
  {
    var n := b0 * 0x1_0000 + b1 * 0x100 + b2;
    if IsScalarValue(n) then Some(n as char) else None
  }

  lemma CharRoundTrip(c: char)
    ensures var b := CharToBytes(c); CharFromBytes(b[0], b[1], b[2]) == Some(c)
  {
    var n := c as int;
    var q := n / 0x100;
    assert n == q * 0x100 + n % 0x100;
    assert q == (q / 0x100) * 0x100 + q % 0x100;
    assert q / 0x100 == n / 0x1_0000;
  }

  function EncodeString(s: string): (r: seq<Byte>)
    ensures |r| == 3 * |s| + 1
  {
    if s == [] then [StringEnd] else CharToBytes(s[0]) + EncodeString(s[1..])
  }

  /** Parses one string off the front of b, giving what follows it. */
  function ParseString(b: seq<Byte>): (r: Option<(string, seq<Byte>)>)
    ensures r.Some? ==> |r.value.1| < |b|
    decreases |b|
  {
    if |b| == 0 then None
    else if b[0] == StringEnd then Some(([], b[1..]))
    else if |b| < 3 then None
    else match CharFromBytes(b[0], b[1], b[2])
      case None => None
      case Some(c) =>
        match ParseString(b[3..])
        case None => None
        case Some((s, rest)) => Some(([c] + s, rest))
  }

  lemma {:induction false} ParseEncodedString(s: string, rest: seq<Byte>)
    ensures ParseString(EncodeString(s) + rest) == Some((s, rest))
  {
    if s != [] {
      var b := EncodeString(s) + rest;
      var tail := EncodeString(s[1..]) + rest;
      assert b == CharToBytes(s[0]) + tail;
      ParseCharThen(CharToBytes(s[0]), tail, s[0]);
      ParseEncodedString(s[1..], rest);
      assert [s[0]] + s[1..] == s;
    } else {
      assert (EncodeString(s) + rest)[1..] == rest;
    }
  }

  /** A string that starts with the encoding of c parses as c followed by what the rest parses as. */
  lemma ParseCharThen(head: seq<Byte>, tail: seq<Byte>, c: char)
    requires head == CharToBytes(c)
    ensures ParseString(head + tail) ==
            match ParseString(tail)
            case None => None
            case Some((s, rest)) => Some(([c] + s, rest))
  {
    var b := head + tail;
    CharRoundTrip(c);
    assert b[0] == head[0] && b[1] == head[1] && b[2] == head[2];
    assert b[3..] == tail;
  }

  lemma {:induction false} ParsedStringIsEncoded(b: seq<Byte>)
    requires ParseString(b).Some?
    ensures var (s, rest) := ParseString(b).value; b == EncodeString(s) + rest
    decreases |b|
  {
    if b[0] != StringEnd {
      var c := CharFromBytes(b[0], b[1], b[2]).value;
      ParsedStringIsEncoded(b[3..]);
      var (s, rest) := ParseString(b[3..]).value;
      assert ([c] + s)[1..] == s;
      assert b == b[..3] + b[3..];
    }
  }

  function EncodeList(xs: seq<string>): (r: seq<Byte>)
    ensures |r| > 0
  {
    if xs == [] then [ListEnd] else [ListMore] + EncodeString(xs[0]) + EncodeList(xs[1..])
  }

  function ParseList(b: seq<Byte>): (r: Option<(seq<string>, seq<Byte>)>)
    ensures r.Some? ==> |r.value.1| < |b|
    decreases |b|
  {
    if |b| == 0 then None
    else if b[0] == ListEnd then Some(([], b[1..]))
    else if b[0] != ListMore then None
    else match ParseString(b[1..])
      case None => None
      case Some((x, afterX)) =>
        match ParseList(afterX)
        case None => None
        case Some((xs, rest)) => Some(([x] + xs, rest))
  }

  lemma {:induction false} ParseEncodedList(xs: seq<string>, rest: seq<Byte>)
    ensures ParseList(EncodeList(xs) + rest) == Some((xs, rest))
  {
    var b := EncodeList(xs) + rest;
    if xs == [] {
      assert b[1..] == rest;
    } else {
      var tail := EncodeList(xs[1..]) + rest;
      assert b[1..] == EncodeString(xs[0]) + tail;
      ParseEncodedString(xs[0], tail);
      ParseEncodedList(xs[1..], rest);
      assert [xs[0]] + xs[1..] == xs;
    }
  }

  lemma {:induction false} ParsedListIsEncoded(b: seq<Byte>)
    requires ParseList(b).Some?
    ensures var (xs, rest) := ParseList(b).value; b == EncodeList(xs) + rest
    decreases |b|
  {
    if b[0] == ListEnd {
      assert b == [ListEnd] + b[1..];
    } else {
      var (x, afterX) := ParseString(b[1..]).value;
      ParsedStringIsEncoded(b[1..]);
      var (xs, rest) := ParseList(afterX).value;
      ParsedListIsEncoded(afterX);
      ListConsEncoded(b, x, afterX, xs, rest);
    }
  }

  lemma ListConsEncoded(b: seq<Byte>, x: string, afterX: seq<Byte>, xs: seq<string>, rest: seq<Byte>)
    requires |b| > 0 && b[0] == ListMore
    requires b[1..] == EncodeString(x) + afterX && afterX == EncodeList(xs) + rest
    ensures b == EncodeList([x] + xs) + rest
  {
    assert ([x] + xs)[0] == x && ([x] + xs)[1..] == xs;
    assert b == [b[0]] + b[1..];
  }

  function LevelToByte(l: Level): Byte
  {
    match l
    case Error => 1
    case Warn => 2
    case Info => 3
    case Debug => 4
    case Trace => 5
  }

  function LevelFromByte(b: Byte): (r: Option<Level>)
    ensures r.Some? ==> LevelToByte(r.value) == b
  {
    if b == 1 then Some(Error)
    else if b == 2 then Some(Warn)
    else if b == 3 then Some(Info)
    else if b == 4 then Some(Debug)
    else if b == 5 then Some(Trace)
    else None
  }

  lemma LevelRoundTrip(l: Level)
    ensures LevelFromByte(LevelToByte(l)) == Some(l)
  {
  }

  function Tag(m: Message): Byte
  {
    match m
    case Greeting(_) => 0
    case Log(_, _, _, _) => 1
    case BatchRequest => 2
    case Batch(_) => 3
    case JSON(_) => 4
    case DownloadStart => 5
    case DownloadEnd => 6
    case EndRequest => 7
  }

  function UsizeField(n: Usize): seq<Byte>
  {
    UsizeToBytes(LittleEndian, n)
  }

  /** The payload of a frame carrying m. */
  function Encode(m: Message): (r: seq<Byte>)
    ensures |r| > 0 && r[0] == Tag(m)
  {
    match m
    case Greeting(id) => [Tag(m)] + UsizeField(id)
    case Log(t, l, target, msg) => [Tag(m)] + LogFields(t, l, target, msg)
    case BatchRequest => [Tag(m)]
    case Batch(links) => [Tag(m)] + EncodeList(links)
    case JSON(p) => [Tag(m)] + EncodeString(p)
    case DownloadStart => [Tag(m)]
    case DownloadEnd => [Tag(m)]
    case EndRequest => [Tag(m)]
  }

  function DecodeLog(body: seq<Byte>): Option<Message>
  {
    if |body| < UsizeBytes + 1 then None
    else
      var t := UsizeFromBytes(LittleEndian, body[..UsizeBytes]);
      match LevelFromByte(body[UsizeBytes])
      case None => None
      case Some(l) =>
        match ParseString(body[UsizeBytes + 1..])
        case None => None
        case Some((target, afterTarget)) =>
          match ParseString(afterTarget)
          case None => None
          case Some((msg, rest)) => if rest == [] then Some(Log(t, l, target, msg)) else None
  }

  /** The fields of a Log message: thread id, level, target, text. */
  function LogFields(t: Usize, l: Level, target: string, msg: string): seq<Byte>
  {
    UsizeField(t) + [LevelToByte(l)] + EncodeString(target) + EncodeString(msg)
  }

  lemma DecodeLogFields(t: Usize, l: Level, target: string, msg: string)
    ensures DecodeLog(LogFields(t, l, target, msg)) == Some(Log(t, l, target, msg))
  {
    var body := LogFields(t, l, target, msg);
    assert body[..UsizeBytes] == UsizeField(t);
    UsizeRoundTrip(LittleEndian, t);
    assert body[UsizeBytes] == LevelToByte(l);
    LevelRoundTrip(l);
    assert body[UsizeBytes + 1..] == EncodeString(target) + EncodeString(msg);
    ParseEncodedString(target, EncodeString(msg));
    ParseEncodedString(msg, []);
    assert EncodeString(msg) + [] == EncodeString(msg);
  }

  lemma DecodedLogIsFields(body: seq<Byte>)
    requires DecodeLog(body).Some?
    ensures var m := DecodeLog(body).value;
            m.Log? && body == LogFields(m.thrId, m.level, m.target, m.msg)
  {
    UsizeBytesRoundTrip(LittleEndian, body[..UsizeBytes]);
    ParsedStringIsEncoded(body[UsizeBytes + 1..]);
    var (_, afterTarget) := ParseString(body[UsizeBytes + 1..]).value;
    ParsedStringIsEncoded(afterTarget);
    assert body == body[..UsizeBytes] + [body[UsizeBytes]] + body[UsizeBytes + 1..];
  }

  /**
    The message a payload holds. None when the payload is not exactly one
    encoded message: an unknown tag, a field cut short, or bytes left over.
   */
  function Decode(b: seq<Byte>): (r: Option<Message>)
  {
    if b == [] then None
    else
      var body := b[1..];
      if b[0] == 0 then
        if |body| == UsizeBytes then Some(Greeting(UsizeFromBytes(LittleEndian, body))) else None
      else if b[0] == 1 then DecodeLog(body)
      else if b[0] == 2 then (if body == [] then Some(BatchRequest) else None)
      else if b[0] == 3 then
        match ParseList(body)
        case None => None
        case Some((links, rest)) => if rest == [] then Some(Batch(links)) else None
      else if b[0] == 4 then
        match ParseString(body)
        case None => None
        case Some((p, rest)) => if rest == [] then Some(JSON(p)) else None
      else if b[0] == 5 then (if body == [] then Some(DownloadStart) else None)
      else if b[0] == 6 then (if body == [] then Some(DownloadEnd) else None)
      else if b[0] == 7 then (if body == [] then Some(EndRequest) else None)
      else None
  }

  /** Decoding the payload written for m gives back m. */
  lemma DecodeEncode(m: Message)
    ensures Decode(Encode(m)) == Some(m)
  {
    var b := Encode(m);
    match m
    case Greeting(id) =>
      assert b[1..] == UsizeField(id);
      UsizeRoundTrip(LittleEndian, id);
    case Log(t, l, target, msg) =>
      assert b[1..] == LogFields(t, l, target, msg);
      DecodeLogFields(t, l, target, msg);
    case BatchRequest =>
    case Batch(links) =>
      assert b[1..] == EncodeList(links) + [];
      ParseEncodedList(links, []);
    case JSON(p) =>
      assert b[1..] == EncodeString(p) + [];
      ParseEncodedString(p, []);
    case DownloadStart =>
    case DownloadEnd =>
    case EndRequest =>
  }

  /** A payload that decodes to m is the payload written for m: the encoding is canonical. */
  lemma EncodeDecode(b: seq<Byte>)
    requires Decode(b).Some?
    ensures Encode(Decode(b).value) == b
  {
    var m := Decode(b).value;
    var body := b[1..];
    assert b == [b[0]] + body;
    match m
    case Greeting(id) =>
      UsizeBytesRoundTrip(LittleEndian, body);
    case Log(t, l, target, msg) =>
      DecodedLogIsFields(body);
    case BatchRequest =>
    case Batch(links) =>
      ParsedListIsEncoded(body);
    case JSON(p) =>
      ParsedStringIsEncoded(body);
    case DownloadStart =>
    case DownloadEnd =>
    case EndRequest =>
  }

  /** Different messages are written as different payloads. */
  lemma EncodeInjective(m1: Message, m2: Message)
    requires Encode(m1) == Encode(m2)
    ensures m1 == m2
  {
    DecodeEncode(m1);
    DecodeEncode(m2);
  }

  // ---------------------------------------------------------------------
  // Counting requests in a message sequence
  // ---------------------------------------------------------------------

  /** How many BatchRequests ms holds. */
  function Requests(ms: seq<Message>): nat
  {
    if ms == [] then 0
    else Requests(ms[..|ms| - 1]) + (if ms[|ms| - 1] == BatchRequest then 1 else 0)
  }

  lemma {:induction false} RequestsAppend(a: seq<Message>, b: seq<Message>)
    ensures Requests(a + b) == Requests(a) + Requests(b)
    decreases |b|
  {
    if b == [] {
      assert a + b == a;
    } else {
      var n := |b| - 1;
      assert (a + b)[..|a + b| - 1] == a + b[..n];
      RequestsAppend(a, b[..n]);
    }
  }

  lemma RequestsSingle(m: Message)
    ensures Requests([m]) == (if m == BatchRequest then 1 else 0)
  {
    assert [m][..0] == [];
  }
}
