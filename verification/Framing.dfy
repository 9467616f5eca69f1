/** Length-prefixed framing over a byte stream, with an optional cipher. */
module Framing {
  import opened Wrappers

  newtype byte = x: int | 0 <= x < 256

  type Bytes = seq<byte>

  datatype Exception = Io | NoData | InvalidProtocolBuffer | Failed | Execution | Forwarded(code: nat)

  datatype Result<+T> = Ok(value: T) | Err(exception: Exception)

  /** `i32::MAX`, the longest payload in either direction. */
  const MAX_ALLOWED_READ_BYTES: nat := 0x7fff_ffff

  // -- the length prefix ----------------------------------------------------

  /** Four bytes, most significant first. */
  function EncodeLength(n: nat): (bs: Bytes)
    requires n <= MAX_ALLOWED_READ_BYTES
    ensures |bs| == 4
  {
    [(n / 0x100_0000) as byte, (n / 0x1_0000 % 0x100) as byte, (n / 0x100 % 0x100) as byte, (n % 0x100) as byte]
  }

  /** The same four bytes as a signed 32-bit integer. */
  function DecodeLength(bs: Bytes): (n: int)
    requires |bs| == 4
    ensures -0x8000_0000 <= n <= MAX_ALLOWED_READ_BYTES
  {
    var u := bs[0] as int * 0x100_0000 + bs[1] as int * 0x1_0000 + bs[2] as int * 0x100 + bs[3] as int;
    if u < 0x8000_0000 then u else u - 0x1_0000_0000
  }

  lemma DecodeEncodeLength(n: nat)
    requires n <= MAX_ALLOWED_READ_BYTES
    ensures DecodeLength(EncodeLength(n)) == n
  {
    var a := n / 0x100;
    var b := n / 0x1_0000;
    assert a / 0x100 == b && b / 0x100 == n / 0x100_0000;
    assert n == 0x100 * a + n % 0x100 && a == 0x100 * b + a % 0x100;
    assert b == 0x100 * (n / 0x100_0000) + b % 0x100;
  }

  lemma EncodeDecodeLength(bs: Bytes)
    requires |bs| == 4
    ensures DecodeLength(bs) >= 0 <==> bs[0] < 128
    ensures DecodeLength(bs) >= 0 ==> EncodeLength(DecodeLength(bs)) == bs
  {
    var b0, b1, b2, b3 := bs[0] as int, bs[1] as int, bs[2] as int, bs[3] as int;
    var n := DecodeLength(bs);
    if n >= 0 {
      assert n / 0x100 == b0 * 0x1_0000 + b1 * 0x100 + b2;
      assert n / 0x1_0000 == b0 * 0x100 + b1;
      assert n / 0x100_0000 == b0;
    }
  }

  /** Of two byte strings of four, `a` comes first. */
  predicate Earlier(a: Bytes, b: Bytes)
    requires |a| == 4 && |b| == 4
  {
    || a[0] < b[0]
    || (a[0] == b[0] && a[1] < b[1])
    || (a[0] == b[0] && a[1] == b[1] && a[2] < b[2])
    || (a[0] == b[0] && a[1] == b[1] && a[2] == b[2] && a[3] < b[3])
  }

  /** Most significant first: shorter lengths have earlier bytes. */
  lemma LengthsOrderAsBytes(m: nat, n: nat)
    requires m <= MAX_ALLOWED_READ_BYTES && n <= MAX_ALLOWED_READ_BYTES
    ensures Earlier(EncodeLength(m), EncodeLength(n)) <==> m < n
  {
    DecodeEncodeLength(m);
    DecodeEncodeLength(n);
  }

  // -- raw frames -----------------------------------------------------------

  predicate Fits(payload: Bytes) {
    |payload| <= MAX_ALLOWED_READ_BYTES
  }

  function FrameOf(payload: Bytes): Bytes
    requires Fits(payload)
  {
    EncodeLength(|payload|) + payload
  }

  /** What one read finds in `bytes`, if nothing more is coming, and what it leaves. */
  function ReadRaw(bytes: Bytes): (Result<Bytes>, Bytes) {
    if |bytes| < 4 then (Err(NoData), [])
    else
      var n := DecodeLength(bytes[..4]);
      if n < 0 then (Err(Io), bytes[4..])
      else if |bytes| - 4 < n then (Err(NoData), [])
      else (Ok(bytes[4..4 + n]), bytes[4 + n..])
  }

  lemma ReadRawFrame(payload: Bytes, rest: Bytes)
    requires Fits(payload)
    ensures ReadRaw(FrameOf(payload) + rest) == (Ok(payload), rest)
  {
    var bytes := FrameOf(payload) + rest;
    assert bytes[..4] == EncodeLength(|payload|);
    DecodeEncodeLength(|payload|);
    assert bytes[4..4 + |payload|] == payload && bytes[4 + |payload|..] == rest;
  }

  lemma ReadRawCut(payload: Bytes, k: nat)
    requires Fits(payload) && k < |FrameOf(payload)|
    ensures ReadRaw(FrameOf(payload)[..k]) == (Err(NoData), [])
  {
    if k >= 4 {
      assert FrameOf(payload)[..k][..4] == EncodeLength(|payload|);
      DecodeEncodeLength(|payload|);
    }
  }

  // -- the cipher -----------------------------------------------------------

  datatype Cipher = Cipher(encode: Bytes -> Option<Bytes>, decode: Bytes -> Option<Bytes>)

  /** How a frame that cannot be decrypted parses. */
  datatype Parsed = KeepAlive | OtherFrame | Malformed(code: nat)

  /** The payload to put on the wire, or none if the cipher or the length limit objects. */
  function ToWire(cipher: Option<Cipher>, data: Bytes): (payload: Option<Bytes>)
    ensures payload.Some? ==> Fits(payload.value)
  {
    var encoded := if cipher.None? then Some(data) else cipher.value.encode(data);
    if encoded.Some? && Fits(encoded.value) then encoded else None
  }

  function FromWire(cipher: Option<Cipher>, parse: Bytes -> Parsed, raw: Bytes): Result<Bytes> {
    if cipher.None? then Ok(raw)
    else match cipher.value.decode(raw)
      case Some(plain) => if plain == [] then Err(InvalidProtocolBuffer) else Ok(plain)
      case None =>
        match parse(raw)
        case KeepAlive => Ok(raw)
        case OtherFrame => Err(InvalidProtocolBuffer)
        case Malformed(code) => Err(Forwarded(code))
  }

  ghost predicate Inverse(cipher: Cipher) {
    forall p :: cipher.encode(p).Some? ==> cipher.decode(cipher.encode(p).value) == Some(p)
  }

  /** A message survives the trip exactly if it is non-empty or travels in the clear. */
  lemma FromToWire(cipher: Option<Cipher>, parse: Bytes -> Parsed, data: Bytes)
    requires cipher.Some? ==> Inverse(cipher.value)
    requires ToWire(cipher, data).Some?
    ensures FromWire(cipher, parse, ToWire(cipher, data).value) == Ok(data) <==> cipher.None? || data != []
  {
  }

  // -- whole streams --------------------------------------------------------

  ghost predicate Writable(cipher: Option<Cipher>, messages: seq<Bytes>) {
    forall i :: 0 <= i < |messages| ==> ToWire(cipher, messages[i]).Some?
  }

  /** What writing the messages one after the other puts on the stream. */
  ghost function Wire(cipher: Option<Cipher>, messages: seq<Bytes>): Bytes
    requires Writable(cipher, messages)
  {
    if messages == [] then []
    else FrameOf(ToWire(cipher, messages[0]).value) + Wire(cipher, messages[1..])
  }

  /** Read until the stream itself reports an error. */
  function ReadAll(cipher: Option<Cipher>, parse: Bytes -> Parsed, bytes: Bytes): (seq<Result<Bytes>>, Exception)
    decreases |bytes|
  {
    match ReadRaw(bytes)
    case (Err(e), _) => ([], e)
    case (Ok(raw), rest) =>
      var (later, e) := ReadAll(cipher, parse, rest);
      ([FromWire(cipher, parse, raw)] + later, e)
  }

  function Delivered(messages: seq<Bytes>): (rs: seq<Result<Bytes>>)
    ensures |rs| == |messages| && forall i :: 0 <= i < |rs| ==> rs[i] == Ok(messages[i])
  {
    seq(|messages|, i requires 0 <= i < |messages| => Ok(messages[i]))
  }

  lemma {:induction false} WireConcat(cipher: Option<Cipher>, a: seq<Bytes>, b: seq<Bytes>)
    requires Writable(cipher, a) && Writable(cipher, b)
    ensures Writable(cipher, a + b) && Wire(cipher, a + b) == Wire(cipher, a) + Wire(cipher, b)
  {
    if a == [] {
      assert a + b == b;
    } else {
      WireConcat(cipher, a[1..], b);
      assert (a + b)[1..] == a[1..] + b;
    }
  }

  lemma ReadAllFrame(cipher: Option<Cipher>, parse: Bytes -> Parsed, message: Bytes, rest: Bytes)
    requires ToWire(cipher, message).Some?
    requires cipher.Some? ==> Inverse(cipher.value) && message != []
    ensures var (later, e) := ReadAll(cipher, parse, rest);
      ReadAll(cipher, parse, FrameOf(ToWire(cipher, message).value) + rest) == ([Ok(message)] + later, e)
  {
    ReadRawFrame(ToWire(cipher, message).value, rest);
    FromToWire(cipher, parse, message);
  }

  lemma WireFirst(cipher: Option<Cipher>, messages: seq<Bytes>, n: nat)
    requires Writable(cipher, messages) && 0 < n <= |messages|
    ensures Wire(cipher, messages[..n]) == FrameOf(ToWire(cipher, messages[0]).value) + Wire(cipher, messages[1..][..n - 1])
  {
    assert messages[..n][1..] == messages[1..][..n - 1];
  }

  lemma CutConcat(first: Bytes, later: Bytes, k: nat)
    requires k <= |first| + |later|
    ensures k <= |first| ==> (first + later)[..k] == first[..k]
    ensures k >= |first| ==> (first + later)[..k] == first + later[..k - |first|]
  {
  }

  /** What one more message at the front adds to what is read. */
  lemma ReadOneMore(cipher: Option<Cipher>, parse: Bytes -> Parsed, messages: seq<Bytes>, rest: Bytes, n: nat)
    requires Writable(cipher, messages) && 0 < n <= |messages|
    requires cipher.Some? ==> Inverse(cipher.value) && messages[0] != []
    requires ReadAll(cipher, parse, rest) == (Delivered(messages[1..][..n - 1]), NoData)
    ensures ReadAll(cipher, parse, FrameOf(ToWire(cipher, messages[0]).value) + rest) == (Delivered(messages[..n]), NoData)
  {
    ReadAllFrame(cipher, parse, messages[0], rest);
    DeliveredCons(messages, n);
  }

  lemma DeliveredCons(messages: seq<Bytes>, n: nat)
    requires 0 < n <= |messages|
    ensures Delivered(messages[..n]) == [Ok(messages[0])] + Delivered(messages[1..][..n - 1])
  {
  }

  /** Of the stream cut at `k`, exactly the first `n` messages can be read. */
  ghost predicate Readable(cipher: Option<Cipher>, parse: Bytes -> Parsed, messages: seq<Bytes>, k: nat, n: nat)
    requires Writable(cipher, messages) && k <= |Wire(cipher, messages)| && n <= |messages|
  {
    && ReadAll(cipher, parse, Wire(cipher, messages)[..k]) == (Delivered(messages[..n]), NoData)
    && |Wire(cipher, messages[..n])| <= k
    && (n < |messages| ==> k < |Wire(cipher, messages[..n + 1])|)
  }

  lemma CutHere(cipher: Option<Cipher>, parse: Bytes -> Parsed, messages: seq<Bytes>, k: nat)
    requires Writable(cipher, messages) && messages != [] && k < |FrameOf(ToWire(cipher, messages[0]).value)|
    ensures k <= |Wire(cipher, messages)| && Readable(cipher, parse, messages, k, 0)
  {
    WireFirst(cipher, messages, 1);
    CutConcat(FrameOf(ToWire(cipher, messages[0]).value), Wire(cipher, messages[1..]), k);
    ReadRawCut(ToWire(cipher, messages[0]).value, k);
    assert Delivered(messages[..0]) == [];
  }

  lemma CutLater(cipher: Option<Cipher>, parse: Bytes -> Parsed, messages: seq<Bytes>, k: nat, n: nat)
    requires Writable(cipher, messages) && messages != [] && n < |messages|
    requires cipher.Some? ==> Inverse(cipher.value) && messages[0] != []
    requires |FrameOf(ToWire(cipher, messages[0]).value)| <= k <= |Wire(cipher, messages)|
    requires Readable(cipher, parse, messages[1..], k - |FrameOf(ToWire(cipher, messages[0]).value)|, n)
    ensures Readable(cipher, parse, messages, k, n + 1)
  {
    var first, later := FrameOf(ToWire(cipher, messages[0]).value), Wire(cipher, messages[1..]);
    CutConcat(first, later, k);
    ReadOneMore(cipher, parse, messages, later[..k - |first|], n + 1);
    WireFirst(cipher, messages, n + 1);
    if n + 1 < |messages| {
      WireFirst(cipher, messages, n + 2);
    }
  }

  /**
   * Cut the stream anywhere and close it: reading yields exactly the messages whose frames arrived whole,
   * unchanged and in order, and then `NoData`.
   */
  lemma {:induction false} CutStream(cipher: Option<Cipher>, parse: Bytes -> Parsed, messages: seq<Bytes>, k: nat)
      returns (n: nat)
    requires Writable(cipher, messages) && k <= |Wire(cipher, messages)|
    requires cipher.Some? ==> Inverse(cipher.value) && forall i :: 0 <= i < |messages| ==> messages[i] != []
    ensures n <= |messages| && Readable(cipher, parse, messages, k, n)
    decreases |messages|
  {
    if messages == [] {
      n := 0;
    } else {
      var first := FrameOf(ToWire(cipher, messages[0]).value);
      if k < |first| {
        n := 0;
        CutHere(cipher, parse, messages, k);
      } else {
        n := CutStream(cipher, parse, messages[1..], k - |first|);
        CutLater(cipher, parse, messages, k, n);
        n := n + 1;
      }
    }
  }

  lemma WireGrows(cipher: Option<Cipher>, messages: seq<Bytes>, n: nat)
    requires Writable(cipher, messages) && n <= |messages|
    ensures |Wire(cipher, messages[..n])| <= |Wire(cipher, messages)|
  {
    WireConcat(cipher, messages[..n], messages[n..]);
    assert messages[..n] + messages[n..] == messages;
  }

  lemma NothingCut(cipher: Option<Cipher>, parse: Bytes -> Parsed, messages: seq<Bytes>, n: nat)
    requires Writable(cipher, messages) && n <= |messages|
    requires Readable(cipher, parse, messages, |Wire(cipher, messages)|, n)
    ensures ReadAll(cipher, parse, Wire(cipher, messages)) == (Delivered(messages), NoData)
  {
    var k := |Wire(cipher, messages)|;
    WireGrows(cipher, messages, if n < |messages| then n + 1 else n);
    assert messages[..|messages|] == messages && Wire(cipher, messages)[..k] == Wire(cipher, messages);
  }

  /** Nothing is cut: every message comes back. */
  lemma RoundTrip(cipher: Option<Cipher>, parse: Bytes -> Parsed, messages: seq<Bytes>)
    requires Writable(cipher, messages)
    requires cipher.Some? ==> Inverse(cipher.value) && forall i :: 0 <= i < |messages| ==> messages[i] != []
    ensures ReadAll(cipher, parse, Wire(cipher, messages)) == (Delivered(messages), NoData)
  {
    var n := CutStream(cipher, parse, messages, |Wire(cipher, messages)|);
    NothingCut(cipher, parse, messages, n);
  }

  // -- any stream at all ----------------------------------------------------

  /**
   * What a read may return for the frame `raw`. In the clear, the frame. Under a cipher the plaintext, unless it is
   * empty; of the frames that do not decrypt only a keep-alive is let through, as it came.
   */
  predicate Understood(cipher: Option<Cipher>, parse: Bytes -> Parsed, raw: Bytes, r: Result<Bytes>) {
    match cipher
    case None => r == Ok(raw)
    case Some(keys) =>
      var plain, parsed := keys.decode(raw), parse(raw);
      && (r.Ok? <==> (plain.Some? && plain.value != []) || (plain.None? && parsed.KeepAlive?))
      && (r.Ok? ==> r.value == if plain.Some? then plain.value else raw)
      && (r == Err(InvalidProtocolBuffer) <==> plain == Some([]) || (plain.None? && parsed.OtherFrame?))
      && (r.Err? && r.exception.Forwarded? ==> plain.None? && parsed == Malformed(r.exception.code))
      && (r.Err? ==> r.exception.InvalidProtocolBuffer? || r.exception.Forwarded?)
  }

  lemma FromWireIsUnderstood(cipher: Option<Cipher>, parse: Bytes -> Parsed, raw: Bytes)
    ensures Understood(cipher, parse, raw, FromWire(cipher, parse, raw))
  {
  }

  /** Only the outcome described is understood. */
  lemma UnderstoodOneWay(cipher: Option<Cipher>, parse: Bytes -> Parsed, raw: Bytes, r: Result<Bytes>)
    requires Understood(cipher, parse, raw, r)
    ensures r == FromWire(cipher, parse, raw)
  {
  }

  /** What goes on the wire: the data, or what the cipher makes of it, unless it refuses or the frame is too long. */
  lemma ToWireMeans(cipher: Option<Cipher>, data: Bytes, payload: Bytes)
    ensures ToWire(cipher, data) == Some(payload) <==>
      && |payload| <= 0x7fff_ffff
      && (cipher.None? ==> payload == data)
      && (cipher.Some? ==> cipher.value.encode(data) == Some(payload))
  {
  }

  /** A frame is read exactly if the bytes begin with it; a length with its first bit on is an error, else more is due. */
  lemma RawMeans(bytes: Bytes, payload: Bytes)
    ensures ReadRaw(bytes).0 == Ok(payload) <==> Fits(payload) && FrameOf(payload) <= bytes
    ensures ReadRaw(bytes).0 == Ok(payload) ==> ReadRaw(bytes).1 == bytes[|FrameOf(payload)|..]
    ensures ReadRaw(bytes).0 == Err(Io) <==> |bytes| >= 4 && bytes[0] >= 128
    ensures ReadRaw(bytes).0.Err? ==> ReadRaw(bytes).0 == Err(Io) || ReadRaw(bytes).0 == Err(NoData)
  {
    if Fits(payload) && FrameOf(payload) <= bytes {
      assert bytes == FrameOf(payload) + bytes[|FrameOf(payload)|..];
      ReadRawFrame(payload, bytes[|FrameOf(payload)|..]);
    }
    if |bytes| >= 4 {
      EncodeDecodeLength(bytes[..4]);
      var n := DecodeLength(bytes[..4]);
      if 0 <= n <= |bytes| - 4 {
        assert EncodeLength(n) + bytes[4..4 + n] == bytes[..4 + n];
      }
    }
  }

  /** Nothing more can be read: a length that is negative, or less than a frame. */
  ghost predicate Unreadable(rest: Bytes, e: Exception) {
    && (forall p: Bytes :: Fits(p) ==> !(FrameOf(p) <= rest))
    && e == if |rest| >= 4 && rest[0] >= 128 then Io else NoData
  }

  /**
   * Whoever wrote the bytes, a reader finds frames in them, one after the other, until what is left begins with none,
   * and of each frame it returns what may be returned for it: under a cipher no frame gets through that neither
   * decrypts to a message nor is a keep-alive.
   */
  lemma {:induction false} AnyStream(cipher: Option<Cipher>, parse: Bytes -> Parsed, bytes: Bytes)
      returns (frames: seq<Bytes>, rest: Bytes)
    ensures Writable(None, frames) && bytes == Wire(None, frames) + rest
    ensures var (results, e) := ReadAll(cipher, parse, bytes);
      && |results| == |frames| && Unreadable(rest, e)
      && forall i :: 0 <= i < |frames| ==> Understood(cipher, parse, frames[i], results[i])
    decreases |bytes|
  {
    match ReadRaw(bytes)
    case (Err(e), _) =>
      frames, rest := [], bytes;
      forall p: Bytes
        ensures Fits(p) ==> !(FrameOf(p) <= bytes)
      {
        RawMeans(bytes, p);
      }
      RawMeans(bytes, []);
    case (Ok(raw), later) =>
      RawMeans(bytes, raw);
      FromWireIsUnderstood(cipher, parse, raw);
      var more;
      more, rest := AnyStream(cipher, parse, later);
      frames := [raw] + more;
      OneMoreFrame(raw, more, rest, later, bytes);
  }

  lemma OneMoreFrame(raw: Bytes, more: seq<Bytes>, rest: Bytes, later: Bytes, bytes: Bytes)
    requires Fits(raw) && Writable(None, more) && later == Wire(None, more) + rest
    requires FrameOf(raw) <= bytes && later == bytes[|FrameOf(raw)|..]
    ensures Writable(None, [raw] + more) && bytes == Wire(None, [raw] + more) + rest
  {
    assert ([raw] + more)[1..] == more;
    assert bytes == FrameOf(raw) + later;
  }
}
