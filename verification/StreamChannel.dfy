/** The framed channel and the in-memory stream under it, as seen by one thread at a time. */
module Streams {
  import opened Wrappers
  import opened Framing

  datatype Fill = Filled | EndOfStream | Waiting

  /** An in-memory duplex stream that loops back on itself. */
  class Pipe {
    var buffer: Bytes
    var closed: bool

    constructor ()
      ensures buffer == [] && !closed
    {
      buffer, closed := [], false;
    }

    /**
     * Take bytes into `target` from position `start` on until it is full. On an empty stream the call ends if
     * the stream is closed and otherwise waits, having taken all there was; waking up it goes on at `filled`.
     */
    method ReadExact(target: array<byte>, start: nat) returns (filled: nat, status: Fill)
      requires start <= target.Length
      modifies this`buffer, target
      ensures start <= filled <= target.Length
      ensures target[..filled] + buffer == old(target[..start] + buffer)
      ensures status == if start + |old(buffer)| >= target.Length then Filled else if closed then EndOfStream else Waiting
      ensures status.Filled? <==> filled == target.Length
      ensures !status.Filled? ==> buffer == []
    {
      filled := start;
      while filled < target.Length
        invariant start <= filled <= target.Length
        invariant target[..filled] + buffer == old(target[..start] + buffer)
      {
        if buffer == [] {
          return filled, if closed then EndOfStream else Waiting;
        }
        while filled < target.Length && buffer != []
          invariant start <= filled <= target.Length
          invariant target[..filled] + buffer == old(target[..start] + buffer)
          decreases |buffer|
        {
          ghost var before := target[..filled];
          target[filled] := buffer[0];
          assert target[..filled + 1] == before + [buffer[0]];
          assert before + buffer == before + [buffer[0]] + buffer[1..];
          buffer := buffer[1..];
          filled := filled + 1;
        }
      }
      status := Filled;
    }

    method WriteAll(bytes: Bytes) returns (ok: bool)
      modifies this`buffer
      ensures ok == !closed
      ensures buffer == if ok then old(buffer) + bytes else old(buffer)
    {
      if closed {
        return false;
      }
      buffer := buffer + bytes;
      return true;
    }

    method Close()
      modifies this`closed
      ensures closed
    {
      closed := true;
    }
  }

  /** `Parked`: the read waits, having taken these bytes of its frame; `HeldUp`: the write waits out a pause. */
  datatype Status<+T> = Returned(result: Result<T>) | Parked(taken: Bytes) | HeldUp

  class StreamChannel {
    const stream: Pipe
    const maxAllowedReadBytes: nat := MAX_ALLOWED_READ_BYTES
    var cipher: Option<Cipher>
    var paused: bool
    var closed: bool

    /** A channel that was closed has a closed stream. */
    predicate Valid()
      reads this, stream
    {
      closed ==> stream.closed
    }

    constructor (stream: Pipe)
      ensures Valid() && this.stream == stream && cipher == None && !paused && !closed
    {
      this.stream := stream;
      cipher, paused, closed := None, false, false;
    }

    method EnableEncryption(c: Cipher)
      modifies this`cipher
      ensures cipher == Some(c)
    {
      cipher := Some(c);
    }

    method DisableEncryption()
      modifies this`cipher
      ensures cipher == None
    {
      cipher := None;
    }

    predicate IsEncrypted()
      reads this
    {
      cipher.Some?
    }

    method TryDecrypt(data: Bytes) returns (r: Result<Bytes>)
      ensures r == if !IsEncrypted() then Err(Failed)
                   else if cipher.value.decode(data).Some? then Ok(cipher.value.decode(data).value)
                   else Err(Execution)
    {
      if cipher.None? {
        return Err(Failed);
      }
      match cipher.value.decode(data) {
        case Some(plain) => return Ok(plain);
        case None => return Err(Execution);
      }
    }

    /** One raw frame off the stream, by a read that took `taken` before it had to wait; `[]` for a new one. */
    method ReadRawFrame(taken: Bytes) returns (raw: Status<Bytes>)
      requires ReadRaw(taken).0 == Err(NoData)
      modifies stream`buffer
      ensures var (r, rest) := ReadRaw(taken + old(stream.buffer));
        && stream.buffer == rest
        && raw == if r == Err(NoData) && !stream.closed then Parked(taken + old(stream.buffer)) else Returned(r)
    {
      ghost var all := taken + stream.buffer;
      var prefix, filled, status := Fill(4, if |taken| <= 4 then taken else taken[..4]);
      if !status.Filled? {
        return if status.EndOfStream? then Returned(Err(NoData)) else Parked(prefix);
      }
      var body := if |taken| <= 4 then [] else taken[4..];
      if |taken| > 4 {
        assert prefix == (prefix + stream.buffer)[..4] == (taken[..4] + old(stream.buffer))[..4] == taken[..4];
        assert stream.buffer == (prefix + stream.buffer)[4..] == (taken[..4] + old(stream.buffer))[4..];
        assert taken == prefix + body;
      }
      assert all == prefix + (body + stream.buffer);
      assert all[..4] == prefix;
      var n := DecodeLength(prefix);
      if n < 0 || n > maxAllowedReadBytes {
        return Returned(Err(Io));
      }
      var data;
      data, filled, status := Fill(n, body);
      assert all[4..] == data + stream.buffer;
      if !status.Filled? {
        return if status.EndOfStream? then Returned(Err(NoData)) else Parked(prefix + data);
      }
      assert data == all[4..4 + n] && stream.buffer == all[4 + n..];
      return Returned(Ok(data));
    }

    /** Read until there are `n` bytes, `taken` included; what there is, and how many. */
    method Fill(n: nat, taken: Bytes) returns (bytes: Bytes, filled: nat, status: Fill)
      requires |taken| <= n
      modifies stream`buffer
      ensures |bytes| == filled <= n && bytes + stream.buffer == taken + old(stream.buffer)
      ensures status == if |taken + old(stream.buffer)| >= n then Filled else if stream.closed then EndOfStream else Waiting
      ensures status.Filled? <==> filled == n
      ensures !status.Filled? ==> stream.buffer == []
    {
      var target := new byte[n];
      forall i | 0 <= i < |taken| {
        target[i] := taken[i];
      }
      assert target[..|taken|] == taken;
      filled, status := stream.ReadExact(target, |taken|);
      bytes := target[..filled];
    }

    method Read(taken: Bytes, parse: Bytes -> Parsed) returns (message: Status<Bytes>)
      requires ReadRaw(taken).0 == Err(NoData)
      modifies stream`buffer
      ensures var (r, rest) := ReadRaw(taken + old(stream.buffer));
        && stream.buffer == rest
        && (r.Ok? ==> message.Returned? && Understood(cipher, parse, r.value, message.result))
        && (r.Err? ==> message == if r == Err(NoData) && !stream.closed then Parked(taken + old(stream.buffer)) else Returned(r))
    {
      var raw := ReadRawFrame(taken);
      if !raw.Returned? || raw.result.Err? || cipher.None? {
        return raw;
      }
      var frame := raw.result.value;
      match cipher.value.decode(frame) {
        case Some(plain) =>
          if plain == [] {
            return Returned(Err(InvalidProtocolBuffer));
          }
          return Returned(Ok(plain));
        case None =>
          match parse(frame) {
            case KeepAlive => return Returned(Ok(frame));
            case OtherFrame => return Returned(Err(InvalidProtocolBuffer));
            case Malformed(code) => return Returned(Err(Forwarded(code)));
          }
      }
    }

    /** All of the frame goes out, or nothing does. */
    method Write(data: Bytes) returns (status: Status<()>)
      requires Valid()
      modifies stream`buffer
      ensures Valid()
      ensures paused ==> status == HeldUp && stream.buffer == old(stream.buffer)
      ensures !paused ==>
        var payload := ToWire(cipher, data);
        var sent := payload.Some? && !stream.closed;
        && status == Returned(if sent then Ok(()) else Err(Io))
        && stream.buffer == old(stream.buffer) + if sent then FrameOf(payload.value) else []
    {
      if paused {
        return HeldUp;
      }
      var payload := data;
      if cipher.Some? {
        var encrypted := cipher.value.encode(data);
        if encrypted.None? {
          return Returned(Err(Io));
        }
        payload := encrypted.value;
      }
      if |payload| > maxAllowedReadBytes {
        return Returned(Err(Io));
      }
      var ok := stream.WriteAll(EncodeLength(|payload|));
      if !ok {
        return Returned(Err(Io));
      }
      ok := stream.WriteAll(payload);
      if !ok {
        return Returned(Err(Io));
      }
      return Returned(Ok(()));
    }

    /** The first close releases a writer held up by a pause; closing again changes nothing. */
    method DoClose()
      requires Valid()
      modifies this`closed, this`paused, stream`closed
      ensures Valid() && closed && stream.closed
      ensures paused == (old(closed) && old(paused))
    {
      if closed {
        return;
      }
      closed, paused := true, false;
      stream.Close();
    }

    method Pause()
      modifies this`paused
      ensures paused
    {
      paused := true;
    }

    method Resume()
      modifies this`paused
      ensures !paused
    {
      paused := false;
    }
  }
}
