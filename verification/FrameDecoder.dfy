/** The decoder object of the worker and the receive loop of the client. */
module FrameDecoder {
  import opened Messages
  import opened Framing

  datatype FeedState = NeedMore | FramesReady | FeedError

  class FrameDecoder {
    const max: Limit
    const prefix: array<Byte>
    var prefixSize: nat
    var expected: nat
    var payload: Payload
    var failed: bool
    var failure: StatusCode

    ghost function D(): Decoder
      requires prefixSize <= prefix.Length
      reads this, prefix
    {
      if failed then Failed(failure) else Decoder(prefix[..prefixSize], expected, payload, None)
    }

    ghost predicate Valid()
      reads this, prefix
    {
      prefix.Length == 4 && prefixSize <= 4 && DecoderOk(max, D())
    }

    constructor (limit: Limit)
      ensures Valid() && fresh(prefix) && max == limit && D() == IDLE
    {
      max := limit;
      prefix := new Byte[4](_ => 0);
      prefixSize, expected, payload, failed, failure := 0, 0, [], false, StatusOk;
    }

    method Reset()
      requires Valid()
      modifies this
      ensures Valid() && D() == IDLE
    {
      prefixSize, expected, payload, failed, failure := 0, 0, [], false, StatusOk;
    }

    method Fail(code: StatusCode)
      requires prefix.Length == 4 && prefixSize <= 4
      modifies this
      ensures Valid() && failed && D() == Failed(code)
    {
      failed, failure := true, code;
      prefixSize, expected, payload := 0, 0, [];
    }

    /** Copies input into the prefix until it is full or the input ends. */
    method FillPrefix(bytes: seq<Byte>, start: nat) returns (position: nat)
      requires prefix.Length == 4 && prefixSize <= 4 && start <= |bytes|
      modifies this`prefixSize, prefix
      ensures start <= position <= |bytes| && prefixSize <= 4
      ensures prefix[..prefixSize] == old(prefix[..prefixSize]) + bytes[start..position]
      ensures prefixSize == 4 || position == |bytes|
      ensures old(prefixSize) == 4 ==> position == start
    {
      position := start;
      while prefixSize < 4 && position < |bytes|
        invariant start <= position <= |bytes| && prefixSize <= 4
        invariant prefix[..prefixSize] == old(prefix[..prefixSize]) + bytes[start..position]
        invariant old(prefixSize) == 4 ==> position == start
        decreases 4 - prefixSize
      {
        ghost var before := prefix[..prefixSize];
        prefix[prefixSize] := bytes[position];
        assert prefix[..prefixSize + 1] == before + [bytes[position]];
        assert bytes[start..position + 1] == bytes[start..position] + [bytes[position]];
        prefixSize := prefixSize + 1;
        position := position + 1;
      }
    }

    /** Completes the prefix from the input if possible, and reads the announced size off it. */
    method ReadHeader(bytes: seq<Byte>, start: nat) returns (position: nat)
      requires Valid() && !failed && start < |bytes|
      modifies this, prefix
      ensures Valid() && start <= position <= |bytes|
      ensures FeedBytes(max, old(D()), bytes[start..position]) == Fed(D(), [])
      ensures failed || prefixSize == 4 || position == |bytes|
      ensures old(prefixSize) == 4 ==> position == start
    {
      ghost var d := D();
      position := FillPrefix(bytes, start);
      if prefixSize < 4 {
        FeedIntoPrefix(max, d, bytes[start..position]);
      } else if expected == 0 {
        FeedHeader(max, d, bytes[start..position]);
        assert prefix[..4] == prefix[..];
        expected := Value(prefix[..]);
        payload := [];
        if expected == 0 {
          Fail(InvalidInput);
        } else if expected > max {
          Fail(ResourceExhausted);
        }
      } else {
        assert bytes[start..position] == [];
      }
    }

    /** Copies as much of the announced payload as the input holds; hands it out when complete. */
    method CopyPayload(bytes: seq<Byte>, start: nat) returns (position: nat, done: seq<Payload>)
      requires Valid() && !failed && prefixSize == 4 && start <= |bytes|
      modifies this
      ensures Valid() && !failed && start <= position <= |bytes|
      ensures FeedBytes(max, old(D()), bytes[start..position]) == Fed(D(), done)
      ensures |done| == 0 ==> position == |bytes|
      ensures |done| > 0 ==> position > start
    {
      ghost var d := D();
      var remaining := expected - |payload|;
      var toCopy := if remaining < |bytes| - start then remaining else |bytes| - start;
      position := start + toCopy;
      payload := payload + bytes[start..position];
      if |payload| != expected {
        FeedIntoPayload(max, d, bytes[start..position]);
        return position, [];
      }
      FeedCompletes(max, d, bytes[start..position]);
      done := [payload];
      payload, prefixSize, expected := [], 0, 0;
    }

    /** The state and the output are those of the byte-by-byte decoder; a failing call hands out nothing. */
    method Feed(bytes: seq<Byte>) returns (state: FeedState, out: seq<Payload>)
      requires Valid()
      modifies this, prefix
      ensures Valid()
      ensures D() == FeedBytes(max, old(D()), bytes).d
      ensures out == Delivered(FeedBytes(max, old(D()), bytes))
      ensures state == if failed then FeedError else if |out| == 0 then NeedMore else FramesReady
    {
      ghost var origin := D();
      if failed {
        FeedFailed(max, origin, bytes);
        return FeedError, [];
      }
      out := [];
      var position := 0;
      while position < |bytes|
        invariant position <= |bytes| && Valid() && !failed
        invariant FeedBytes(max, origin, bytes[..position]) == Fed(D(), out)
        decreases |bytes| - position
      {
        ghost var before := Fed(D(), out);
        var afterHeader := ReadHeader(bytes, position);
        Resume(max, origin, bytes, position, afterHeader, before, Fed(D(), []));
        position := afterHeader;
        if failed {
          FeedFailed(max, D(), bytes[position..|bytes|]);
          Resume(max, origin, bytes, position, |bytes|, Fed(D(), out), Fed(D(), []));
          assert bytes[..|bytes|] == bytes;
          return FeedError, [];
        }
        if prefixSize < 4 { break; }
        before := Fed(D(), out);
        var afterPayload, done := CopyPayload(bytes, position);
        Resume(max, origin, bytes, position, afterPayload, before, Fed(D(), done));
        position := afterPayload;
        out := out + done;
        if |done| == 0 { break; }
      }
      assert bytes[..position] == bytes;
      state := if |out| == 0 then NeedMore else FramesReady;
    }
  }

  /** Feeding up to `b` is feeding up to `a` and then the bytes in between. */
  lemma Resume(max: Limit, d: Decoder, bytes: seq<Byte>, a: nat, b: nat, f: Fed, g: Fed)
    requires a <= b <= |bytes|
    requires FeedBytes(max, d, bytes[..a]) == f && FeedBytes(max, f.d, bytes[a..b]) == g
    ensures FeedBytes(max, d, bytes[..b]) == Fed(g.d, f.out + g.out)
    ensures g.out == [] ==> FeedBytes(max, d, bytes[..b]) == Fed(g.d, f.out)
  {
    assert bytes[..b] == bytes[..a] + bytes[a..b];
    FeedConcat(max, d, bytes[..a], bytes[a..b]);
  }

  // ---------- the client side

  /** A connection whose peer will send `incoming` and then close. */
  class Connection {
    var incoming: seq<Byte>

    constructor (bytes: seq<Byte>)
      ensures incoming == bytes
    {
      incoming := bytes;
    }

    /** Some of the bytes that have arrived, at most `limit`; none only at the end of the stream. */
    method Recv(limit: nat) returns (chunk: seq<Byte>)
      requires limit > 0
      modifies this
      ensures |chunk| <= limit && old(incoming) == chunk + incoming
      ensures |chunk| == 0 <==> |old(incoming)| == 0
    {
      if |incoming| == 0 { return []; }
      var n: nat :| 1 <= n <= limit && n <= |incoming|;
      chunk := incoming[..n];
      incoming := incoming[n..];
    }

    /** Exactly `size` bytes, or None when the stream ends first. */
    method ReceiveExact(size: nat) returns (r: Option<seq<Byte>>)
      modifies this
      ensures if |old(incoming)| >= size
              then r == Some(old(incoming)[..size]) && incoming == old(incoming)[size..]
              else r == None
    {
      var data: seq<Byte> := [];
      while |data| < size
        invariant |data| <= size && data + incoming == old(incoming)
        decreases size - |data|
      {
        var chunk := Recv(size - |data|);
        if |chunk| == 0 { return None; }
        data := data + chunk;
      }
      return Some(data);
    }

    /** The next frame of the stream, as `ReadFrame` defines it. */
    method ReceiveFrame(max: Limit) returns (r: ReadResult)
      modifies this
      ensures r == ReadFrame(max, old(incoming))
      ensures r.Got? ==> incoming == r.rest
    {
      var s := incoming;
      var prefix := ReceiveExact(4);
      if prefix.None? { return Eof; }
      var n := Value(prefix.value);
      if n == 0 { return Bad(InvalidInput); }
      if n > max { return Bad(ResourceExhausted); }
      var body := ReceiveExact(n);
      if body.None? { return Eof; }
      assert s[4..][..n] == s[4..4 + n] && s[4..][n..] == s[4 + n..];
      return Got(body.value, incoming);
    }
  }
}
