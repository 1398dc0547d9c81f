/**
 Length-prefixed framing: the encoder, the incremental push decoder of the worker and the
 blocking pull reader of the client, all over the same byte stream.
 */
module Framing {
  import opened Messages

  type Byte = b: nat | b < 256
  type Payload = seq<Byte>

  const MAX_U32: nat := 0xFFFF_FFFF

  /** The limit is a positive 32-bit number; the constructor throws otherwise. */
  type Limit = n: nat | 0 < n <= MAX_U32 witness 1

  // ---------- encoder

  datatype Encoded = Frame(bytes: seq<Byte>) | EncodeError(code: StatusCode)

  function BigEndian(n: nat): (bs: seq<Byte>)
    requires n <= MAX_U32
    ensures |bs| == 4 && Value(bs) == n
  {
    var q := n / 256;
    var r := q / 256;
    [r / 256, r % 256, q % 256, n % 256]
  }

  function Value(prefix: seq<Byte>): nat
    requires |prefix| == 4
  {
    prefix[0] as nat * 0x100_0000 + prefix[1] as nat * 0x1_0000 + prefix[2] as nat * 256 + prefix[3] as nat
  }

  /** Payloads that can be framed under `max`. */
  predicate Legal(max: nat, p: Payload) {
    0 < |p| <= max && |p| <= MAX_U32
  }

  function EncodeFrame(p: Payload, max: nat): (r: Encoded)
    ensures r.Frame? <==> Legal(max, p)
    ensures r.Frame? ==> |r.bytes| == 4 + |p| && Value(r.bytes[..4]) == |p| && r.bytes[4..] == p
    ensures r == EncodeError(ResourceExhausted) <==> max > 0 && |p| > 0 && (|p| > max || |p| > MAX_U32)
  {
    if max == 0 || |p| == 0 then EncodeError(InvalidInput)
    else if |p| > max || |p| > MAX_U32 then EncodeError(ResourceExhausted)
    else Frame(BigEndian(|p|) + p)
  }

  // ---------- the push decoder, one byte at a time

  datatype Decoder = Decoder(prefix: seq<Byte>, expected: nat, payload: Payload, failure: Option<StatusCode>)

  const IDLE := Decoder([], 0, [], None)

  function Failed(code: StatusCode): Decoder { Decoder([], 0, [], Some(code)) }

  predicate HasPartialFrame(d: Decoder) { |d.prefix| != 0 || d.expected != 0 }

  /** The decoder after a full prefix: failed, or waiting for the announced payload. */
  function Announced(max: Limit, prefix: seq<Byte>): Decoder
    requires |prefix| == 4
  {
    var n := Value(prefix);
    if n == 0 then Failed(InvalidInput)
    else if n > max then Failed(ResourceExhausted)
    else Decoder(prefix, n, [], None)
  }

  datatype Fed = Fed(d: Decoder, out: seq<Payload>)

  function FeedByte(max: Limit, d: Decoder, b: Byte): Fed {
    if d.failure.Some? then Fed(d, [])
    else if |d.prefix| < 3 then Fed(d.(prefix := d.prefix + [b]), [])
    else if |d.prefix| == 3 then Fed(Announced(max, d.prefix + [b]), [])
    else if |d.payload| + 1 == d.expected then Fed(IDLE, [d.payload + [b]])
    else Fed(d.(payload := d.payload + [b]), [])
  }

  /** The reference decoder: bytes one by one, every completed payload collected. */
  function FeedBytes(max: Limit, d: Decoder, bs: seq<Byte>): Fed {
    if |bs| == 0 then Fed(d, [])
    else
      var f := FeedBytes(max, d, bs[..|bs| - 1]);
      var g := FeedByte(max, f.d, bs[|bs| - 1]);
      Fed(g.d, f.out + g.out)
  }

  lemma {:induction false} FeedConcat(max: Limit, d: Decoder, a: seq<Byte>, b: seq<Byte>)
    ensures
      var f := FeedBytes(max, d, a);
      var g := FeedBytes(max, f.d, b);
      FeedBytes(max, d, a + b) == Fed(g.d, f.out + g.out)
  {
    if |b| == 0 {
      assert a + b == a;
    } else {
      var n := |b| - 1;
      assert (a + b)[..|a| + n] == a + b[..n];
      FeedConcat(max, d, a, b[..n]);
    }
  }

  /** States a decoder can be in; the payload buffer never outgrows the limit. */
  predicate DecoderOk(max: Limit, d: Decoder) {
    if d.failure.Some? then d == Failed(d.failure.value)
    else if |d.prefix| < 4 then d.expected == 0 && |d.payload| == 0
    else |d.prefix| == 4 && d.expected == Value(d.prefix) && |d.payload| < d.expected <= max
  }

  lemma {:induction false} FeedOk(max: Limit, d: Decoder, bs: seq<Byte>)
    requires DecoderOk(max, d)
    ensures DecoderOk(max, FeedBytes(max, d, bs).d)
    ensures forall i | 0 <= i < |FeedBytes(max, d, bs).out| :: Legal(max, FeedBytes(max, d, bs).out[i])
  {
    if |bs| > 0 { FeedOk(max, d, bs[..|bs| - 1]); }
  }

  lemma {:induction false} FeedFailed(max: Limit, d: Decoder, bs: seq<Byte>)
    requires d.failure.Some?
    ensures FeedBytes(max, d, bs) == Fed(d, [])
  {
    if |bs| > 0 { FeedFailed(max, d, bs[..|bs| - 1]); }
  }

  /** Bytes that do not complete the prefix only lengthen it. */
  lemma {:induction false} FeedIntoPrefix(max: Limit, d: Decoder, bs: seq<Byte>)
    requires d.failure.None? && |d.prefix| + |bs| < 4
    ensures FeedBytes(max, d, bs) == Fed(d.(prefix := d.prefix + bs), [])
  {
    if |bs| > 0 {
      var n := |bs| - 1;
      FeedIntoPrefix(max, d, bs[..n]);
      assert d.prefix + bs == (d.prefix + bs[..n]) + [bs[n]];
    } else {
      assert d.prefix + bs == d.prefix;
    }
  }

  /** Bytes that do not complete the payload only lengthen it. */
  lemma {:induction false} FeedIntoPayload(max: Limit, d: Decoder, bs: seq<Byte>)
    requires d.failure.None? && |d.prefix| == 4 && |d.payload| + |bs| < d.expected
    ensures FeedBytes(max, d, bs) == Fed(d.(payload := d.payload + bs), [])
  {
    if |bs| > 0 {
      var n := |bs| - 1;
      FeedIntoPayload(max, d, bs[..n]);
      assert d.payload + bs == (d.payload + bs[..n]) + [bs[n]];
    } else {
      assert d.payload + bs == d.payload;
    }
  }

  /** Exactly the missing payload bytes complete one frame. */
  lemma FeedCompletes(max: Limit, d: Decoder, bs: seq<Byte>)
    requires d.failure.None? && |d.prefix| == 4 && |d.payload| + |bs| == d.expected && |bs| > 0
    ensures FeedBytes(max, d, bs) == Fed(IDLE, [d.payload + bs])
  {
    var n := |bs| - 1;
    FeedIntoPayload(max, d, bs[..n]);
    assert d.payload + bs == (d.payload + bs[..n]) + [bs[n]];
  }

  lemma FeedHeader(max: Limit, d: Decoder, bs: seq<Byte>)
    requires d.failure.None? && |d.prefix| < 4 && |d.prefix| + |bs| == 4
    ensures FeedBytes(max, d, bs) == Fed(Announced(max, d.prefix + bs), [])
  {
    var n := |bs| - 1;
    FeedIntoPrefix(max, d, bs[..n]);
    assert d.prefix + bs == (d.prefix + bs[..n]) + [bs[n]];
  }

  // ---------- feed calls and chunking

  /** What one call of `feed` hands out: nothing, if it fails. */
  function Delivered(f: Fed): seq<Payload> {
    if f.d.failure.Some? then [] else f.out
  }

  function FeedChunks(max: Limit, d: Decoder, chunks: seq<seq<Byte>>): Fed {
    if |chunks| == 0 then Fed(d, [])
    else
      var f := FeedChunks(max, d, chunks[..|chunks| - 1]);
      var g := FeedBytes(max, f.d, chunks[|chunks| - 1]);
      Fed(g.d, f.out + Delivered(g))
  }

  function Join(chunks: seq<seq<Byte>>): seq<Byte> {
    if |chunks| == 0 then [] else Join(chunks[..|chunks| - 1]) + chunks[|chunks| - 1]
  }

  /**
   However the stream is cut up, the decoder ends in the state that the bytes alone decide;
   unless it fails, it hands out all completed payloads, and if it fails, a prefix of them.
   */
  lemma {:induction false} ChunkingIndependence(max: Limit, chunks: seq<seq<Byte>>)
    ensures
      var f := FeedChunks(max, IDLE, chunks);
      var g := FeedBytes(max, IDLE, Join(chunks));
      && f.d == g.d
      && f.out <= g.out
      && (g.d.failure.None? ==> f.out == g.out)
  {
    if |chunks| > 0 {
      var (before, last) := (chunks[..|chunks| - 1], chunks[|chunks| - 1]);
      ChunkingIndependence(max, before);
      FeedConcat(max, IDLE, Join(before), last);
      var g := FeedBytes(max, IDLE, Join(before));
      if g.d.failure.Some? {
        FeedFailed(max, g.d, last);
      }
    }
  }

  /** Two ways of cutting up the same bytes are indistinguishable in state, and in output unless they fail. */
  lemma AnyTwoSplits(max: Limit, a: seq<seq<Byte>>, b: seq<seq<Byte>>)
    requires Join(a) == Join(b)
    ensures FeedChunks(max, IDLE, a).d == FeedChunks(max, IDLE, b).d
    ensures FeedChunks(max, IDLE, a).d.failure.None? ==> FeedChunks(max, IDLE, a).out == FeedChunks(max, IDLE, b).out
    ensures |FeedChunks(max, IDLE, a).out| <= |FeedChunks(max, IDLE, b).out| ==>
              FeedChunks(max, IDLE, a).out <= FeedChunks(max, IDLE, b).out
  {
    ChunkingIndependence(max, a);
    ChunkingIndependence(max, b);
  }

  lemma {:induction false} JoinConcat(a: seq<seq<Byte>>, b: seq<seq<Byte>>)
    ensures Join(a + b) == Join(a) + Join(b)
  {
    if |b| == 0 {
      assert a + b == a;
    } else {
      var n := |b| - 1;
      assert (a + b)[..|a| + n] == a + b[..n];
      JoinConcat(a, b[..n]);
    }
  }

  /** After the call that fails no call hands out anything. */
  lemma {:induction false} ChunksAfterFailure(max: Limit, pre: seq<seq<Byte>>, post: seq<seq<Byte>>)
    requires FeedChunks(max, IDLE, pre).d.failure.Some?
    ensures FeedChunks(max, IDLE, pre + post) == FeedChunks(max, IDLE, pre)
  {
    if |post| == 0 {
      assert pre + post == pre;
    } else {
      var n := |post| - 1;
      assert (pre + post)[..|pre| + n] == pre + post[..n];
      ChunksAfterFailure(max, pre, post[..n]);
      FeedFailed(max, FeedChunks(max, IDLE, pre).d, post[n]);
    }
  }

  /**
   What a stream that fails hands out, whatever the cut: exactly the payloads completed
   before the call that fails. That is all of them if and only if this call completed none.
   */
  lemma FailureLosesExactly(max: Limit, pre: seq<seq<Byte>>, bad: seq<Byte>, post: seq<seq<Byte>>)
    requires FeedBytes(max, IDLE, Join(pre)).d.failure.None?
    requires FeedBytes(max, IDLE, Join(pre) + bad).d.failure.Some?
    ensures FeedChunks(max, IDLE, pre + [bad] + post).out == FeedBytes(max, IDLE, Join(pre)).out
    ensures FeedChunks(max, IDLE, pre + [bad] + post).out == FeedBytes(max, IDLE, Join(pre + [bad] + post)).out
       <==> FeedBytes(max, FeedBytes(max, IDLE, Join(pre)).d, bad).out == []
  {
    var f := FeedBytes(max, IDLE, Join(pre));
    var g := FeedBytes(max, f.d, bad);
    ChunkingIndependence(max, pre);
    FeedConcat(max, IDLE, Join(pre), bad);
    assert (pre + [bad])[..|pre|] == pre;
    assert FeedChunks(max, IDLE, pre + [bad]) == Fed(g.d, f.out + []);
    ChunksAfterFailure(max, pre + [bad], post);
    JoinConcat(pre + [bad], post);
    FeedConcat(max, IDLE, Join(pre) + bad, Join(post));
    FeedFailed(max, g.d, Join(post));
    assert FeedBytes(max, IDLE, Join(pre + [bad] + post)).out == f.out + g.out + [];
    assert f.out + g.out == f.out <==> |g.out| == 0;
  }

  /** Every stream that fails has such a call. */
  lemma {:induction false} SomeCallFails(max: Limit, chunks: seq<seq<Byte>>) returns (n: nat)
    requires FeedChunks(max, IDLE, chunks).d.failure.Some?
    ensures n < |chunks|
    ensures FeedBytes(max, IDLE, Join(chunks[..n])).d.failure.None?
    ensures FeedBytes(max, IDLE, Join(chunks[..n]) + chunks[n]).d.failure.Some?
  {
    var before := chunks[..|chunks| - 1];
    ChunkingIndependence(max, chunks);
    ChunkingIndependence(max, before);
    if FeedChunks(max, IDLE, before).d.failure.Some? {
      n := SomeCallFails(max, before);
      assert before[..n] == chunks[..n];
    } else {
      n := |chunks| - 1;
    }
  }

  /** So how much arrives depends on the cut: here one payload, or none. */
  lemma FailureDropsOwnPayloads()
    ensures
      var (frame, bad) := ([0, 0, 0, 1, 7], [0, 0, 0, 0]);
      && FeedChunks(9, IDLE, [frame, bad]).out == [[7]]
      && FeedChunks(9, IDLE, [frame + bad]).out == []
      && Join([frame, bad]) == Join([frame + bad])
  {
    var frame: seq<Byte>, bad: seq<Byte> := [0, 0, 0, 1, 7], [0, 0, 0, 0];
    assert FeedBytes(9, IDLE, frame) == Fed(IDLE, [[7]]) by {
      FrameDecodes(9, [7]);
      assert BigEndian(1) + [7] == frame;
    }
    assert FeedBytes(9, IDLE, bad) == Fed(Failed(InvalidInput), []) by {
      FeedHeader(9, IDLE, bad);
      assert IDLE.prefix + bad == bad;
    }
    FeedConcat(9, IDLE, frame, bad);
    FeedOne(9, frame);
    FeedOne(9, frame + bad);
    assert [frame, bad][..1] == [frame];
  }

  lemma FeedOne(max: Limit, chunk: seq<Byte>)
    ensures FeedChunks(max, IDLE, [chunk]) == Fed(FeedBytes(max, IDLE, chunk).d, Delivered(FeedBytes(max, IDLE, chunk)))
    ensures Join([chunk]) == chunk
  {
    assert [chunk][..0] == [];
  }

  // ---------- round trip

  lemma FrameDecodes(max: Limit, p: Payload)
    requires Legal(max, p)
    ensures FeedBytes(max, IDLE, EncodeFrame(p, max).bytes) == Fed(IDLE, [p])
  {
    var head := BigEndian(|p|);
    FeedHeader(max, IDLE, head);
    assert IDLE.prefix + head == head;
    FeedCompletes(max, Announced(max, head), p);
    assert [] + p == p;
    FeedConcat(max, IDLE, head, p);
  }

  function EncodeAll(max: Limit, ps: seq<Payload>): seq<Byte>
    requires forall i | 0 <= i < |ps| :: Legal(max, ps[i])
  {
    if |ps| == 0 then [] else EncodeAll(max, ps[..|ps| - 1]) + EncodeFrame(ps[|ps| - 1], max).bytes
  }

  lemma StreamSnoc(max: Limit, bytes: seq<Byte>, ps: seq<Payload>, p: Payload)
    requires Legal(max, p) && FeedBytes(max, IDLE, bytes) == Fed(IDLE, ps)
    ensures FeedBytes(max, IDLE, bytes + EncodeFrame(p, max).bytes) == Fed(IDLE, ps + [p])
  {
    FrameDecodes(max, p);
    FeedConcat(max, IDLE, bytes, EncodeFrame(p, max).bytes);
  }

  lemma {:induction false} StreamDecodes(max: Limit, ps: seq<Payload>)
    requires forall i | 0 <= i < |ps| :: Legal(max, ps[i])
    ensures FeedBytes(max, IDLE, EncodeAll(max, ps)) == Fed(IDLE, ps)
  {
    if |ps| > 0 {
      var n := |ps| - 1;
      StreamDecodes(max, ps[..n]);
      StreamSnoc(max, EncodeAll(max, ps[..n]), ps[..n], ps[n]);
      assert ps[..n] + [ps[n]] == ps;
    }
  }

  /** Frames written one after another and read back in any pieces are the payloads, with nothing left over. */
  lemma RoundTrip(max: Limit, ps: seq<Payload>, chunks: seq<seq<Byte>>)
    requires forall i | 0 <= i < |ps| :: Legal(max, ps[i])
    requires Join(chunks) == EncodeAll(max, ps)
    ensures FeedChunks(max, IDLE, chunks) == Fed(IDLE, ps)
    ensures !HasPartialFrame(FeedChunks(max, IDLE, chunks).d)
  {
    StreamDecodes(max, ps);
    ChunkingIndependence(max, chunks);
  }

  // ---------- the pull reader

  datatype ReadResult = Got(payload: Payload, rest: seq<Byte>) | Eof | Bad(code: StatusCode)

  /** One frame off the front of all the bytes that will ever arrive. */
  function ReadFrame(max: Limit, s: seq<Byte>): (r: ReadResult)
    ensures r.Got? ==> |r.rest| < |s|
  {
    if |s| < 4 then Eof
    else
      var n := Value(s[..4]);
      if n == 0 then Bad(InvalidInput)
      else if n > max then Bad(ResourceExhausted)
      else if |s| - 4 < n then Eof
      else Got(s[4..4 + n], s[4 + n..])
  }

  /** All frames up to the end of the stream or the first bad header. */
  function ReadAll(max: Limit, s: seq<Byte>): (seq<Payload>, ReadResult)
    decreases |s|
  {
    match ReadFrame(max, s)
    case Got(p, rest) => var (ps, last) := ReadAll(max, rest); ([p] + ps, last)
    case r => ([], r)
  }

  /** The frame in front is what the push decoder makes of the bytes in front. */
  lemma FrontFrame(max: Limit, head: seq<Byte>, p: Payload, rest: seq<Byte>)
    requires |head| == 4 && |p| == Value(head) && 0 < |p| <= max
    ensures
      var g := FeedBytes(max, IDLE, rest);
      FeedBytes(max, IDLE, head + (p + rest)) == Fed(g.d, [p] + g.out)
  {
    FeedHeader(max, IDLE, head);
    assert IDLE.prefix + head == head;
    FeedConcat(max, IDLE, head, p + rest);
    var d := Announced(max, head);
    FeedCompletes(max, d, p);
    assert [] + p == p;
    FeedConcat(max, d, p, rest);
  }

  lemma FrontOther(max: Limit, s: seq<Byte>)
    requires !ReadFrame(max, s).Got?
    ensures
      var f := FeedBytes(max, IDLE, s);
      && f.out == []
      && (if ReadFrame(max, s).Eof? then f.d.failure.None? else f.d.failure == Some(ReadFrame(max, s).code))
  {
    if |s| < 4 {
      FeedIntoPrefix(max, IDLE, s);
    } else {
      var (head, tail) := (s[..4], s[4..]);
      assert s == head + tail;
      FeedConcat(max, IDLE, head, tail);
      FeedHeader(max, IDLE, head);
      assert IDLE.prefix + head == head;
      var d := Announced(max, head);
      if d.failure.Some? {
        FeedFailed(max, d, tail);
      } else {
        FeedIntoPayload(max, d, tail);
      }
    }
  }

  /**
   On every byte stream, well formed or not, the pull reader of the client and the push
   decoder of the worker agree: same payloads, and the reader stops on a bad header exactly
   when the decoder fails, for the same reason.
   */
  lemma {:induction false} PullAgreesWithPush(max: Limit, s: seq<Byte>)
    ensures
      var (ps, last) := ReadAll(max, s);
      var f := FeedBytes(max, IDLE, s);
      && ps == f.out
      && (last == Eof <==> f.d.failure.None?)
      && (f.d.failure.Some? ==> last == Bad(f.d.failure.value))
    decreases |s|
  {
    var r := ReadFrame(max, s);
    if r.Got? {
      var (head, p, rest) := (s[..4], r.payload, r.rest);
      assert s == head + (p + rest);
      FrontFrame(max, head, p, rest);
      PullAgreesWithPush(max, rest);
    } else {
      FrontOther(max, s);
    }
  }

  /** The pull reader gets back exactly the payloads that were framed, and then the end of the stream. */
  lemma PullReadsBack(max: Limit, ps: seq<Payload>)
    requires forall i | 0 <= i < |ps| :: Legal(max, ps[i])
    ensures ReadAll(max, EncodeAll(max, ps)) == (ps, Eof)
  {
    StreamDecodes(max, ps);
    PullAgreesWithPush(max, EncodeAll(max, ps));
  }
}
