/** The gateway side: incremental detokenisation, the session pump and its metrics gauges. */
module Gateway {
  import opened Messages
  import opened Sums
  import opened Word64

  type Decode = seq<int> -> string

  function Flatten(chunks: seq<seq<int>>): seq<int> {
    if |chunks| == 0 then [] else Flatten(chunks[..|chunks| - 1]) + chunks[|chunks| - 1]
  }

  function Concat(texts: seq<string>): string {
    if |texts| == 0 then [] else Concat(texts[..|texts| - 1]) + texts[|texts| - 1]
  }

  /** The whole text of the first `k` chunks, decoded at once; no text before the first chunk. */
  function TextOf(decode: Decode, chunks: seq<seq<int>>, k: nat): string
    requires k <= |chunks|
  {
    if k == 0 then [] else decode(Flatten(chunks[..k]))
  }

  /** The decoding of chunk `k` only extends what was decoded before it. */
  predicate Extends(decode: Decode, chunks: seq<seq<int>>, k: nat)
    requires k < |chunks|
  {
    TextOf(decode, chunks, k) <= TextOf(decode, chunks, k + 1)
  }

  /** Chunk `k` makes the pump drop: it rewrites emitted text, or its new text is refused. */
  predicate StopsAt(decode: Decode, chunks: seq<seq<int>>, accepts: seq<bool>, k: nat)
    requires |accepts| == |chunks| && k < |chunks|
  {
    || !Extends(decode, chunks, k)
    || (!accepts[k] && TextOf(decode, chunks, k) != TextOf(decode, chunks, k + 1))
  }

  class IncrementalDecoder {
    const decode: Decode
    var tokens: seq<int>
    var decoded: string

    constructor (decode: Decode)
      ensures this.decode == decode && tokens == [] && decoded == []
    {
      this.decode := decode;
      tokens, decoded := [], [];
    }

    /** The text `chunk` adds, or None when decoding would change text already emitted. */
    method Append(chunk: seq<int>) returns (r: Option<string>)
      modifies this
      ensures tokens == old(tokens) + chunk
      ensures r.Some? <==> old(decoded) <= decode(tokens)
      ensures r.Some? ==> decoded == decode(tokens) && old(decoded) + r.value == decoded
      ensures r.None? ==> decoded == old(decoded)
    {
      tokens := tokens + chunk;
      var text := decode(tokens);
      if !(decoded <= text) { return None; }
      r := Some(text[|decoded|..]);
      decoded := text;
    }
  }

  lemma FlattenPrefix(chunks: seq<seq<int>>, k: nat)
    requires k < |chunks|
    ensures Flatten(chunks[..k + 1]) == Flatten(chunks[..k]) + chunks[k]
  {
    assert chunks[..k + 1][..k] == chunks[..k];
  }

  lemma ConcatSnoc(texts: seq<string>, t: string)
    ensures Concat(texts + [t]) == Concat(texts) + t
  {
    assert (texts + [t])[..|texts|] == texts;
  }

  /** One delta through the decoder and into the client buffer: the texts emitted, or the decision to drop. */
  method OnDelta(decoder: IncrementalDecoder, chunk: seq<int>, accept: bool) returns (texts: seq<string>, drop: bool)
    modifies decoder
    ensures decoder.tokens == old(decoder.tokens) + chunk
    ensures
      var (before, after) := (old(decoder.decoded), decoder.decode(decoder.tokens));
      && (drop <==> !(before <= after) || (!accept && before != after))
      && (!drop ==> decoder.decoded == after && before + Concat(texts) == after)
    ensures drop ==> texts == []
  {
    var text := decoder.Append(chunk);
    if text.None? { return [], true; }
    if |text.value| == 0 { return [], false; }
    if !accept { return [], true; }
    assert Concat([] + [text.value]) == text.value by { ConcatSnoc([], text.value); }
    assert [] + [text.value] == [text.value];
    return [text.value], false;
  }

  lemma {:induction false} ConcatAll(a: seq<string>, b: seq<string>)
    ensures Concat(a + b) == Concat(a) + Concat(b)
  {
    if |b| == 0 {
      assert a + b == a;
    } else {
      var n := |b| - 1;
      assert a + b == (a + b[..n]) + [b[n]];
      ConcatSnoc(a + b[..n], b[n]);
      ConcatAll(a, b[..n]);
    }
  }

  /**
   The pump over a stream of token chunks. `accepts` says, chunk by chunk, whether the client
   buffer takes a text. It returns what was emitted and how many chunks it covers: all of
   them, or those before the first chunk that breaks the decoding or whose text is refused.
   */
  method Pump(decode: Decode, chunks: seq<seq<int>>, accepts: seq<bool>) returns (emitted: seq<string>, covered: nat)
    requires |accepts| == |chunks|
    ensures covered <= |chunks| && Concat(emitted) == TextOf(decode, chunks, covered)
    ensures forall j | 0 <= j < covered :: !StopsAt(decode, chunks, accepts, j)
    ensures covered < |chunks| ==> StopsAt(decode, chunks, accepts, covered)
  {
    var decoder := new IncrementalDecoder(decode);
    emitted, covered := [], 0;
    var dropping := false;
    for k := 0 to |chunks|
      invariant covered <= k && (!dropping ==> covered == k)
      invariant !dropping ==> decoder.tokens == Flatten(chunks[..k]) && decoder.decoded == TextOf(decode, chunks, k)
      invariant fresh(decoder) && decoder.decode == decode
      invariant Concat(emitted) == TextOf(decode, chunks, covered)
      invariant forall j | 0 <= j < covered :: !StopsAt(decode, chunks, accepts, j)
      invariant dropping ==> covered < |chunks| && StopsAt(decode, chunks, accepts, covered)
    {
      if !dropping {
        var texts, drop := OnDelta(decoder, chunks[k], accepts[k]);
        FlattenPrefix(chunks, k);
        assert decode(decoder.tokens) == TextOf(decode, chunks, k + 1);
        assert drop <==> StopsAt(decode, chunks, accepts, k);
        dropping := drop;
        if !drop {
          ConcatAll(emitted, texts);
          emitted, covered := emitted + texts, k + 1;
        }
      }
    }
  }

  /**
   For a tokenizer whose decoding only ever grows, no chunking breaks the stream: every chunk
   extends the text before it, so a client that keeps up receives the whole text.
   */
  lemma GrowingDecodeNeverBreaks(decode: Decode, chunks: seq<seq<int>>, k: nat)
    requires forall a: seq<int>, b: seq<int> :: decode(a) <= decode(a + b)
    requires k < |chunks|
    ensures Extends(decode, chunks, k)
  {
    FlattenPrefix(chunks, k);
    assert decode(Flatten(chunks[..k])) <= decode(Flatten(chunks[..k]) + chunks[k]);
  }

  // ---------- metrics gauges

  /** Buffered deltas per session, the shared gauge, and its high watermark. */
  datatype Gauges = Gauges(buffers: map<Id, nat>, abandoned: set<Id>, ended: set<Id>, gauge: nat, high: nat)

  datatype GaugeOp =
    | OpOpenSession(id: Id)
    | OpPut(id: Id)
    | OpGet(id: Id)
    | OpAbandon(id: Id)
    | OpTerminal(id: Id)

  /** The gauge decrement of the source, which never goes below zero. */
  function Lower(gauge: nat, n: nat): nat { if n <= gauge then gauge - n else 0 }

  function GaugeStep(capacity: nat, g: Gauges, op: GaugeOp): Gauges {
    if op.OpOpenSession? then
      if op.id in g.buffers then g else g.(buffers := g.buffers[op.id := 0])
    else if op.id !in g.buffers then g
    else
      var n := g.buffers[op.id];
      match op
      case OpPut(id) =>
        if id in g.ended || id in g.abandoned || n >= capacity then g
        else g.(buffers := g.buffers[id := n + 1], gauge := g.gauge + 1, high := Max(g.high, g.gauge + 1))
      case OpGet(id) => if n == 0 then g else g.(buffers := g.buffers[id := n - 1], gauge := Lower(g.gauge, 1))
      case OpAbandon(id) =>
        g.(abandoned := g.abandoned + {id}, buffers := g.buffers[id := 0], gauge := Lower(g.gauge, n))
      case OpTerminal(id) => g.(ended := g.ended + {id})
      case OpOpenSession(_) => g
  }

  function GaugeRun(capacity: nat, ops: seq<GaugeOp>): Gauges {
    if |ops| == 0 then Gauges(map[], {}, {}, 0, 0)
    else GaugeStep(capacity, GaugeRun(capacity, ops[..|ops| - 1]), ops[|ops| - 1])
  }

  function Count(n: nat): nat { n }

  lemma GaugeStepExact(capacity: nat, g: Gauges, op: GaugeOp)
    requires g.gauge == MapSum(g.buffers, Count) <= g.high
    ensures
      var h := GaugeStep(capacity, g, op);
      h.gauge == MapSum(h.buffers, Count) <= h.high && g.high <= h.high
  {
    if op.id in g.buffers {
      MapSumBounds(g.buffers, Count, op.id);
      MapSumSet(g.buffers, Count, op.id, g.buffers[op.id] + 1);
      MapSumSet(g.buffers, Count, op.id, 0);
      if g.buffers[op.id] > 0 {
        MapSumSet(g.buffers, Count, op.id, g.buffers[op.id] - 1);
      }
    } else {
      MapSumSet(g.buffers, Count, op.id, 0);
    }
  }

  /** In every run the shared gauge is the number of buffered deltas over all sessions, so its floor at zero is never hit. */
  lemma {:induction false} GaugeIsExact(capacity: nat, ops: seq<GaugeOp>)
    ensures var g := GaugeRun(capacity, ops); g.gauge == MapSum(g.buffers, Count) <= g.high
  {
    if |ops| > 0 {
      GaugeIsExact(capacity, ops[..|ops| - 1]);
      GaugeStepExact(capacity, GaugeRun(capacity, ops[..|ops| - 1]), ops[|ops| - 1]);
    }
  }
}
