/**
 The session egress of the worker as a value: a strict-priority control queue, one FIFO
 per registered request, and a ring of the requests that have something queued. Nothing
 is cached here: frame, byte and reservation totals are recomputed from the queues, in
 exact arithmetic. `SessionEgress` is the counter-caching 64-bit form that refines it.
 */
module EgressModel {
  import opened Messages
  import opened Sums
  import opened Word64

  datatype RawConfig = RawConfig(
    maxFramePayload: nat,
    maxSessionFrames: nat,
    maxSessionBytes: nat,
    maxRequestFrames: nat,
    maxRequestBytes: nat,
    controlFrames: nat,
    controlBytes: nat,
    terminalReserve: nat)

  /** The widths of the configuration fields. */
  predicate Typed(c: RawConfig) {
    && c.maxFramePayload < U32 && c.maxSessionFrames < U32
    && c.maxRequestFrames < U32 && c.controlFrames < U32
    && c.maxSessionBytes < U64 && c.maxRequestBytes < U64
    && c.controlBytes < U64 && c.terminalReserve < U64
  }

  /** The configurations the constructor does not throw on. */
  predicate ValidConfig(c: RawConfig) {
    && Typed(c)
    && c.maxFramePayload > 0 && c.terminalReserve > 0
    && 0 < c.controlFrames < c.maxSessionFrames
    && 0 < c.controlBytes < c.maxSessionBytes
    && 0 < c.maxRequestFrames <= c.maxSessionFrames - c.controlFrames
    && 0 < c.maxRequestBytes <= c.maxSessionBytes - c.controlBytes
    && c.terminalReserve <= c.maxRequestBytes
  }

  type Config = c: RawConfig | ValidConfig(c) witness RawConfig(1, 2, 2, 1, 1, 1, 1, 1)

  function FrameCapacity(c: Config): nat { c.maxSessionFrames - c.controlFrames }
  function ByteCapacity(c: Config): nat { c.maxSessionBytes - c.controlBytes }

  datatype Sized = Sized(msg: Message, bytes: nat)
  type Queue = seq<Sized>

  datatype State = State(control: Queue, queues: map<Id, Queue>, ring: seq<Id>, accepting: bool)

  const FRESH := State([], map[], [], true)
  const HALTED := State([], map[], [], false)

  function Bytes(q: Queue): nat {
    if |q| == 0 then 0 else Bytes(q[..|q| - 1]) + q[|q| - 1].bytes
  }

  predicate Finished(q: Queue) {
    |q| > 0 && q[|q| - 1].msg.Terminal?
  }

  /** Frames reserved for the Terminal that `q` still owes. */
  function Owed(q: Queue): nat { if Finished(q) then 0 else 1 }
  function QueueLength(q: Queue): nat { |q| }
  function QueueBytes(q: Queue): nat { Bytes(q) }

  ghost function Frames(s: State): nat { MapSum(s.queues, QueueLength) }
  ghost function TotalBytes(s: State): nat { MapSum(s.queues, QueueBytes) }
  ghost function Reservations(s: State): nat { MapSum(s.queues, Owed) }

  function QueueOf(s: State, id: Id): Queue {
    if id in s.queues then s.queues[id] else []
  }

  // ---------- invariant

  predicate Distinct(ring: seq<Id>) {
    forall i, j | 0 <= i < j < |ring| :: ring[i] != ring[j]
  }

  /** The ring lists each request with something queued exactly once, and nothing else. */
  ghost predicate RingOk(s: State) {
    && Distinct(s.ring)
    && (forall id :: id in s.ring <==> id in s.queues && |s.queues[id]| > 0)
  }

  predicate SizeOk(c: Config, m: Sized) {
    4 < m.bytes <= 4 + c.maxFramePayload
  }

  /** Deltas of `id`, the last entry possibly its Terminal, inside the per-request capacity. */
  predicate QueueOk(c: Config, id: Id, q: Queue) {
    && id != 0
    && (forall i | 0 <= i < |q| :: SizeOk(c, q[i]) && (q[i].msg.Delta? || q[i].msg.Terminal?) && q[i].msg.id == id)
    && (forall i | 0 <= i < |q| - 1 :: q[i].msg.Delta?)
    && |q| + Owed(q) <= c.maxRequestFrames
    && Bytes(q) + (if Finished(q) then 0 else c.terminalReserve) <= c.maxRequestBytes
  }

  predicate ControlOk(c: Config, q: Queue) {
    && (forall i | 0 <= i < |q| :: SizeOk(c, q[i]) && IsControl(q[i].msg))
    && |q| <= c.controlFrames
    && Bytes(q) <= c.controlBytes
  }

  /** Queued request traffic plus every outstanding Terminal reservation fits the partition. */
  ghost predicate CapacityOk(c: Config, s: State)
  {
    && Frames(s) + Reservations(s) <= FrameCapacity(c)
    && TotalBytes(s) + Times(Reservations(s), c.terminalReserve) <= ByteCapacity(c)
  }

  ghost predicate Inv(c: Config, s: State) {
    && RingOk(s)
    && (forall id | id in s.queues :: QueueOk(c, id, s.queues[id]))
    && ControlOk(c, s.control)
    && CapacityOk(c, s)
    && (!s.accepting ==> s == HALTED)
  }

  // ---------- operations

  datatype EnqueueCode =
    | Enqueued | Stopped | UnknownRequest | InvalidMessage | ControlFull | RequestFull | SessionFull

  datatype PopResult = Popped(msg: Message) | PopTimeout | PopStopped

  /** Frame size of an encoded payload, or None when the payload cannot be framed. */
  function FrameSize(c: Config, payload: Option<nat>): Option<nat> {
    if payload.None? || payload.value == 0 || payload.value > c.maxFramePayload then None
    else Some(4 + payload.value)
  }

  ghost function Register(c: Config, s: State, id: Id): (r: (State, StatusCode))
  {
    if id == 0 then (s, InvalidInput)
    else if !s.accepting then (s, Unavailable)
    else if id in s.queues then (s, AlreadyExists)
    else if
      || Frames(s) + Reservations(s) + 1 > FrameCapacity(c)
      || TotalBytes(s) + Times(Reservations(s) + 1, c.terminalReserve) > ByteCapacity(c)
    then (s, QueueFull)
    else (s.(queues := s.queues[id := []]), StatusOk)
  }

  function Without(ring: seq<Id>, id: Id): (r: seq<Id>) {
    if ring == [] then []
    else (if ring[0] == id then [] else [ring[0]]) + Without(ring[1..], id)
  }

  function Abandon(s: State, id: Id): (r: (State, bool)) {
    if id !in s.queues then (s, false)
    else (s.(queues := s.queues - {id}, ring := Without(s.ring, id)), true)
  }

  function EnqueueControl(c: Config, s: State, m: Message, payload: Option<nat>): (r: (State, EnqueueCode)) {
    var size := FrameSize(c, payload);
    if !IsControl(m) || size.None? then (s, InvalidMessage)
    else if !s.accepting then (s, Stopped)
    else if |s.control| + 1 > c.controlFrames || Bytes(s.control) + size.value > c.controlBytes then (s, ControlFull)
    else (s.(control := s.control + [Sized(m, size.value)]), Enqueued)
  }

  /** `m` joins the queue of `id`, which joins the ring unless it is already there. */
  function Append(s: State, id: Id, m: Sized): State
    requires id in s.queues
  {
    s.(queues := s.queues[id := s.queues[id] + [m]],
       ring := if |s.queues[id]| == 0 then s.ring + [id] else s.ring)
  }

  ghost function EnqueueDelta(c: Config, s: State, id: Id, m: Message, payload: Option<nat>): (r: (State, EnqueueCode))
  {
    var size := FrameSize(c, payload);
    if !m.Delta? || m.id != id || size.None? then (s, InvalidMessage)
    else if !s.accepting then (s, Stopped)
    else if id !in s.queues then (s, UnknownRequest)
    else if Finished(s.queues[id]) then (s, InvalidMessage)
    else if
      || |s.queues[id]| + 2 > c.maxRequestFrames
      || size.value + Bytes(s.queues[id]) + c.terminalReserve > c.maxRequestBytes
    then (s, RequestFull)
    else if
      || Frames(s) + 1 + Reservations(s) > FrameCapacity(c)
      || size.value + TotalBytes(s) + Times(Reservations(s), c.terminalReserve) > ByteCapacity(c)
    then (s, SessionFull)
    else (Append(s, id, Sized(m, size.value)), Enqueued)
  }

  function EnqueueTerminal(c: Config, s: State, id: Id, m: Message, payload: Option<nat>): (r: (State, EnqueueCode)) {
    var size := FrameSize(c, payload);
    if !m.Terminal? || m.id != id || size.None? then (s, InvalidMessage)
    else if !s.accepting then (s, Stopped)
    else if id !in s.queues then (s, UnknownRequest)
    else if Finished(s.queues[id]) || size.value > c.terminalReserve then (s, InvalidMessage)
    else if |s.queues[id]| + 1 > c.maxRequestFrames || Bytes(s.queues[id]) + size.value > c.maxRequestBytes
    then (s, RequestFull)
    else (Append(s, id, Sized(m, size.value)), Enqueued)
  }

  /**
   Delivers the head of the control queue, or else the head of the first request of the
   ring. (By `RingOk` the request at the head of the ring has something queued.)
   */
  function Pop(s: State): (r: (State, PopResult)) {
    if |s.control| > 0 then (s.(control := s.control[1..]), Popped(s.control[0].msg))
    else if |s.ring| == 0 || |QueueOf(s, s.ring[0])| == 0 then (s, if s.accepting then PopTimeout else PopStopped)
    else
      var id := s.ring[0];
      var q := s.queues[id];
      var rest := s.ring[1..];
      (if |q| > 1 then s.(queues := s.queues[id := q[1..]], ring := rest + [id])
       else if q[0].msg.Terminal? then s.(queues := s.queues - {id}, ring := rest)
       else s.(queues := s.queues[id := []], ring := rest),
       Popped(q[0].msg))
  }

  // ---------- every operation keeps the invariant

  lemma TotalsSet(s: State, id: Id, q: Queue)
    ensures MapSum(s.queues[id := q], QueueLength) == Frames(s) - At(s.queues, QueueLength, id) + |q|
    ensures MapSum(s.queues[id := q], QueueBytes) == TotalBytes(s) - At(s.queues, QueueBytes, id) + Bytes(q)
    ensures MapSum(s.queues[id := q], Owed) == Reservations(s) - At(s.queues, Owed, id) + Owed(q)
  {
    MapSumSet(s.queues, QueueLength, id, q);
    MapSumSet(s.queues, QueueBytes, id, q);
    MapSumSet(s.queues, Owed, id, q);
  }

  lemma TotalsDrop(s: State, id: Id)
    ensures MapSum(s.queues - {id}, QueueLength) == Frames(s) - At(s.queues, QueueLength, id)
    ensures MapSum(s.queues - {id}, QueueBytes) == TotalBytes(s) - At(s.queues, QueueBytes, id)
    ensures MapSum(s.queues - {id}, Owed) == Reservations(s) - At(s.queues, Owed, id)
  {
    MapSumDrop(s.queues, QueueLength, id);
    MapSumDrop(s.queues, QueueBytes, id);
    MapSumDrop(s.queues, Owed, id);
  }

  lemma {:induction false} BytesTail(q: Queue)
    requires q != []
    ensures Bytes(q) == q[0].bytes + Bytes(q[1..])
  {
    if |q| > 1 {
      assert q[..|q| - 1][1..] == q[1..][..|q| - 2];
      BytesTail(q[..|q| - 1]);
    }
  }

  lemma BytesSnoc(q: Queue, m: Sized)
    ensures Bytes(q + [m]) == Bytes(q) + m.bytes
  {
    assert (q + [m])[..|q|] == q;
  }

  lemma {:induction false} WithoutSpec(ring: seq<Id>, id: Id)
    requires Distinct(ring)
    ensures Distinct(Without(ring, id))
    ensures forall x :: x in Without(ring, id) <==> x in ring && x != id
    ensures id !in ring ==> Without(ring, id) == ring
  {
    if ring != [] {
      assert forall i, j | 0 <= i < j < |ring[1..]| :: ring[1..][i] != ring[1..][j] by {
        assert forall i | 0 <= i < |ring[1..]| :: ring[1..][i] == ring[i + 1];
      }
      WithoutSpec(ring[1..], id);
      assert forall x :: x in ring <==> x == ring[0] || x in ring[1..];
      assert ring[0] !in ring[1..];
    }
  }

  lemma FreshInv(c: Config)
    ensures Inv(c, FRESH) && Inv(c, HALTED)
  {
  }

  lemma RegisterTotals(s: State, id: Id)
    requires id !in s.queues
    ensures
      var t := s.(queues := s.queues[id := []]);
      Frames(t) == Frames(s) && TotalBytes(t) == TotalBytes(s) && Reservations(t) == Reservations(s) + 1
  {
    TotalsSet(s, id, []);
  }

  lemma RegisterRing(s: State, id: Id)
    requires RingOk(s) && id !in s.queues
    ensures RingOk(s.(queues := s.queues[id := []]))
  {
  }

  lemma RegisterInv(c: Config, s: State, id: Id)
    requires Inv(c, s)
    ensures Inv(c, Register(c, s, id).0)
  {
    if Register(c, s, id).1 == StatusOk {
      var t := s.(queues := s.queues[id := []]);
      assert CapacityOk(c, t) by { RegisterTotals(s, id); }
      assert RingOk(t) by { RegisterRing(s, id); }
      assert QueueOk(c, id, []);
    }
  }

  lemma AbandonCapacity(c: Config, s: State, id: Id)
    requires CapacityOk(c, s)
    ensures CapacityOk(c, Abandon(s, id).0)
  {
    if id in s.queues {
      TotalsDrop(s, id);
      MapSumBounds(s.queues, Owed, id);
    }
  }

  lemma AbandonRing(s: State, id: Id)
    requires RingOk(s)
    ensures RingOk(Abandon(s, id).0)
  {
    WithoutSpec(s.ring, id);
  }

  lemma AbandonInv(c: Config, s: State, id: Id)
    requires Inv(c, s)
    ensures Inv(c, Abandon(s, id).0)
  {
    AbandonCapacity(c, s, id);
    AbandonRing(s, id);
  }

  lemma EnqueueControlInv(c: Config, s: State, m: Message, payload: Option<nat>)
    requires Inv(c, s)
    ensures Inv(c, EnqueueControl(c, s, m, payload).0)
  {
    var t := EnqueueControl(c, s, m, payload).0;
    assert ControlOk(c, t.control) by {
      if FrameSize(c, payload).Some? {
        BytesSnoc(s.control, Sized(m, FrameSize(c, payload).value));
      }
    }
    assert t.queues == s.queues && t.ring == s.ring;
  }

  lemma AppendRing(s: State, id: Id, m: Sized)
    requires RingOk(s) && id in s.queues
    ensures RingOk(Append(s, id, m))
  {
    var t := Append(s, id, m);
    forall x ensures x in t.ring <==> x in t.queues && |t.queues[x]| > 0 {
      assert x in s.ring <==> x in s.queues && |s.queues[x]| > 0;
    }
  }

  /** The new entry keeps the queue in its own capacity. */
  lemma AppendQueueOk(c: Config, id: Id, q: Queue, e: Sized)
    requires QueueOk(c, id, q) && !Finished(q) && SizeOk(c, e)
    requires (e.msg.Delta? || e.msg.Terminal?) && e.msg.id == id
    requires |q| + (if e.msg.Terminal? then 1 else 2) <= c.maxRequestFrames
    requires Bytes(q) + e.bytes + (if e.msg.Terminal? then 0 else c.terminalReserve) <= c.maxRequestBytes
    ensures QueueOk(c, id, q + [e])
  {
    var r := q + [e];
    BytesSnoc(q, e);
    forall i | 0 <= i < |r|
      ensures SizeOk(c, r[i]) && (r[i].msg.Delta? || r[i].msg.Terminal?) && r[i].msg.id == id
    {
      if i < |q| { assert r[i] == q[i]; }
    }
    forall i | 0 <= i < |r| - 1 ensures r[i].msg.Delta? {
      assert r[i] == q[i];
    }
  }

  lemma AppendTotals(s: State, id: Id, e: Sized)
    requires id in s.queues && !Finished(s.queues[id])
    ensures Frames(Append(s, id, e)) == Frames(s) + 1
    ensures TotalBytes(Append(s, id, e)) == TotalBytes(s) + e.bytes
    ensures Reservations(Append(s, id, e)) == Reservations(s) - (if e.msg.Terminal? then 1 else 0)
    ensures Reservations(s) > 0
  {
    BytesSnoc(s.queues[id], e);
    TotalsSet(s, id, s.queues[id] + [e]);
    MapSumBounds(s.queues, Owed, id);
  }

  lemma AppendInv(c: Config, s: State, id: Id, e: Sized)
    requires Inv(c, s) && s.accepting && id in s.queues
    requires QueueOk(c, id, s.queues[id] + [e])
    requires CapacityOk(c, Append(s, id, e))
    ensures Inv(c, Append(s, id, e))
  {
    AppendRing(s, id, e);
  }

  lemma DeltaCapacity(c: Config, s: State, id: Id, e: Sized)
    requires id in s.queues && !Finished(s.queues[id]) && e.msg.Delta?
    requires Frames(s) + 1 + Reservations(s) <= FrameCapacity(c)
    requires e.bytes + TotalBytes(s) + Times(Reservations(s), c.terminalReserve) <= ByteCapacity(c)
    ensures CapacityOk(c, Append(s, id, e))
  {
    AppendTotals(s, id, e);
  }

  lemma EnqueueDeltaInv(c: Config, s: State, id: Id, m: Message, payload: Option<nat>)
    requires Inv(c, s)
    ensures Inv(c, EnqueueDelta(c, s, id, m, payload).0)
  {
    if EnqueueDelta(c, s, id, m, payload).1 == Enqueued {
      var e := Sized(m, FrameSize(c, payload).value);
      AppendQueueOk(c, id, s.queues[id], e);
      DeltaCapacity(c, s, id, e);
      AppendInv(c, s, id, e);
    }
  }

  /** The Terminal takes the frame and the bytes that were reserved for it. */
  lemma TerminalCapacity(c: Config, s: State, id: Id, e: Sized)
    requires CapacityOk(c, s)
    requires id in s.queues && !Finished(s.queues[id])
    requires e.msg.Terminal? && e.bytes <= c.terminalReserve
    ensures CapacityOk(c, Append(s, id, e))
  {
    AppendTotals(s, id, e);
  }

  lemma EnqueueTerminalInv(c: Config, s: State, id: Id, m: Message, payload: Option<nat>)
    requires Inv(c, s)
    ensures Inv(c, EnqueueTerminal(c, s, id, m, payload).0)
  {
    if EnqueueTerminal(c, s, id, m, payload).1 == Enqueued {
      var e := Sized(m, FrameSize(c, payload).value);
      AppendQueueOk(c, id, s.queues[id], e);
      TerminalCapacity(c, s, id, e);
      AppendInv(c, s, id, e);
    }
  }

  lemma PopQueueOk(c: Config, id: Id, q: Queue)
    requires QueueOk(c, id, q) && |q| > 1
    ensures QueueOk(c, id, q[1..]) && Owed(q[1..]) == Owed(q) && q[0].msg.Delta?
  {
    BytesTail(q);
  }

  lemma PopRing(s: State)
    requires RingOk(s) && |s.control| == 0 && |s.ring| > 0
    ensures RingOk(Pop(s).0)
  {
    var id := s.ring[0];
    var t := Pop(s).0;
    assert id !in s.ring[1..];
    assert forall x :: x in s.ring <==> x == id || x in s.ring[1..];
    forall x ensures x in t.ring <==> x in t.queues && |t.queues[x]| > 0 {
      assert x in s.ring <==> x in s.queues && |s.queues[x]| > 0;
    }
  }

  /** A request pop frees one frame and its bytes, and no reservation. */
  lemma PopTotals(c: Config, s: State)
    requires Inv(c, s) && |s.control| == 0 && |s.ring| > 0 && |QueueOf(s, s.ring[0])| > 0
    ensures
      var t := Pop(s).0;
      && Frames(t) == Frames(s) - 1
      && TotalBytes(t) == TotalBytes(s) - QueueOf(s, s.ring[0])[0].bytes
      && Reservations(t) == Reservations(s)
  {
    var id := s.ring[0];
    assert id in s.ring;
    var q := s.queues[id];
    BytesTail(q);
    TotalsSet(s, id, q[1..]);
    TotalsDrop(s, id);
    if |q| > 1 {
      PopQueueOk(c, id, q);
    } else {
      assert q[1..] == [];
    }
  }

  lemma PopQueues(c: Config, s: State, id: Id)
    requires Inv(c, s) && |s.control| == 0 && |s.ring| > 0 && id in Pop(s).0.queues
    ensures QueueOk(c, id, Pop(s).0.queues[id])
  {
    assert s.ring[0] in s.ring;
    if id == s.ring[0] && |s.queues[id]| > 1 {
      PopQueueOk(c, id, s.queues[id]);
    }
  }

  lemma PopInv(c: Config, s: State)
    requires Inv(c, s)
    ensures Inv(c, Pop(s).0)
  {
    if |s.control| > 0 {
      BytesTail(s.control);
    } else if |s.ring| > 0 {
      PopRing(s);
      assert s.ring[0] in s.ring;
      PopTotals(c, s);
      forall id | id in Pop(s).0.queues ensures QueueOk(c, id, Pop(s).0.queues[id]) {
        PopQueues(c, s, id);
      }
    }
  }
}
