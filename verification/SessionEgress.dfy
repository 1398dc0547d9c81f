/**
 The session egress as the worker runs it: cached 64-bit counters, a `scheduled` flag per
 request, and the ring. Every sum, product and difference below is written with the
 wrapping operations of `Word64`. For every valid configuration the answers of this code
 are those of the counter-free operations of `EgressModel` exactly as long as no check is
 made in a state where its sum does not fit a word; the class promises the same.
 */
module SessionEgress {
  import opened Messages
  import opened Sums
  import opened EgressModel
  import opened Word64
  import opened EgressRuns

  /** One more reservation, or one more frame, on top of a full partition still fits a 64-bit word. */
  predicate SafeConfig(c: Config) {
    ByteCapacity(c) + c.terminalReserve < U64 && ByteCapacity(c) + 4 + c.maxFramePayload < U64
  }

  datatype RequestQueue = RequestQueue(messages: Queue, queuedBytes: nat, scheduled: bool, terminalEnqueued: bool)

  /** The cached fields of one request queue agree with its messages. */
  predicate Agrees(q: RequestQueue) {
    && q.queuedBytes == Bytes(q.messages)
    && q.scheduled == (|q.messages| > 0)
    && q.terminalEnqueued == Finished(q.messages)
  }

  method ValidateConfiguration(c: RawConfig) returns (ok: bool)
    requires Typed(c)
    ensures ok <==> ValidConfig(c)
  {
    if || c.maxFramePayload == 0 || c.maxSessionFrames == 0 || c.maxSessionBytes == 0
       || c.maxRequestFrames == 0 || c.maxRequestBytes == 0
       || c.controlFrames == 0 || c.controlBytes == 0 || c.terminalReserve == 0
    {
      return false;
    }
    if c.controlFrames >= c.maxSessionFrames || c.controlBytes >= c.maxSessionBytes {
      return false;
    }
    if || c.maxRequestFrames > Sub(c.maxSessionFrames, c.controlFrames)
       || c.maxRequestBytes > Sub(c.maxSessionBytes, c.controlBytes)
    {
      return false;
    }
    return c.terminalReserve <= c.maxRequestBytes;
  }

  // ---------- the capacity checks

  /** The admission check of `registerRequest`, as the code computes it. */
  predicate RegisterFits(c: Config, frames: nat, bytes: nat, reservations: nat) {
    && Add(Add(frames, reservations), 1) <= FrameCapacity(c)
    && Add(bytes, Mul(Add(reservations, 1), c.terminalReserve)) <= ByteCapacity(c)
  }

  /** The capacity checks of the three enqueue operations, as the code computes them. */
  predicate ControlIsFull(c: Config, frames: nat, bytes: nat, size: nat) {
    || Add(frames, 1) > c.controlFrames
    || size > Sub(c.controlBytes, bytes)
  }

  predicate RequestIsFull(c: Config, frames: nat, bytes: nat, size: nat) {
    || Add(frames, 2) > c.maxRequestFrames
    || Add(Add(size, bytes), c.terminalReserve) > c.maxRequestBytes
  }

  predicate SessionIsFull(c: Config, frames: nat, bytes: nat, reservations: nat, size: nat) {
    || Add(Add(frames, 1), reservations) > FrameCapacity(c)
    || Add(Add(size, bytes), Mul(reservations, c.terminalReserve)) > ByteCapacity(c)
  }

  predicate TerminalIsFull(c: Config, frames: nat, bytes: nat, size: nat) {
    || Add(frames, 1) > c.maxRequestFrames
    || size > Sub(c.maxRequestBytes, bytes)
  }

  // ---------- exactly when a check wraps

  lemma SumOfRemainder(a: nat, b: nat)
    ensures (a + b % U64) % U64 == (a + b) % U64
  {
  }

  lemma OnceAround(n: nat)
    requires n < 2 * U64
    ensures n % U64 == if n < U64 then n else n - U64
  {
  }

  /** What the byte side of the registration check computes. */
  lemma RegisterSum(b: nat, r: nat, k: nat)
    requires r + 1 < U64 && b + Times(r + 1, k) < 2 * U64
    ensures Add(b, Mul(Add(r, 1), k)) == (b + Times(r + 1, k)) % U64
  {
    AddExact(r, 1);
    TimesIsProduct(r + 1, k);
    SumOfRemainder(b, Times(r + 1, k));
  }

  /** Totals within capacity: the check is exact iff no frame is left anyway or the byte sum fits a word. */
  lemma RegisterAgrees(c: Config, f: nat, b: nat, r: nat)
    requires f + r <= FrameCapacity(c) && b + Times(r, c.terminalReserve) <= ByteCapacity(c)
    ensures
      var exact := f + r + 1 <= FrameCapacity(c) && b + Times(r + 1, c.terminalReserve) <= ByteCapacity(c);
      (RegisterFits(c, f, b, r) <==> exact) <==>
        f + r + 1 > FrameCapacity(c) || b + Times(r + 1, c.terminalReserve) < U64
  {
    AddExact(f, r);
    AddExact(f + r, 1);
    RegisterSum(b, r, c.terminalReserve);
    OnceAround(b + Times(r + 1, c.terminalReserve));
  }

  /**
   For every valid configuration and every run, the registration check of the code gives
   the exact answer if and only if no frame is left anyway or the byte sum fits a word.
   */
  lemma RegisterAgreesExactly(c: Config, ops: seq<Op>)
    ensures
      var s := Run(c, FRESH, ops);
      var exact :=
        && Frames(s) + Reservations(s) + 1 <= FrameCapacity(c)
        && TotalBytes(s) + Times(Reservations(s) + 1, c.terminalReserve) <= ByteCapacity(c);
      (RegisterFits(c, Frames(s), TotalBytes(s), Reservations(s)) <==> exact) <==>
        || Frames(s) + Reservations(s) + 1 > FrameCapacity(c)
        || TotalBytes(s) + Times(Reservations(s) + 1, c.terminalReserve) < U64
  {
    var s := Run(c, FRESH, ops);
    assert CapacityOk(c, s) by { ReachableInv(c, ops); }
    RegisterAgrees(c, Frames(s), TotalBytes(s), Reservations(s));
  }

  lemma SessionSum(size: nat, b: nat, r: nat, k: nat)
    ensures Add(Add(size, b), Mul(r, k)) == (size + b + Times(r, k)) % U64
  {
    TimesIsProduct(r, k);
    SumOfRemainder(Times(r, k), size + b);
    SumOfRemainder((size + b) % U64, Times(r, k));
  }

  lemma SessionAgrees(c: Config, f: nat, b: nat, r: nat, size: nat)
    requires size < U64
    requires f + r <= FrameCapacity(c) && b + Times(r, c.terminalReserve) <= ByteCapacity(c)
    ensures
      var (total, noFrame) := (size + b + Times(r, c.terminalReserve), f + 1 + r > FrameCapacity(c));
      (SessionIsFull(c, f, b, r, size) <==> noFrame || total > ByteCapacity(c)) <==> noFrame || total < U64
  {
    AddExact(f, 1);
    AddExact(f + 1, r);
    SessionSum(size, b, r, c.terminalReserve);
    OnceAround(size + b + Times(r, c.terminalReserve));
  }

  /** Likewise the partition check for a delta of any 64-bit size. */
  lemma SessionAgreesExactly(c: Config, ops: seq<Op>, size: nat)
    requires size < U64
    ensures
      var s := Run(c, FRESH, ops);
      var total := size + TotalBytes(s) + Times(Reservations(s), c.terminalReserve);
      var noFrame := Frames(s) + 1 + Reservations(s) > FrameCapacity(c);
      (SessionIsFull(c, Frames(s), TotalBytes(s), Reservations(s), size) <==> noFrame || total > ByteCapacity(c)) <==>
        noFrame || total < U64
  {
    var s := Run(c, FRESH, ops);
    assert CapacityOk(c, s) by { ReachableInv(c, ops); }
    SessionAgrees(c, Frames(s), TotalBytes(s), Reservations(s), size);
  }

  lemma RequestAgrees(c: Config, f: nat, b: nat, size: nat)
    requires size < U64 && f + 1 <= c.maxRequestFrames && b + c.terminalReserve <= c.maxRequestBytes
    ensures
      var (total, noFrame) := (size + b + c.terminalReserve, f + 2 > c.maxRequestFrames);
      (RequestIsFull(c, f, b, size) <==> noFrame || total > c.maxRequestBytes) <==> noFrame || total < U64
  {
    AddExact(f, 2);
    SumOfRemainder(c.terminalReserve, size + b);
    OnceAround(size + b + c.terminalReserve);
  }

  /** Likewise the per-request check. */
  lemma RequestAgreesExactly(c: Config, ops: seq<Op>, id: Id, size: nat)
    requires size < U64
    requires id in Run(c, FRESH, ops).queues && !Finished(Run(c, FRESH, ops).queues[id])
    ensures
      var q := Run(c, FRESH, ops).queues[id];
      var total := size + Bytes(q) + c.terminalReserve;
      var noFrame := |q| + 2 > c.maxRequestFrames;
      (RequestIsFull(c, |q|, Bytes(q), size) <==> noFrame || total > c.maxRequestBytes) <==> noFrame || total < U64
  {
    var q := Run(c, FRESH, ops).queues[id];
    assert QueueOk(c, id, q) by { ReachableInv(c, ops); }
    RequestAgrees(c, |q|, Bytes(q), size);
  }

  // ---------- checks that never wrap

  lemma ControlFullExactly(c: Config, ops: seq<Op>, size: nat)
    ensures
      var q := Run(c, FRESH, ops).control;
      ControlIsFull(c, |q|, Bytes(q), size) <==> |q| + 1 > c.controlFrames || Bytes(q) + size > c.controlBytes
  {
    ReachableInv(c, ops);
  }

  lemma TerminalFullExactly(c: Config, ops: seq<Op>, id: Id, size: nat)
    requires id in Run(c, FRESH, ops).queues && !Finished(Run(c, FRESH, ops).queues[id])
    ensures
      var q := Run(c, FRESH, ops).queues[id];
      TerminalIsFull(c, |q|, Bytes(q), size) <==>
        |q| + 1 > c.maxRequestFrames || Bytes(q) + size > c.maxRequestBytes
  {
    ReachableInv(c, ops);
    assert QueueOk(c, id, Run(c, FRESH, ops).queues[id]);
  }

  /** The session totals of a reachable state stay inside the configured session limits. */
  lemma WithinSession(c: Config, ops: seq<Op>)
    ensures
      var s := Run(c, FRESH, ops);
      && |s.control| + Frames(s) <= c.maxSessionFrames
      && Bytes(s.control) + TotalBytes(s) <= c.maxSessionBytes
  {
    ReachableInv(c, ops);
  }

  /**
   It does happen: with room for one reservation of just over 2^63 bytes and one already
   made, a second registration passes because the product wraps.
   */
  lemma RegisterWraps()
    ensures
      var c := RawConfig(1, 8, U64 - 1, 2, U64 / 2 + 8, 1, 1, U64 / 2 + 8);
      && ValidConfig(c)
      && var s := Run(c, FRESH, [OpRegister(1)]);
         && Register(c, s, 2).1 == QueueFull && RegisterFits(c, Frames(s), TotalBytes(s), Reservations(s))
         && RegisterWrapsIn(c, s, 2)
  {
    var c: Config := RawConfig(1, 8, U64 - 1, 2, U64 / 2 + 8, 1, 1, U64 / 2 + 8);
    var ops := [OpRegister(1)];
    assert ops[1..] == [];
    assert Frames(FRESH) == 0 && TotalBytes(FRESH) == 0 && Reservations(FRESH) == 0;
    assert Times(1, c.terminalReserve) == c.terminalReserve;
    var s := Register(c, FRESH, 1).0;
    assert s == Run(c, FRESH, ops);
    RegisterTotals(FRESH, 1);
    assert Times(2, c.terminalReserve) == Times(1, c.terminalReserve) + c.terminalReserve;
  }

  // ---------- the state behind the mutex

  /** The mutable state behind the mutex. */
  datatype Impl = Impl(
    control: Queue,
    requests: map<Id, RequestQueue>,
    ring: seq<Id>,
    controlFrames: nat,
    controlBytes: nat,
    requestFrames: nat,
    requestBytes: nat,
    reservations: nat,
    highFrames: nat,
    highBytes: nat,
    accepting: bool)
  {
    function UpdateHighWatermarks(): Impl {
      this.(highFrames := Max(highFrames, Add(controlFrames, requestFrames)),
            highBytes := Max(highBytes, Add(controlBytes, requestBytes)))
    }

    function PushControl(e: Sized): Impl {
      this.(controlBytes := Add(controlBytes, e.bytes),
            controlFrames := Add(controlFrames, 1),
            control := control + [e])
    }

    /** Pushes `e` on the queue of `id`, schedules the request if it was idle, spends the reserve of a Terminal. */
    function Push(id: Id, e: Sized): Impl
      requires id in requests
    {
      var q := requests[id];
      this.(requests := requests[id := RequestQueue(q.messages + [e], Add(q.queuedBytes, e.bytes), true,
                                                    q.terminalEnqueued || e.msg.Terminal?)],
            requestFrames := Add(requestFrames, 1),
            requestBytes := Add(requestBytes, e.bytes),
            reservations := if e.msg.Terminal? then Sub(reservations, 1) else reservations,
            ring := if q.scheduled then ring else ring + [id])
    }

    /** Drops a request with everything it has queued. */
    function Forget(id: Id): Impl
      requires id in requests
    {
      var q := requests[id];
      this.(requestFrames := Sub(requestFrames, |q.messages|),
            requestBytes := Sub(requestBytes, q.queuedBytes),
            reservations := if q.terminalEnqueued then reservations else Sub(reservations, 1),
            ring := Without(ring, id),
            requests := requests - {id})
    }

    /** Takes the head of the control queue. */
    function TakeControl(): Impl
      requires |control| > 0
    {
      this.(control := control[1..],
            controlFrames := Sub(controlFrames, 1),
            controlBytes := Sub(controlBytes, control[0].bytes))
    }

    /** Takes the head of the queue of `id`, which has just been popped off the ring. */
    function TakeRequest(id: Id): Impl
      requires id in requests && |requests[id].messages| > 0
    {
      var q := requests[id];
      var head := q.messages[0];
      var left := q.(messages := q.messages[1..], queuedBytes := Sub(q.queuedBytes, head.bytes));
      var i := this.(requestFrames := Sub(requestFrames, 1), requestBytes := Sub(requestBytes, head.bytes));
      if |left.messages| > 0 then i.(requests := requests[id := left], ring := ring + [id])
      else if head.msg.Terminal? then i.(requests := requests - {id})
      else i.(requests := requests[id := left.(scheduled := false)])
    }
  }

  /** Same queues, ring and status, with every per-request cached field right. */
  ghost predicate SameQueues(i: Impl, s: State) {
    && i.control == s.control && i.ring == s.ring && i.accepting == s.accepting
    && i.requests.Keys == s.queues.Keys
    && (forall id | id in i.requests :: i.requests[id].messages == s.queues[id] && Agrees(i.requests[id]))
  }

  /** Every cached counter is the total recomputed from the queues. */
  ghost predicate SameTotals(i: Impl, s: State) {
    && i.controlFrames == |s.control|
    && i.controlBytes == Bytes(s.control)
    && i.requestFrames == Frames(s)
    && i.requestBytes == TotalBytes(s)
    && i.reservations == Reservations(s)
  }

  /** The high watermarks bound what is queued and never pass the session limits. */
  predicate HighOk(c: Config, i: Impl) {
    && i.controlFrames + i.requestFrames <= i.highFrames <= c.maxSessionFrames
    && i.controlBytes + i.requestBytes <= i.highBytes <= c.maxSessionBytes
  }

  ghost predicate Refines(c: Config, i: Impl, s: State) {
    SameQueues(i, s) && SameTotals(i, s) && HighOk(c, i)
  }

  lemma PushQueues(i: Impl, s: State, id: Id, e: Sized)
    requires SameQueues(i, s) && id in s.queues && !Finished(s.queues[id])
    requires Bytes(s.queues[id]) + e.bytes < U64
    ensures SameQueues(i.Push(id, e), Append(s, id, e))
  {
    var j, t := i.Push(id, e), Append(s, id, e);
    BytesSnoc(s.queues[id], e);
    AddExact(Bytes(s.queues[id]), e.bytes);
    forall x | x in j.requests ensures j.requests[x].messages == t.queues[x] && Agrees(j.requests[x]) {
      if x != id {
        assert j.requests[x] == i.requests[x];
      }
    }
  }

  lemma WatermarksUpdated(c: Config, i: Impl, s: State)
    requires SameQueues(i, s) && SameTotals(i, s)
    requires i.highFrames <= c.maxSessionFrames && i.highBytes <= c.maxSessionBytes
    requires |s.control| + Frames(s) <= c.maxSessionFrames && Bytes(s.control) + TotalBytes(s) <= c.maxSessionBytes
    ensures Refines(c, i.UpdateHighWatermarks(), s)
  {
    AddExact(i.controlFrames, i.requestFrames);
    AddExact(i.controlBytes, i.requestBytes);
  }

  lemma ControlPushed(c: Config, i: Impl, s: State, e: Sized)
    requires Refines(c, i, s)
    requires |s.control| + 1 < U64 && Bytes(s.control) + e.bytes < U64
    ensures
      var t := s.(control := s.control + [e]);
      SameQueues(i.PushControl(e), t) && SameTotals(i.PushControl(e), t)
  {
    BytesSnoc(s.control, e);
  }

  lemma PushTotals(i: Impl, s: State, id: Id, e: Sized)
    requires SameTotals(i, s) && id in i.requests && id in s.queues && !Finished(s.queues[id])
    requires Frames(s) + 1 < U64 && TotalBytes(s) + e.bytes < U64 && Reservations(s) < U64
    ensures SameTotals(i.Push(id, e), Append(s, id, e))
  {
    AppendTotals(s, id, e);
    AddExact(i.requestFrames, 1);
    AddExact(i.requestBytes, e.bytes);
  }

  /** A frame the exact operation takes overflows no counter. */
  lemma PushBounds(c: Config, s: State, id: Id, e: Sized)
    requires id in s.queues && !Finished(s.queues[id]) && Inv(c, Append(s, id, e))
    ensures Bytes(s.queues[id]) + e.bytes < U64 && Frames(s) + 1 < U64
    ensures TotalBytes(s) + e.bytes < U64 && Reservations(s) < U64
  {
    var t := Append(s, id, e);
    AppendTotals(s, id, e);
    BytesSnoc(s.queues[id], e);
    assert QueueOk(c, id, t.queues[id]) && CapacityOk(c, t);
  }

  /** A push, with its counters and watermarks, refines the step that appends the same entry. */
  lemma PushRefines(c: Config, ops: seq<Op>, op: Op, i: Impl, id: Id, e: Sized)
    requires Refines(c, i, Run(c, FRESH, ops))
    requires id in Run(c, FRESH, ops).queues && !Finished(Run(c, FRESH, ops).queues[id])
    requires Step(c, Run(c, FRESH, ops), op) == Append(Run(c, FRESH, ops), id, e)
    ensures Refines(c, i.Push(id, e).UpdateHighWatermarks(), Run(c, FRESH, ops + [op]))
  {
    var s := Run(c, FRESH, ops);
    RunSnoc(c, FRESH, ops, op);
    ReachableInv(c, ops + [op]);
    PushBounds(c, s, id, e);
    PushQueues(i, s, id, e);
    PushTotals(i, s, id, e);
    WithinSession(c, ops + [op]);
    WatermarksUpdated(c, i.Push(id, e), Append(s, id, e));
  }

  lemma ForgetTotals(i: Impl, s: State, id: Id)
    requires SameQueues(i, s) && SameTotals(i, s) && id in i.requests
    requires Frames(s) + Reservations(s) < U64 && TotalBytes(s) < U64
    ensures SameTotals(i.Forget(id), Abandon(s, id).0)
  {
    TotalsDrop(s, id);
    MapSumBounds(s.queues, QueueLength, id);
    MapSumBounds(s.queues, QueueBytes, id);
    MapSumBounds(s.queues, Owed, id);
    SubExact(i.requestFrames, |s.queues[id]|);
    SubExact(i.requestBytes, Bytes(s.queues[id]));
    SubExact(i.reservations, Owed(s.queues[id]));
  }

  lemma ForgetQueues(i: Impl, s: State, id: Id)
    requires SameQueues(i, s) && id in i.requests
    ensures SameQueues(i.Forget(id), Abandon(s, id).0)
  {
  }

  lemma ForgetRefines(c: Config, ops: seq<Op>, i: Impl, id: Id)
    requires Refines(c, i, Run(c, FRESH, ops)) && id in i.requests
    ensures Refines(c, i.Forget(id), Run(c, FRESH, ops + [OpAbandon(id)]))
  {
    var s := Run(c, FRESH, ops);
    RunSnoc(c, FRESH, ops, OpAbandon(id));
    TotalsFit(c, ops);
    ForgetTotals(i, s, id);
    ForgetQueues(i, s, id);
    assert i.Forget(id).requestFrames <= i.requestFrames && i.Forget(id).requestBytes <= i.requestBytes by {
      TotalsDrop(s, id);
    }
  }

  lemma TotalsFit(c: Config, ops: seq<Op>)
    ensures
      var s := Run(c, FRESH, ops);
      Frames(s) + Reservations(s) < U64 && TotalBytes(s) < U64 && Bytes(s.control) < U64 && |s.control| < U64
  {
    ReachableInv(c, ops);
  }

  lemma TakeControlRefines(c: Config, ops: seq<Op>, i: Impl)
    requires Refines(c, i, Run(c, FRESH, ops)) && |i.control| > 0
    ensures Refines(c, i.TakeControl(), Run(c, FRESH, ops + [OpPop]))
  {
    RunSnoc(c, FRESH, ops, OpPop);
    BytesTail(i.control);
    TotalsFit(c, ops);
  }

  lemma TakeRequestQueues(i: Impl, s: State)
    requires SameQueues(i, s) && |s.control| == 0 && |s.ring| > 0
    requires |QueueOf(s, s.ring[0])| > 0 && Bytes(QueueOf(s, s.ring[0])) < U64
    requires |QueueOf(s, s.ring[0])| > 1 ==> !s.queues[s.ring[0]][0].msg.Terminal?
    ensures SameQueues(i.(ring := i.ring[1..]).TakeRequest(i.ring[0]), Pop(s).0)
  {
    var id := i.ring[0];
    var q := s.queues[id];
    var j, t := i.(ring := i.ring[1..]).TakeRequest(id), Pop(s).0;
    BytesTail(q);
    SubExact(Bytes(q), q[0].bytes);
    forall x | x in j.requests ensures j.requests[x].messages == t.queues[x] && Agrees(j.requests[x]) {
      if x != id {
        assert j.requests[x] == i.requests[x];
      } else if |q| == 1 {
        assert q[1..] == [];
      }
    }
  }

  /** What a request pop does to the totals of a reachable state. */
  lemma TakeFacts(c: Config, ops: seq<Op>)
    requires
      var s := Run(c, FRESH, ops);
      |s.control| == 0 && |s.ring| > 0 && |QueueOf(s, s.ring[0])| > 0
    ensures
      var s := Run(c, FRESH, ops);
      var (t, q) := (Pop(s).0, QueueOf(s, s.ring[0]));
      && Frames(t) == Frames(s) - 1
      && TotalBytes(t) == TotalBytes(s) - q[0].bytes
      && Reservations(t) == Reservations(s)
      && Bytes(q) <= TotalBytes(s)
      && (|q| > 1 ==> !q[0].msg.Terminal?)
  {
    var s := Run(c, FRESH, ops);
    ReachableInv(c, ops);
    PopTotals(c, s);
    MapSumBounds(s.queues, QueueBytes, s.ring[0]);
  }

  lemma TakeRequestTotals(i: Impl, s: State)
    requires SameQueues(i, s) && SameTotals(i, s)
    requires |s.control| == 0 && |s.ring| > 0 && |QueueOf(s, s.ring[0])| > 0
    requires Frames(s) < U64 && TotalBytes(s) < U64
    requires Frames(Pop(s).0) == Frames(s) - 1 && Reservations(Pop(s).0) == Reservations(s)
    requires TotalBytes(Pop(s).0) == TotalBytes(s) - QueueOf(s, s.ring[0])[0].bytes
    ensures SameTotals(i.(ring := i.ring[1..]).TakeRequest(i.ring[0]), Pop(s).0)
  {
    SubExact(i.requestFrames, 1);
    SubExact(i.requestBytes, s.queues[s.ring[0]][0].bytes);
  }

  lemma TakeRequestRefines(c: Config, ops: seq<Op>, i: Impl)
    requires Refines(c, i, Run(c, FRESH, ops))
    requires |i.control| == 0 && |i.ring| > 0 && i.ring[0] in i.requests && |i.requests[i.ring[0]].messages| > 0
    ensures Refines(c, i.(ring := i.ring[1..]).TakeRequest(i.ring[0]), Run(c, FRESH, ops + [OpPop]))
  {
    var s := Run(c, FRESH, ops);
    RunSnoc(c, FRESH, ops, OpPop);
    TotalsFit(c, ops);
    TakeFacts(c, ops);
    TakeRequestQueues(i, s);
    TakeRequestTotals(i, s);
  }

  /** A stale ring entry: a request that is gone or has nothing queued. */
  predicate Stale(i: Impl, id: Id) {
    id !in i.requests || |i.requests[id].messages| == 0
  }

  lemma NothingStale(c: Config, ops: seq<Op>, i: Impl)
    requires Refines(c, i, Run(c, FRESH, ops))
    ensures forall k | 0 <= k < |i.ring| :: !Stale(i, i.ring[k])
  {
    ReachableInv(c, ops);
    var s := Run(c, FRESH, ops);
    forall k | 0 <= k < |i.ring| ensures !Stale(i, i.ring[k]) {
      assert s.ring[k] in s.ring;
    }
  }

  // ---------- the code as functions

  datatype Answer =
    | Status(status: StatusCode)
    | Known(known: bool)
    | Code(code: EnqueueCode)
    | Wait(result: PopResult)
    | Nothing

  function CodeRegister(c: Config, i: Impl, id: Id): (Impl, StatusCode) {
    if id == 0 then (i, InvalidInput)
    else if !i.accepting then (i, Unavailable)
    else if id in i.requests then (i, AlreadyExists)
    else if !RegisterFits(c, i.requestFrames, i.requestBytes, i.reservations) then (i, QueueFull)
    else (i.(requests := i.requests[id := RequestQueue([], 0, false, false)],
             reservations := Add(i.reservations, 1)), StatusOk)
  }

  function CodeAbandon(i: Impl, id: Id): (Impl, bool) {
    if id !in i.requests then (i, false) else (i.Forget(id), true)
  }

  function CodeControl(c: Config, i: Impl, m: Message, payload: Option<nat>): (Impl, EnqueueCode) {
    var size := FrameSize(c, payload);
    if !IsControl(m) || size.None? then (i, InvalidMessage)
    else if !i.accepting then (i, Stopped)
    else if ControlIsFull(c, i.controlFrames, i.controlBytes, size.value) then (i, ControlFull)
    else (i.PushControl(Sized(m, size.value)).UpdateHighWatermarks(), Enqueued)
  }

  function CodeDelta(c: Config, i: Impl, id: Id, m: Message, payload: Option<nat>): (Impl, EnqueueCode) {
    var size := FrameSize(c, payload);
    if !m.Delta? || m.id != id || size.None? then (i, InvalidMessage)
    else if !i.accepting then (i, Stopped)
    else if id !in i.requests then (i, UnknownRequest)
    else
      var q := i.requests[id];
      if q.terminalEnqueued then (i, InvalidMessage)
      else if RequestIsFull(c, |q.messages|, q.queuedBytes, size.value) then (i, RequestFull)
      else if SessionIsFull(c, i.requestFrames, i.requestBytes, i.reservations, size.value) then (i, SessionFull)
      else (i.Push(id, Sized(m, size.value)).UpdateHighWatermarks(), Enqueued)
  }

  function CodeTerminal(c: Config, i: Impl, id: Id, m: Message, payload: Option<nat>): (Impl, EnqueueCode) {
    var size := FrameSize(c, payload);
    if !m.Terminal? || m.id != id || size.None? then (i, InvalidMessage)
    else if !i.accepting then (i, Stopped)
    else if id !in i.requests then (i, UnknownRequest)
    else
      var q := i.requests[id];
      if q.terminalEnqueued || size.value > c.terminalReserve then (i, InvalidMessage)
      else if TerminalIsFull(c, |q.messages|, q.queuedBytes, size.value) then (i, RequestFull)
      else (i.Push(id, Sized(m, size.value)).UpdateHighWatermarks(), Enqueued)
  }

  /** Drops stale entries off the front of the ring. */
  function SkipStale(i: Impl): (j: Impl)
    ensures |j.ring| > 0 ==> !Stale(j, j.ring[0])
    decreases |i.ring|
  {
    if |i.ring| > 0 && Stale(i, i.ring[0]) then SkipStale(i.(ring := i.ring[1..])) else i
  }

  function CodePop(i: Impl): (Impl, PopResult) {
    if |i.control| > 0 then (i.TakeControl(), Popped(i.control[0].msg))
    else
      var j := SkipStale(i);
      if |j.ring| == 0 then (j, if j.accepting then PopTimeout else PopStopped)
      else (j.(ring := j.ring[1..]).TakeRequest(j.ring[0]), Popped(j.requests[j.ring[0]].messages[0].msg))
  }

  function CodeStop(i: Impl): Impl {
    if !i.accepting then i else Impl([], map[], [], 0, 0, 0, 0, 0, i.highFrames, i.highBytes, false)
  }

  const NEW_IMPL := Impl([], map[], [], 0, 0, 0, 0, 0, 0, 0, true)

  function CodeStep(c: Config, i: Impl, op: Op): (Impl, Answer) {
    match op
    case OpRegister(id) => var (j, r) := CodeRegister(c, i, id); (j, Status(r))
    case OpAbandon(id) => var (j, r) := CodeAbandon(i, id); (j, Known(r))
    case OpControl(m, p) => var (j, r) := CodeControl(c, i, m, p); (j, Code(r))
    case OpDelta(id, m, p) => var (j, r) := CodeDelta(c, i, id, m, p); (j, Code(r))
    case OpTerminal(id, m, p) => var (j, r) := CodeTerminal(c, i, id, m, p); (j, Code(r))
    case OpPop => var (j, r) := CodePop(i); (j, Wait(r))
    case OpStop => (CodeStop(i), Nothing)
  }

  function CodeRun(c: Config, ops: seq<Op>): Impl {
    if |ops| == 0 then NEW_IMPL else CodeStep(c, CodeRun(c, ops[..|ops| - 1]), ops[|ops| - 1]).0
  }

  /** What the exact operation answers. */
  ghost function ExactAnswer(c: Config, s: State, op: Op): Answer {
    match op
    case OpRegister(id) => Status(Register(c, s, id).1)
    case OpAbandon(id) => Known(Abandon(s, id).1)
    case OpControl(m, p) => Code(EnqueueControl(c, s, m, p).1)
    case OpDelta(id, m, p) => Code(EnqueueDelta(c, s, id, m, p).1)
    case OpTerminal(id, m, p) => Code(EnqueueTerminal(c, s, id, m, p).1)
    case OpPop => Wait(Pop(s).1)
    case OpStop => Nothing
  }

  // ---------- exactly when the code is right

  /** The registration check is made, frames are left, and its byte sum does not fit a word. */
  ghost predicate RegisterWrapsIn(c: Config, s: State, id: Id) {
    && id != 0 && s.accepting && id !in s.queues
    && Frames(s) + Reservations(s) + 1 <= FrameCapacity(c)
    && TotalBytes(s) + Times(Reservations(s) + 1, c.terminalReserve) >= U64
  }

  /** The same of the per-request check for a delta, or, if that one passes, of the partition check. */
  ghost predicate DeltaWrapsIn(c: Config, s: State, id: Id, m: Message, payload: Option<nat>) {
    && m.Delta? && m.id == id && FrameSize(c, payload).Some? && s.accepting
    && id in s.queues && !Finished(s.queues[id])
    && var (q, size) := (s.queues[id], FrameSize(c, payload).value);
       && |q| + 2 <= c.maxRequestFrames
       && (|| size + Bytes(q) + c.terminalReserve >= U64
           || (&& size + Bytes(q) + c.terminalReserve <= c.maxRequestBytes
               && Frames(s) + 1 + Reservations(s) <= FrameCapacity(c)
               && size + TotalBytes(s) + Times(Reservations(s), c.terminalReserve) >= U64))
  }

  ghost predicate WrapsIn(c: Config, s: State, op: Op) {
    match op
    case OpRegister(id) => RegisterWrapsIn(c, s, id)
    case OpDelta(id, m, p) => DeltaWrapsIn(c, s, id, m, p)
    case _ => false
  }

  ghost predicate NoWrap(c: Config, ops: seq<Op>) {
    |ops| == 0 || (NoWrap(c, ops[..|ops| - 1]) && !WrapsIn(c, Run(c, FRESH, ops[..|ops| - 1]), ops[|ops| - 1]))
  }

  /** Every answer of the run was the exact one. */
  ghost predicate SameAnswers(c: Config, ops: seq<Op>) {
    |ops| == 0 ||
    var (before, op) := (ops[..|ops| - 1], ops[|ops| - 1]);
    SameAnswers(c, before) && CodeStep(c, CodeRun(c, before), op).1 == ExactAnswer(c, Run(c, FRESH, before), op)
  }

  lemma RegisterStepExactly(c: Config, ops: seq<Op>, i: Impl, id: Id)
    requires Refines(c, i, Run(c, FRESH, ops))
    ensures
      var s := Run(c, FRESH, ops);
      && (RegisterWrapsIn(c, s, id) <==> CodeRegister(c, i, id).1 != Register(c, s, id).1)
      && (!RegisterWrapsIn(c, s, id) ==> Refines(c, CodeRegister(c, i, id).0, Register(c, s, id).0))
  {
    var s := Run(c, FRESH, ops);
    if id != 0 && s.accepting && id !in s.queues {
      RegisterAgreesExactly(c, ops);
      RegisterTotals(s, id);
      assert CapacityOk(c, s) by { ReachableInv(c, ops); }
      AddExact(Reservations(s), 1);
    }
  }

  lemma DeltaStepExactly(c: Config, ops: seq<Op>, i: Impl, id: Id, m: Message, payload: Option<nat>)
    requires Refines(c, i, Run(c, FRESH, ops))
    ensures
      var s := Run(c, FRESH, ops);
      && (DeltaWrapsIn(c, s, id, m, payload) <==> CodeDelta(c, i, id, m, payload).1 != EnqueueDelta(c, s, id, m, payload).1)
      && (!DeltaWrapsIn(c, s, id, m, payload) ==>
            Refines(c, CodeDelta(c, i, id, m, payload).0, EnqueueDelta(c, s, id, m, payload).0))
  {
    var s := Run(c, FRESH, ops);
    if m.Delta? && m.id == id && FrameSize(c, payload).Some? && s.accepting && id in s.queues && !Finished(s.queues[id]) {
      var size := FrameSize(c, payload).value;
      RequestAgreesExactly(c, ops, id, size);
      SessionAgreesExactly(c, ops, size);
      if EnqueueDelta(c, s, id, m, payload).1 == Enqueued {
        PushRefines(c, ops, OpDelta(id, m, payload), i, id, Sized(m, size));
        RunSnoc(c, FRESH, ops, OpDelta(id, m, payload));
      }
    }
  }

  /** A control message that the exact egress takes. */
  lemma ControlTaken(c: Config, ops: seq<Op>, i: Impl, m: Message, payload: Option<nat>)
    requires Refines(c, i, Run(c, FRESH, ops)) && EnqueueControl(c, Run(c, FRESH, ops), m, payload).1 == Enqueued
    ensures
      var e := Sized(m, FrameSize(c, payload).value);
      Refines(c, i.PushControl(e).UpdateHighWatermarks(), EnqueueControl(c, Run(c, FRESH, ops), m, payload).0)
  {
    var (s, op) := (Run(c, FRESH, ops), OpControl(m, payload));
    var e := Sized(m, FrameSize(c, payload).value);
    ControlPushed(c, i, s, e);
    RunSnoc(c, FRESH, ops, op);
    WithinSession(c, ops + [op]);
    WatermarksUpdated(c, i.PushControl(e), EnqueueControl(c, s, m, payload).0);
  }

  lemma ControlStepExactly(c: Config, ops: seq<Op>, i: Impl, m: Message, payload: Option<nat>)
    requires Refines(c, i, Run(c, FRESH, ops))
    ensures
      var s := Run(c, FRESH, ops);
      && CodeControl(c, i, m, payload).1 == EnqueueControl(c, s, m, payload).1
      && Refines(c, CodeControl(c, i, m, payload).0, EnqueueControl(c, s, m, payload).0)
  {
    var s := Run(c, FRESH, ops);
    if IsControl(m) && FrameSize(c, payload).Some? && s.accepting {
      ControlFullExactly(c, ops, FrameSize(c, payload).value);
      if EnqueueControl(c, s, m, payload).1 == Enqueued { ControlTaken(c, ops, i, m, payload); }
    }
  }

  lemma TerminalStepExactly(c: Config, ops: seq<Op>, i: Impl, id: Id, m: Message, payload: Option<nat>)
    requires Refines(c, i, Run(c, FRESH, ops))
    ensures
      var s := Run(c, FRESH, ops);
      && CodeTerminal(c, i, id, m, payload).1 == EnqueueTerminal(c, s, id, m, payload).1
      && Refines(c, CodeTerminal(c, i, id, m, payload).0, EnqueueTerminal(c, s, id, m, payload).0)
  {
    var s := Run(c, FRESH, ops);
    if m.Terminal? && m.id == id && FrameSize(c, payload).Some? && s.accepting && id in s.queues && !Finished(s.queues[id]) {
      TerminalFullExactly(c, ops, id, FrameSize(c, payload).value);
      if EnqueueTerminal(c, s, id, m, payload).1 == Enqueued {
        PushRefines(c, ops, OpTerminal(id, m, payload), i, id, Sized(m, FrameSize(c, payload).value));
        RunSnoc(c, FRESH, ops, OpTerminal(id, m, payload));
      }
    }
  }

  lemma PopForm(i: Impl, s: State)
    requires SameQueues(i, s) && (|i.ring| > 0 ==> !Stale(i, i.ring[0]))
    ensures CodePop(i).1 == Pop(s).1
    ensures
      if |i.control| > 0 then CodePop(i).0 == i.TakeControl()
      else if |i.ring| == 0 then CodePop(i).0 == i && Pop(s).0 == s
      else CodePop(i).0 == i.(ring := i.ring[1..]).TakeRequest(i.ring[0])
  {
    assert SkipStale(i) == i;
  }

  lemma PopStepExactly(c: Config, ops: seq<Op>, i: Impl)
    requires Refines(c, i, Run(c, FRESH, ops))
    ensures CodePop(i).1 == Pop(Run(c, FRESH, ops)).1 && Refines(c, CodePop(i).0, Pop(Run(c, FRESH, ops)).0)
  {
    NothingStale(c, ops, i);
    PopForm(i, Run(c, FRESH, ops));
    assert Run(c, FRESH, ops + [OpPop]) == Pop(Run(c, FRESH, ops)).0 by { RunSnoc(c, FRESH, ops, OpPop); }
    if |i.control| > 0 {
      TakeControlRefines(c, ops, i);
    } else if |i.ring| > 0 {
      TakeRequestRefines(c, ops, i);
    }
  }

  lemma AbandonStepExactly(c: Config, ops: seq<Op>, i: Impl, id: Id)
    requires Refines(c, i, Run(c, FRESH, ops))
    ensures CodeAbandon(i, id).1 == Abandon(Run(c, FRESH, ops), id).1
    ensures Refines(c, CodeAbandon(i, id).0, Abandon(Run(c, FRESH, ops), id).0)
  {
    if id in i.requests {
      ForgetRefines(c, ops, i, id);
      RunSnoc(c, FRESH, ops, OpAbandon(id));
    }
  }

  lemma StopStepExactly(c: Config, ops: seq<Op>, i: Impl)
    requires Refines(c, i, Run(c, FRESH, ops))
    ensures Refines(c, CodeStop(i), HALTED)
  {
    if !i.accepting { ReachableInv(c, ops); }
  }

  /** One step of the code answers as the exact operation does if and only if it makes no check that wraps. */
  lemma StepExactly(c: Config, ops: seq<Op>, i: Impl, op: Op)
    requires Refines(c, i, Run(c, FRESH, ops))
    ensures
      var s := Run(c, FRESH, ops);
      && (CodeStep(c, i, op).1 == ExactAnswer(c, s, op) <==> !WrapsIn(c, s, op))
      && (!WrapsIn(c, s, op) ==> Refines(c, CodeStep(c, i, op).0, Step(c, s, op)))
  {
    match op
    case OpRegister(id) => RegisterStepExactly(c, ops, i, id);
    case OpAbandon(id) => AbandonStepExactly(c, ops, i, id);
    case OpControl(m, p) => ControlStepExactly(c, ops, i, m, p);
    case OpDelta(id, m, p) => DeltaStepExactly(c, ops, i, id, m, p);
    case OpTerminal(id, m, p) => TerminalStepExactly(c, ops, i, id, m, p);
    case OpPop => PopStepExactly(c, ops, i);
    case OpStop => StopStepExactly(c, ops, i);
  }

  /**
   For every valid configuration and every run: the code gives the exact answers throughout
   if and only if no check in it is made in a state where its sum does not fit a word; and
   then every cached counter, flag, queue and the ring are those of the exact state.
   */
  lemma {:induction false} ExactWithoutWrap(c: Config, ops: seq<Op>)
    ensures SameAnswers(c, ops) <==> NoWrap(c, ops)
    ensures NoWrap(c, ops) ==> Refines(c, CodeRun(c, ops), Run(c, FRESH, ops))
  {
    if |ops| > 0 {
      var (before, op) := (ops[..|ops| - 1], ops[|ops| - 1]);
      ExactWithoutWrap(c, before);
      assert ops == before + [op];
      RunSnoc(c, FRESH, before, op);
      if NoWrap(c, before) { StepExactly(c, before, CodeRun(c, before), op); }
    }
  }

  /** A safe configuration never wraps. */
  lemma {:induction false} SafeNeverWraps(c: Config, ops: seq<Op>)
    requires SafeConfig(c)
    ensures NoWrap(c, ops)
  {
    if |ops| > 0 {
      var before := ops[..|ops| - 1];
      SafeNeverWraps(c, before);
      ReachableInv(c, before);
      SafeNow(c, Run(c, FRESH, before), ops[|ops| - 1]);
    }
  }

  lemma SafeNow(c: Config, s: State, op: Op)
    requires SafeConfig(c) && Inv(c, s)
    ensures !WrapsIn(c, s, op)
  {
    assert CapacityOk(c, s);
    if op.OpDelta? && op.id in s.queues { assert QueueOk(c, op.id, s.queues[op.id]); }
  }

  /** Session limits of up to 2^63 bytes are safe. */
  lemma HalfRangeIsSafe(c: Config)
    requires c.maxSessionBytes <= U64 / 2
    ensures SafeConfig(c)
  {
  }

  // ---------- the class

  /** What recording one more operation means. */
  lemma Recorded(c: Config, h: seq<Op>, op: Op)
    ensures CodeRun(c, h + [op]) == CodeStep(c, CodeRun(c, h), op).0
    ensures Run(c, FRESH, h + [op]) == Step(c, Run(c, FRESH, h), op)
    ensures NoWrap(c, h + [op]) <==> NoWrap(c, h) && !WrapsIn(c, Run(c, FRESH, h), op)
    ensures NoWrap(c, h + [op]) ==> CodeStep(c, CodeRun(c, h), op).1 == ExactAnswer(c, Run(c, FRESH, h), op)
  {
    assert (h + [op])[..|h|] == h;
    RunSnoc(c, FRESH, h, op);
    ExactWithoutWrap(c, h + [op]);
  }

  class SessionEgress {
    const config: Config
    var impl: Impl

    /** The operations called so far. */
    ghost var history: seq<Op>

    /** The exact egress after these operations. */
    ghost function Model(): State
      reads this
    {
      Run(config, FRESH, history)
    }

    /** No check so far wrapped; always so in a safe configuration, by `SafeNeverWraps`. */
    ghost predicate Exact()
      reads this
    {
      NoWrap(config, history)
    }

    ghost predicate Valid()
      reads this
    {
      impl == CodeRun(config, history)
    }

    constructor (c: Config)
      ensures Valid() && Exact() && config == c && Model() == FRESH
    {
      config := c;
      impl := NEW_IMPL;
      history := [];
    }

    ghost method Record(op: Op)
      modifies this`history
      ensures history == old(history) + [op] && Model() == Step(config, old(Model()), op)
      ensures CodeRun(config, history) == CodeStep(config, CodeRun(config, old(history)), op).0
      ensures Exact() <==> old(Exact()) && !WrapsIn(config, old(Model()), op)
      ensures Exact() ==> CodeStep(config, CodeRun(config, old(history)), op).1 == ExactAnswer(config, old(Model()), op)
    {
      Recorded(config, history, op);
      history := history + [op];
    }

    method RegisterRequest(id: Id) returns (code: StatusCode)
      requires Valid()
      modifies this
      ensures Valid()
      ensures Exact() <==> old(Exact()) && !RegisterWrapsIn(config, old(Model()), id)
      ensures Exact() ==> (Model(), code) == Register(config, old(Model()), id)
    {
      Record(OpRegister(id));
      var i := impl;
      if id == 0 { return InvalidInput; }
      if !i.accepting { return Unavailable; }
      if id in i.requests { return AlreadyExists; }
      if !RegisterFits(config, i.requestFrames, i.requestBytes, i.reservations) { return QueueFull; }
      impl := i.(requests := i.requests[id := RequestQueue([], 0, false, false)],
                 reservations := Add(i.reservations, 1));
      return StatusOk;
    }

    method EnqueueControl(m: Message, payload: Option<nat>) returns (code: EnqueueCode)
      requires Valid()
      modifies this
      ensures Valid() && Exact() == old(Exact())
      ensures Exact() ==> (Model(), code) == EgressModel.EnqueueControl(config, old(Model()), m, payload)
    {
      Record(OpControl(m, payload));
      var (i, size) := (impl, FrameSize(config, payload));
      if !IsControl(m) || size.None? { return InvalidMessage; }
      if !i.accepting { return Stopped; }
      if ControlIsFull(config, i.controlFrames, i.controlBytes, size.value) { return ControlFull; }
      impl := i.PushControl(Sized(m, size.value)).UpdateHighWatermarks();
      return Enqueued;
    }

    method EnqueueDelta(id: Id, m: Message, payload: Option<nat>) returns (code: EnqueueCode)
      requires Valid()
      modifies this
      ensures Valid()
      ensures Exact() <==> old(Exact()) && !DeltaWrapsIn(config, old(Model()), id, m, payload)
      ensures Exact() ==> (Model(), code) == EgressModel.EnqueueDelta(config, old(Model()), id, m, payload)
    {
      Record(OpDelta(id, m, payload));
      var (i, size) := (impl, FrameSize(config, payload));
      if !m.Delta? || m.id != id || size.None? { return InvalidMessage; }
      if !i.accepting { return Stopped; }
      if id !in i.requests { return UnknownRequest; }
      var q := i.requests[id];
      if q.terminalEnqueued { return InvalidMessage; }
      if RequestIsFull(config, |q.messages|, q.queuedBytes, size.value) { return RequestFull; }
      if SessionIsFull(config, i.requestFrames, i.requestBytes, i.reservations, size.value) { return SessionFull; }
      impl := i.Push(id, Sized(m, size.value)).UpdateHighWatermarks();
      return Enqueued;
    }

    method EnqueueTerminal(id: Id, m: Message, payload: Option<nat>) returns (code: EnqueueCode)
      requires Valid()
      modifies this
      ensures Valid() && Exact() == old(Exact())
      ensures Exact() ==> (Model(), code) == EgressModel.EnqueueTerminal(config, old(Model()), id, m, payload)
    {
      Record(OpTerminal(id, m, payload));
      var (i, size) := (impl, FrameSize(config, payload));
      if !m.Terminal? || m.id != id || size.None? { return InvalidMessage; }
      if !i.accepting { return Stopped; }
      if id !in i.requests { return UnknownRequest; }
      var q := i.requests[id];
      if q.terminalEnqueued || size.value > config.terminalReserve { return InvalidMessage; }
      if TerminalIsFull(config, |q.messages|, q.queuedBytes, size.value) { return RequestFull; }
      impl := i.Push(id, Sized(m, size.value)).UpdateHighWatermarks();
      return Enqueued;
    }

    method AbandonRequest(id: Id) returns (known: bool)
      requires Valid()
      modifies this
      ensures Valid() && Exact() == old(Exact())
      ensures Exact() ==> (Model(), known) == Abandon(old(Model()), id)
    {
      Record(OpAbandon(id));
      if id !in impl.requests { return false; }
      impl := impl.Forget(id);
      return true;
    }

    method Stop()
      requires Valid()
      modifies this
      ensures Valid() && Exact() == old(Exact()) && Model() == HALTED && !impl.accepting
    {
      Record(OpStop);
      if !impl.accepting { return; }
      impl := Impl([], map[], [], 0, 0, 0, 0, 0, impl.highFrames, impl.highBytes, false);
    }

    /**
     Pops the next message, or reports an idle or stopped egress. The loop over the ring
     skips stale entries, of which an exact egress has none.
     */
    method WaitPop(timeout: int) returns (r: PopResult)
      requires Valid()
      modifies this
      ensures Valid() && Exact() == old(Exact())
      ensures timeout < 0 ==> Model() == old(Model()) && r == PopTimeout
      ensures timeout >= 0 && Exact() ==> (Model(), r) == Pop(old(Model()))
    {
      if timeout < 0 { return PopTimeout; }
      ghost var before := impl;
      Record(OpPop);
      if |impl.control| > 0 {
        r := Popped(impl.control[0].msg);
        impl := impl.TakeControl();
        return;
      }
      while |impl.ring| > 0
        invariant |impl.control| == 0 && SkipStale(impl) == SkipStale(before)
        invariant history == old(history) + [OpPop]
        decreases |impl.ring|
      {
        var id := impl.ring[0];
        var rest := impl.(ring := impl.ring[1..]);
        if id in rest.requests && |rest.requests[id].messages| > 0 {
          r := Popped(rest.requests[id].messages[0].msg);
          impl := rest.TakeRequest(id);
          return;
        }
        impl := rest;
      }
      return if impl.accepting then PopTimeout else PopStopped;
    }
  }
}
