/** What holds of the session egress over every run of its operations. */
module EgressRuns {
  import opened Messages
  import opened Sums
  import opened EgressModel

  datatype Op =
    | OpRegister(id: Id)
    | OpAbandon(id: Id)
    | OpControl(msg: Message, payload: Option<nat>)
    | OpDelta(id: Id, msg: Message, payload: Option<nat>)
    | OpTerminal(id: Id, msg: Message, payload: Option<nat>)
    | OpPop
    | OpStop

  ghost function Step(c: Config, s: State, op: Op): (t: State)
  {
    match op
    case OpRegister(id) => Register(c, s, id).0
    case OpAbandon(id) => Abandon(s, id).0
    case OpControl(m, p) => EnqueueControl(c, s, m, p).0
    case OpDelta(id, m, p) => EnqueueDelta(c, s, id, m, p).0
    case OpTerminal(id, m, p) => EnqueueTerminal(c, s, id, m, p).0
    case OpPop => Pop(s).0
    case OpStop => HALTED
  }

  lemma StepInv(c: Config, s: State, op: Op)
    requires Inv(c, s)
    ensures Inv(c, Step(c, s, op))
  {
    match op
    case OpRegister(id) => RegisterInv(c, s, id);
    case OpAbandon(id) => AbandonInv(c, s, id);
    case OpControl(m, p) => EnqueueControlInv(c, s, m, p);
    case OpDelta(id, m, p) => EnqueueDeltaInv(c, s, id, m, p);
    case OpTerminal(id, m, p) => EnqueueTerminalInv(c, s, id, m, p);
    case OpPop => PopInv(c, s);
    case OpStop => FreshInv(c);
  }

  ghost function Run(c: Config, s: State, ops: seq<Op>): (t: State)
    decreases |ops|
  {
    if |ops| == 0 then s else Run(c, Step(c, s, ops[0]), ops[1..])
  }

  lemma {:induction false} RunInv(c: Config, s: State, ops: seq<Op>)
    requires Inv(c, s)
    ensures Inv(c, Run(c, s, ops))
    decreases |ops|
  {
    if |ops| > 0 {
      StepInv(c, s, ops[0]);
      RunInv(c, Step(c, s, ops[0]), ops[1..]);
    }
  }

  lemma ReachableInv(c: Config, ops: seq<Op>)
    ensures Inv(c, Run(c, FRESH, ops))
  {
    FreshInv(c);
    RunInv(c, FRESH, ops);
  }

  lemma {:induction false} RunSnoc(c: Config, s: State, ops: seq<Op>, op: Op)
    ensures Run(c, s, ops + [op]) == Step(c, Run(c, s, ops), op)
    decreases |ops|
  {
    if |ops| == 0 {
      assert ops + [op] == [op] && [op][1..] == [];
    } else {
      assert (ops + [op])[1..] == ops[1..] + [op];
      RunSnoc(c, Step(c, s, ops[0]), ops[1..], op);
    }
  }

  // ---------- Terminal reservation

  /** Whatever else is queued, a Terminal that fits its byte reserve is accepted for an open request. */
  lemma TerminalFits(c: Config, s: State, id: Id, m: Message, payload: Option<nat>)
    requires Inv(c, s) && s.accepting && id in s.queues && !Finished(s.queues[id])
    requires m.Terminal? && m.id == id
    requires FrameSize(c, payload).Some? && FrameSize(c, payload).value <= c.terminalReserve
    ensures
      var (t, code) := EnqueueTerminal(c, s, id, m, payload);
      && code == Enqueued
      && CapacityOk(c, t)
      && QueueOf(t, id) == QueueOf(s, id) + [Sized(m, FrameSize(c, payload).value)]
  {
    EnqueueTerminalInv(c, s, id, m, payload);
  }

  /**
   In every reachable state of a running egress, a Terminal that fits its byte reserve is
   accepted for every registered request that has none, and the request partition then
   still holds everything queued and every other reservation.
   */
  lemma TerminalAlwaysFits(c: Config, ops: seq<Op>, id: Id, m: Message, payload: Option<nat>)
    requires
      var s := Run(c, FRESH, ops);
      s.accepting && id in s.queues && !Finished(s.queues[id])
    requires m.Terminal? && m.id == id
    requires FrameSize(c, payload).Some? && FrameSize(c, payload).value <= c.terminalReserve
    ensures
      var s := Run(c, FRESH, ops);
      var (t, code) := EnqueueTerminal(c, s, id, m, payload);
      && code == Enqueued
      && CapacityOk(c, t)
      && QueueOf(t, id) == QueueOf(s, id) + [Sized(m, FrameSize(c, payload).value)]
  {
    ReachableInv(c, ops);
    TerminalFits(c, Run(c, FRESH, ops), id, m, payload);
  }

  // ---------- nothing is refused needlessly

  /**
   A well-formed delta for an open request is accepted exactly when everything the egress
   guarantees, the outstanding Terminal reservations included, survives it.
   */
  lemma DeltaAcceptedExactlyWhenSafe(c: Config, s: State, id: Id, m: Message, payload: Option<nat>)
    requires Inv(c, s) && s.accepting && id in s.queues && !Finished(s.queues[id])
    requires m.Delta? && m.id == id && FrameSize(c, payload).Some?
    ensures EnqueueDelta(c, s, id, m, payload).1 == Enqueued
       <==> Inv(c, Append(s, id, Sized(m, FrameSize(c, payload).value)))
  {
    var e := Sized(m, FrameSize(c, payload).value);
    EnqueueDeltaInv(c, s, id, m, payload);
    AppendTotals(s, id, e);
    BytesSnoc(s.queues[id], e);
    assert Append(s, id, e).queues[id] == s.queues[id] + [e];
  }

  /** Likewise a new request is registered exactly when its Terminal can still be reserved. */
  lemma RegisteredExactlyWhenSafe(c: Config, s: State, id: Id)
    requires Inv(c, s) && s.accepting && id != 0 && id !in s.queues
    ensures Register(c, s, id).1 == StatusOk <==> Inv(c, s.(queues := s.queues[id := []]))
  {
    RegisterInv(c, s, id);
    RegisterTotals(s, id);
  }

  // ---------- a queued message is always delivered

  lemma {:induction false} EmptyTotals(qs: map<Id, Queue>)
    requires forall id | id in qs :: qs[id] == []
    ensures MapSum(qs, QueueLength) == 0
    decreases |qs|
  {
    if qs != map[] {
      var k :| k in qs;
      assert (qs - {k}).Keys == qs.Keys - {k};
      MapSumPick(qs, QueueLength, k);
      EmptyTotals(qs - {k});
    }
  }

  /** A pop comes back empty-handed exactly when nothing at all is queued. */
  lemma PopFindsWhatIsQueued(c: Config, ops: seq<Op>)
    ensures
      var s := Run(c, FRESH, ops);
      Pop(s).1.Popped? <==> |s.control| + Frames(s) > 0
  {
    ReachableInv(c, ops);
    var s := Run(c, FRESH, ops);
    if |s.ring| == 0 {
      forall id | id in s.queues ensures s.queues[id] == [] {
        assert id !in s.ring;
      }
      EmptyTotals(s.queues);
    } else {
      assert s.ring[0] in s.ring;
      MapSumBounds(s.queues, QueueLength, s.ring[0]);
    }
  }

  // ---------- FIFO logs

  datatype Lane = ControlLane | RequestLane(id: Id)

  function LaneQueue(s: State, lane: Lane): Queue {
    match lane
    case ControlLane => s.control
    case RequestLane(id) => QueueOf(s, id)
  }

  /** What `op` puts on `lane`. */
  ghost function PutBy(c: Config, s: State, op: Op, lane: Lane): (r: Queue)
  {
    match op
    case OpControl(m, p) =>
      if lane.ControlLane? && EnqueueControl(c, s, m, p).1 == Enqueued then [Sized(m, FrameSize(c, p).value)] else []
    case OpDelta(id, m, p) =>
      if lane == RequestLane(id) && EnqueueDelta(c, s, id, m, p).1 == Enqueued then [Sized(m, FrameSize(c, p).value)] else []
    case OpTerminal(id, m, p) =>
      if lane == RequestLane(id) && EnqueueTerminal(c, s, id, m, p).1 == Enqueued then [Sized(m, FrameSize(c, p).value)] else []
    case _ => []
  }

  /** The lane the next pop serves. */
  function ServedLane(s: State): Option<Lane> {
    if |s.control| > 0 then Some(ControlLane)
    else if |s.ring| > 0 && |QueueOf(s, s.ring[0])| > 0 then Some(RequestLane(s.ring[0]))
    else None
  }

  /** What `op` takes off `lane` for the writer: the entry whose message `Pop` returns. */
  function TakenBy(s: State, op: Op, lane: Lane): (r: Queue)
    ensures |r| > 0 ==> op.OpPop? && Pop(s).1 == Popped(r[0].msg)
  {
    if op.OpPop? && ServedLane(s) == Some(lane) then [LaneQueue(s, lane)[0]] else []
  }

  ghost function Put(c: Config, s: State, ops: seq<Op>, lane: Lane): Queue
    decreases |ops|
  {
    if |ops| == 0 then []
    else
      PutBy(c, s, ops[0], lane) + Put(c, Step(c, s, ops[0]), ops[1..], lane)
  }

  ghost function Taken(c: Config, s: State, ops: seq<Op>, lane: Lane): Queue
    decreases |ops|
  {
    if |ops| == 0 then []
    else
      TakenBy(s, ops[0], lane) + Taken(c, Step(c, s, ops[0]), ops[1..], lane)
  }

  /** No step of the run throws the lane away. */
  predicate Keeps(ops: seq<Op>, lane: Lane) {
    OpStop !in ops && (lane.RequestLane? ==> OpAbandon(lane.id) !in ops)
  }

  lemma PopLane(s: State, lane: Lane)
    ensures LaneQueue(Pop(s).0, lane)
         == if ServedLane(s) == Some(lane) then LaneQueue(s, lane)[1..] else LaneQueue(s, lane)
  {
    var q := LaneQueue(s, lane);
    if ServedLane(s) == Some(lane) && |q| == 1 {
      assert q[1..] == [];
    }
  }

  lemma Uncons(q: Queue)
    requires |q| > 0
    ensures q == [q[0]] + q[1..]
  {
  }

  lemma FifoPop(s: State, lane: Lane)
    ensures LaneQueue(s, lane) == TakenBy(s, OpPop, lane) + LaneQueue(Pop(s).0, lane)
  {
    PopLane(s, lane);
    if ServedLane(s) == Some(lane) {
      Uncons(LaneQueue(s, lane));
    }
  }

  lemma FifoAppend(s: State, id: Id, e: Sized, lane: Lane)
    requires id in s.queues
    ensures LaneQueue(Append(s, id, e), lane) == LaneQueue(s, lane) + (if lane == RequestLane(id) then [e] else [])
  {
  }

  lemma FifoEnqueue(c: Config, s: State, op: Op, lane: Lane)
    requires op.OpDelta? || op.OpTerminal?
    ensures LaneQueue(s, lane) + PutBy(c, s, op, lane) == LaneQueue(Step(c, s, op), lane)
  {
    if Step(c, s, op) != s {
      FifoAppend(s, op.id, Sized(op.msg, FrameSize(c, op.payload).value), lane);
    }
  }

  lemma FifoStep(c: Config, s: State, op: Op, lane: Lane)
    requires op != OpStop && (lane.RequestLane? ==> op != OpAbandon(lane.id))
    ensures LaneQueue(s, lane) + PutBy(c, s, op, lane) == TakenBy(s, op, lane) + LaneQueue(Step(c, s, op), lane)
  {
    if op.OpPop? {
      FifoPop(s, lane);
    } else if op.OpDelta? || op.OpTerminal? {
      FifoEnqueue(c, s, op, lane);
    }
  }

  lemma Regroup(a: Queue, p: Queue, u: Queue, b: Queue, q: Queue, v: Queue, d: Queue)
    requires a + p == u + b && b + q == v + d
    ensures a + (p + q) == (u + v) + d
  {
    assert a + (p + q) == (a + p) + q;
    assert (u + b) + q == u + (b + q);
    assert u + (v + d) == (u + v) + d;
  }

  /**
   Per lane, the egress is a plain FIFO log: what was queued plus what was accepted is what
   was delivered followed by what is still queued, in order.
   */
  lemma {:induction false} FifoLog(c: Config, s: State, ops: seq<Op>, lane: Lane)
    requires Keeps(ops, lane)
    ensures LaneQueue(s, lane) + Put(c, s, ops, lane) == Taken(c, s, ops, lane) + LaneQueue(Run(c, s, ops), lane)
    decreases |ops|
  {
    if ops != [] {
      var op, t := ops[0], Step(c, s, ops[0]);
      assert op in ops;
      FifoStep(c, s, op, lane);
      FifoLog(c, t, ops[1..], lane);
      Regroup(LaneQueue(s, lane), PutBy(c, s, op, lane), TakenBy(s, op, lane), LaneQueue(t, lane),
              Put(c, t, ops[1..], lane), Taken(c, t, ops[1..], lane), LaneQueue(Run(c, s, ops), lane));
    }
  }

  // ---------- round-robin fairness

  /** The request a step delivers for, if it is a pop that reaches the ring. */
  function ServedBy(s: State, op: Op): seq<Id> {
    if op.OpPop? && ServedLane(s).Some? && ServedLane(s).value.RequestLane? then [s.ring[0]] else []
  }

  ghost function Served(c: Config, s: State, ops: seq<Op>): seq<Id>
    decreases |ops|
  {
    if |ops| == 0 then []
    else
      ServedBy(s, ops[0]) + Served(c, Step(c, s, ops[0]), ops[1..])
  }

  /** The requests ahead of `id` in the ring. */
  function Ahead(ring: seq<Id>, id: Id): (r: seq<Id>) {
    if ring == [] || ring[0] == id then [] else [ring[0]] + Ahead(ring[1..], id)
  }

  lemma {:induction false} AheadSnoc(ring: seq<Id>, id: Id, x: Id)
    requires id in ring
    ensures Ahead(ring + [x], id) == Ahead(ring, id)
  {
    if ring[0] != id {
      assert (ring + [x])[1..] == ring[1..] + [x];
      AheadSnoc(ring[1..], id, x);
    }
  }

  lemma {:induction false} AheadWithout(ring: seq<Id>, id: Id, x: Id)
    requires id in ring && x != id
    ensures id in Without(ring, x)
    ensures Ahead(Without(ring, x), id) == Without(Ahead(ring, id), x)
  {
    if ring[0] != id {
      AheadWithout(ring[1..], id, x);
      if ring[0] != x {
        assert Without(ring, x)[1..] == Without(ring[1..], x);
        assert Ahead(ring, id)[1..] == Ahead(ring[1..], id);
      } else {
        assert Without(ring, x) == Without(ring[1..], x);
        assert Ahead(ring, id)[1..] == Ahead(ring[1..], id);
      }
    }
  }

  lemma {:induction false} AheadMembers(ring: seq<Id>, id: Id)
    requires Distinct(ring)
    ensures Distinct(Ahead(ring, id)) && id !in Ahead(ring, id)
    ensures forall x :: x in Ahead(ring, id) ==> x in ring
    ensures |Ahead(ring, id)| <= |ring|
  {
    if ring != [] && ring[0] != id {
      assert forall i | 0 <= i < |ring| - 1 :: ring[1..][i] == ring[i + 1];
      AheadMembers(ring[1..], id);
      assert ring[0] !in ring[1..];
    }
  }

  lemma {:induction false} WithoutLength(ring: seq<Id>, x: Id)
    ensures |Without(ring, x)| <= |ring|
  {
    if ring != [] { WithoutLength(ring[1..], x); }
  }

  /** Serving the head of the ring brings everyone behind it one place forward. */
  lemma AheadPop(s: State, id: Id)
    requires RingOk(s) && |s.control| == 0 && id in s.ring && s.ring[0] != id
    ensures id in Pop(s).0.ring
    ensures Ahead(s.ring, id) == [s.ring[0]] + Ahead(Pop(s).0.ring, id)
  {
    var rest := s.ring[1..];
    assert id in rest;
    if Pop(s).0.ring != rest {
      AheadSnoc(rest, id, s.ring[0]);
    }
  }

  /** Only a pop or an abandonment takes anything out of the ring; an enqueue may add at its end. */
  lemma RingGrows(c: Config, s: State, op: Op)
    requires !op.OpPop? && !op.OpAbandon? && !op.OpStop?
    ensures
      || Step(c, s, op).ring == s.ring
      || ((op.OpDelta? || op.OpTerminal?) && Step(c, s, op).ring == s.ring + [op.id])
  {
  }

  /** How one step that neither stops, abandons nor serves `id` moves the requests ahead of it. */
  lemma AheadStep(c: Config, s: State, op: Op, id: Id)
    requires RingOk(s) && id in s.ring
    requires op != OpStop && op != OpAbandon(id) && ServedBy(s, op) != [id]
    ensures id in Step(c, s, op).ring
    ensures
      var before, after := Ahead(s.ring, id), Ahead(Step(c, s, op).ring, id);
      if |ServedBy(s, op)| > 0 then before == ServedBy(s, op) + after
      else if op.OpAbandon? && op.id in s.queues then after == Without(before, op.id)
      else after == before
  {
    if op.OpPop? {
      if |s.control| == 0 {
        assert s.ring[0] in s.ring;
        AheadPop(s, id);
      }
    } else if op.OpAbandon? {
      AheadWithout(s.ring, id, op.id);
    } else {
      RingGrows(c, s, op);
      if Step(c, s, op).ring != s.ring {
        AheadSnoc(s.ring, id, op.id);
      }
    }
  }

  /** A request with `n` others ahead of it in the ring is served by the (n+1)-th request pop. */
  lemma {:induction false} ServedWithinItsTurn(c: Config, s: State, ops: seq<Op>, id: Id)
    requires Inv(c, s) && id in s.ring
    requires OpStop !in ops && OpAbandon(id) !in ops
    requires |Served(c, s, ops)| > |Ahead(s.ring, id)|
    ensures id in Served(c, s, ops)[..|Ahead(s.ring, id)| + 1]
    decreases |ops|
  {
    var op := ops[0];
    assert op in ops;
    var t := Step(c, s, op);
    StepInv(c, s, op);
    var n := |Ahead(s.ring, id)|;
    var rest := Served(c, t, ops[1..]);
    if ServedBy(s, op) == [id] {
      assert Served(c, s, ops)[0] == id;
    } else {
      AheadStep(c, s, op, id);
      if op.OpAbandon? { WithoutLength(Ahead(s.ring, id), op.id); }
      var k := |Ahead(t.ring, id)|;
      ServedWithinItsTurn(c, t, ops[1..], id);
      var i :| 0 <= i < k + 1 && rest[i] == id;
      assert Served(c, s, ops)[|ServedBy(s, op)| + i] == id;
    }
  }

  /** Requests `before` are ahead at first, `served` get their turn, `after` are still ahead. */
  ghost predicate InTurn(before: seq<Id>, served: seq<Id>, after: seq<Id>, ops: seq<Op>) {
    && Distinct(served)
    && (forall x :: x in served ==> x in before)
    && (forall x :: x in after ==> x in before && x !in served)
    && (forall x :: x in before && OpAbandon(x) !in ops ==> x in served || x in after)
  }

  lemma InTurnServe(x: Id, mid: seq<Id>, served: seq<Id>, after: seq<Id>, ops: seq<Op>)
    requires ops != [] && InTurn(mid, served, after, ops[1..]) && x !in mid
    ensures InTurn([x] + mid, [x] + served, after, ops)
  {
  }

  lemma InTurnOther(before: seq<Id>, mid: seq<Id>, served: seq<Id>, after: seq<Id>, ops: seq<Op>)
    requires ops != [] && InTurn(mid, served, after, ops[1..])
    requires forall x :: x in mid ==> x in before
    requires forall x :: x in before && OpAbandon(x) != ops[0] ==> x in mid
    ensures InTurn(before, served, after, ops)
  {
    forall x | x in before && OpAbandon(x) !in ops ensures x in served || x in after {
      assert ops[0] in ops;
    }
  }

  /** One step of a run during which `id` waits its turn. */
  lemma WaitStep(c: Config, s: State, op: Op, id: Id, ops: seq<Op>, rest: seq<Id>, after: seq<Id>)
    requires RingOk(s) && id in s.ring && |ops| > 0 && op == ops[0]
    requires op != OpStop && op != OpAbandon(id) && ServedBy(s, op) != [id]
    requires InTurn(Ahead(Step(c, s, op).ring, id), rest, after, ops[1..])
    ensures InTurn(Ahead(s.ring, id), ServedBy(s, op) + rest, after, ops)
  {
    var now, before, mid := ServedBy(s, op), Ahead(s.ring, id), Ahead(Step(c, s, op).ring, id);
    AheadStep(c, s, op, id);
    AheadMembers(s.ring, id);
    if now != [] {
      assert before[0] == now[0];
      forall i | 0 <= i < |mid| ensures mid[i] != now[0] { assert before[i + 1] == mid[i]; }
      InTurnServe(now[0], mid, rest, after, ops);
    } else {
      assert now + rest == rest;
      WithoutSpec(before, if op.OpAbandon? then op.id else id);
      InTurnOther(before, mid, rest, after, ops);
    }
  }

  /** While `id` waits, only requests that were ahead of it are served, each at most once. */
  lemma {:induction false} WhileWaiting(c: Config, s: State, ops: seq<Op>, id: Id)
    requires Inv(c, s) && id in s.ring
    requires OpStop !in ops && OpAbandon(id) !in ops
    requires id !in Served(c, s, ops)
    ensures id in Run(c, s, ops).ring
    ensures InTurn(Ahead(s.ring, id), Served(c, s, ops), Ahead(Run(c, s, ops).ring, id), ops)
    decreases |ops|
  {
    if ops != [] {
      var op, t := ops[0], Step(c, s, ops[0]);
      assert op in ops;
      StepInv(c, s, op);
      var rest := Served(c, t, ops[1..]);
      assert Served(c, s, ops) == ServedBy(s, op) + rest;
      AheadStep(c, s, op, id);
      WhileWaiting(c, t, ops[1..], id);
      WaitStep(c, s, op, id, ops, rest, Ahead(Run(c, s, ops).ring, id));
    }
  }

  /**
   A full round: `id` is delivered and stays backlogged, `ops` run, then `id` is delivered
   again for the first time since. In between no request is delivered twice, only requests
   that were in the ring with it are delivered at all, and each of those that was not
   abandoned is.
   */
  lemma RoundBetweenDeliveries(c: Config, s: State, ops: seq<Op>, id: Id)
    requires Inv(c, s) && ServedBy(s, OpPop) == [id] && |QueueOf(s, id)| > 1
    requires OpStop !in ops && OpAbandon(id) !in ops
    requires
      && id !in Served(c, Run(c, s, [OpPop]), ops)
      && ServedBy(Run(c, Run(c, s, [OpPop]), ops), OpPop) == [id]
    ensures
      var between := Served(c, Run(c, s, [OpPop]), ops);
      && Distinct(between)
      && (forall x :: x in between ==> x in s.ring[1..])
      && (forall x :: x in s.ring[1..] && OpAbandon(x) !in ops ==> x in between)
  {
    var t := Run(c, s, [OpPop]);
    PopToTheBack(c, s, id);
    RunInv(c, s, [OpPop]);
    AheadOfLast(s.ring[1..], id);
    WhileWaiting(c, t, ops, id);
    assert Ahead(Run(c, t, ops).ring, id) == [];
  }

  lemma PopToTheBack(c: Config, s: State, id: Id)
    requires Inv(c, s) && ServedBy(s, OpPop) == [id] && |QueueOf(s, id)| > 1
    ensures Run(c, s, [OpPop]).ring == s.ring[1..] + [id]
    ensures id in Run(c, s, [OpPop]).ring && id !in s.ring[1..]
  {
    assert [OpPop][1..] == [];
    assert s.ring[0] in s.ring;
    var r := Run(c, s, [OpPop]).ring;
    assert r[|r| - 1] == id;
  }

  lemma {:induction false} AheadOfLast(ring: seq<Id>, id: Id)
    requires id !in ring
    ensures Ahead(ring + [id], id) == ring
  {
    if ring != [] {
      assert (ring + [id])[1..] == ring[1..] + [id];
      AheadOfLast(ring[1..], id);
    }
  }
}
