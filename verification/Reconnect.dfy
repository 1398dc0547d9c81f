/**
 What a new connection changes. `submit` makes its request active under the state lock and
 sends it after that lock is released, so a caller can be overtaken by a disconnect and a
 reconnect: its Submit then goes out on the new connection, for a request the client has
 already failed, and the worker's answer to it is a protocol error.
 */
module Reconnect {
  import opened Messages
  import opened Protocol
  import opened Downlink
  import opened Bridge
  import opened BridgeWork
  import opened System
  import C = ClientModel
  import E = EgressModel

  /** The message at the head of the wire, if any, is one the client accepts. */
  predicate NoError(s: Setup, w: World) {
    |w.line.wire| > 0 && w.client.connected ==> C.Dispatch(s.client, w.client, w.line.wire[0]).1.Fine?
  }

  /** The smallest frame fits into the control partition; otherwise the worker never says anything. */
  predicate CanAnswer(c: E.Config) { c.controlBytes > 4 }

  /**
   After a disconnect, reconnecting is harmless in every continuation if and only if nobody
   is still sending on the lost connection.
   */
  lemma ReconnectExactly(s: Setup, ops: seq<Op>)
    requires Calm(s, ops) && !Run(s, ops).client.connected
    ensures
      (forall more: seq<Op> | OpReconnect !in more :: NoError(s, Run(s, ops + [OpReconnect] + more))) <==>
      Settled(Run(s, ops).client) || !CanAnswer(s.egress)
  {
    var c := Run(s, ops).client;
    if Settled(c) || !CanAnswer(s.egress) {
      forall more: seq<Op> | OpReconnect !in more ensures NoError(s, Run(s, ops + [OpReconnect] + more)) {
        if Settled(c) { CalmAfter(s, ops, more); NoProtocolError(s, ops + [OpReconnect] + more); }
        else { MuteAfter(s, ops, more); }
      }
    } else {
      var i: nat :| Sending(c, i);
      StaleSubmit(s, ops, i);
    }
  }

  lemma RunMore(s: Setup, ops: seq<Op>, op: Op)
    ensures Run(s, ops + [op]) == Step(s, Run(s, ops), op)
  {
    assert (ops + [op])[..|ops|] == ops;
  }

  lemma {:induction false} CalmAfter(s: Setup, ops: seq<Op>, more: seq<Op>)
    requires Calm(s, ops) && Settled(Run(s, ops).client) && OpReconnect !in more
    ensures Calm(s, ops + [OpReconnect] + more)
  {
    var all := ops + [OpReconnect] + more;
    if |more| == 0 {
      assert all[..|all| - 1] == ops;
    } else {
      assert all[|all| - 1] == more[|more| - 1] && more[|more| - 1] in more;
      assert all[..|all| - 1] == ops + [OpReconnect] + more[..|more| - 1];
      CalmAfter(s, ops, more[..|more| - 1]);
    }
  }

  // ---------- somebody is still sending

  /** Caller `i` sends, and the worker refuses. */
  function Refusal(i: nat): seq<Op> {
    [OpTransmit(i), OpTakeSubmit, OpDecide(false, 0), OpReject(QueueFull, Some(1)), OpFetch, OpSend]
  }

  /** A new session in which the handler has got as far as `h` and the egress holds `q`. */
  predicate Early(w: World, x: Id, uplink: seq<Id>, h: Handler, q: E.Queue) {
    && w.client.connected && x !in w.client.requests
    && w.work == Work(uplink, h, [], map[])
    && w.line.egress == E.State(q, map[], [], true) && w.line.hand.None? && w.line.writing && w.line.wire == []
  }

  lemma SentEarly(s: Setup, w: World, i: nat)
    requires w in Good(s) && !w.client.connected && Sending(w.client, i)
    ensures
      var x := w.client.entries[i].id;
      Early(Step(s, Step(s, w, OpReconnect), OpTransmit(i)), x, [x], Free, [])
  {
    var x := w.client.entries[i].id;
    assert [] + [x] == [x];
  }

  lemma RefusedEarly(s: Setup, w: World, x: Id)
    ensures Early(w, x, [x], Free, []) ==> Early(Step(s, w, OpTakeSubmit), x, [], Deciding(x), [])
    ensures Early(w, x, [], Deciding(x), []) ==> Early(Step(s, w, OpDecide(false, 0)), x, [], Rejecting(x), [])
    ensures Early(w, x, [], Rejecting(x), []) && CanAnswer(s.egress) ==>
              Early(Step(s, w, OpReject(QueueFull, Some(1))), x, [], Free, [E.Sized(Rejected(x, QueueFull), 5)])
  {
    assert [x][1..] == [];
  }

  /** The writer sends the only message there is. */
  lemma OnlyMessage(s: Setup, w: World, x: Id, m: Message)
    requires Early(w, x, [], Free, [E.Sized(m, 5)])
    ensures
      var v := Step(s, Step(s, w, OpFetch), OpSend);
      v.line.wire == [m] && v.client == w.client
  {
    var v := Step(s, w, OpFetch);
    assert v.line.hand == Some(m) && v.line.wire == [] && v.client == w.client;
  }

  lemma RefusalStep(s: Setup, ops: seq<Op>, i: nat, n: nat)
    requires n < 6
    ensures Run(s, ops + Refusal(i)[..n + 1]) == Step(s, Run(s, ops + Refusal(i)[..n]), Refusal(i)[n])
  {
    assert ops + Refusal(i)[..n + 1] == ops + Refusal(i)[..n] + [Refusal(i)[n]];
    RunMore(s, ops + Refusal(i)[..n], Refusal(i)[n]);
  }

  lemma StaleSubmitRefused(s: Setup, ops: seq<Op>, i: nat, x: Id)
    requires Early(Run(s, ops + Refusal(i)[..1]), x, [x], Free, []) && CanAnswer(s.egress)
    ensures Early(Run(s, ops + Refusal(i)[..4]), x, [], Free, [E.Sized(Rejected(x, QueueFull), 5)])
  {
    RefusalStep(s, ops, i, 1);
    RefusalStep(s, ops, i, 2);
    RefusalStep(s, ops, i, 3);
    RefusedEarly(s, Run(s, ops + Refusal(i)[..1]), x);
    RefusedEarly(s, Run(s, ops + Refusal(i)[..2]), x);
    RefusedEarly(s, Run(s, ops + Refusal(i)[..3]), x);
  }

  lemma RefusalOnWire(s: Setup, ops: seq<Op>, i: nat, x: Id, m: Message)
    requires Early(Run(s, ops + Refusal(i)[..4]), x, [], Free, [E.Sized(m, 5)])
    ensures
      var w := Run(s, ops + Refusal(i));
      w.line.wire == [m] && w.client.connected && x !in w.client.requests
  {
    RefusalStep(s, ops, i, 4);
    RefusalStep(s, ops, i, 5);
    OnlyMessage(s, Run(s, ops + Refusal(i)[..4]), x, m);
    assert Refusal(i)[..6] == Refusal(i);
  }

  lemma StaleSubmitSent(s: Setup, ops: seq<Op>, i: nat)
    requires Calm(s, ops) && !Run(s, ops).client.connected && Sending(Run(s, ops).client, i)
    ensures
      var x := Run(s, ops).client.entries[i].id;
      Early(Run(s, ops + [OpReconnect] + Refusal(i)[..1]), x, [x], Free, [])
  {
    var all := ops + [OpReconnect];
    assert Run(s, all + Refusal(i)[..1]) == Step(s, Step(s, Run(s, ops), OpReconnect), OpTransmit(i)) by {
      RunMore(s, ops, OpReconnect);
      RefusalStep(s, all, i, 0);
      assert all + Refusal(i)[..0] == all;
    }
    RunOk(s, ops);
    SentEarly(s, Run(s, ops), i);
  }

  /** The failure: the refusal of a Submit that went out late finds no request. */
  lemma StaleSubmit(s: Setup, ops: seq<Op>, i: nat)
    requires Calm(s, ops) && !Run(s, ops).client.connected && Sending(Run(s, ops).client, i) && CanAnswer(s.egress)
    ensures !NoError(s, Run(s, ops + [OpReconnect] + Refusal(i))) && OpReconnect !in Refusal(i)
  {
    var x := Run(s, ops).client.entries[i].id;
    StaleSubmitSent(s, ops, i);
    StaleSubmitRefused(s, ops + [OpReconnect], i, x);
    RefusalOnWire(s, ops + [OpReconnect], i, x, Rejected(x, QueueFull));
  }

  lemma FailedSender(s: Setup)
    requires s.client.capacity > 0
    ensures
      var w := Step(s, Step(s, NewWorld(), OpAsk(1)), OpClient(C.OpFail));
      !w.client.connected && Sending(w.client, 0)
  {
    var c := Step(s, NewWorld(), OpAsk(1)).client;
    assert |c.entries| == 1 && c.entries[0] == C.NewEntry(1);
  }

  /** It happens: a disconnect right after `submit` made its request active. */
  lemma StaleSenderHappens(s: Setup)
    requires s.client.capacity > 0
    ensures
      var ops := [OpAsk(1), OpClient(C.OpFail)];
      Calm(s, ops) && !Run(s, ops).client.connected && Sending(Run(s, ops).client, 0)
  {
    var ops := [OpAsk(1), OpClient(C.OpFail)];
    OneConnectionIsCalm(s, ops);
    assert Run(s, ops) == Step(s, Step(s, NewWorld(), OpAsk(1)), OpClient(C.OpFail)) by {
      RunMore(s, [], OpAsk(1));
      RunMore(s, [] + [OpAsk(1)], OpClient(C.OpFail));
      assert ops == [] + [OpAsk(1)] + [OpClient(C.OpFail)];
    }
    FailedSender(s);
  }

  // ---------- a worker that cannot answer

  predicate Waits(r: Record) { (r.pump.NotStarted? || r.pump.AtGate? || r.pump.Done?) && !r.allowed }

  ghost predicate MuteLine(l: Line) {
    && l.egress.control == [] && l.hand.None? && l.wire == []
    && (forall x: Id :: E.QueueOf(l.egress, x) == [])
  }

  predicate MuteWork(k: Work) { !k.handler.Opening? && forall i | 0 <= i < |k.records| :: Waits(k.records[i]) }

  ghost predicate Mute(w: World) { MuteLine(w.line) && MuteWork(w.work) }

  lemma WaitsOn(s: Setup, stopping: bool, r: Record, o: RecordOp)
    requires Waits(r)
    ensures Waits(RecordStep(s.limits, stopping, r, o))
  {
  }

  lemma NoAnswer(c: E.Config, e: E.State, m: Message, payload: Option<nat>)
    requires !CanAnswer(c)
    ensures !E.EnqueueControl(c, e, m, payload).1.Enqueued? && E.EnqueueControl(c, e, m, payload).0 == e
  {
  }

  lemma MuteEgress(l: Line, e: E.State)
    requires MuteLine(l) && SameQueues(l.egress, e)
    ensures MuteLine(l.(egress := e))
  {
  }

  lemma MuteIntake(s: Setup, w: World, op: Op)
    requires Mute(w) && OfIntake(op)
    ensures Mute(Step(s, w, op))
  {
    var (e, h) := (w.line.egress, w.work.handler);
    if op.OpRegister? && h.Registering? {
      RegisterIsQuiet(s.egress, e, h.x);
      MuteEgress(w.line, E.Register(s.egress, e, h.x).0);
    }
  }

  lemma MuteSetup(s: Setup, w: World, op: Op)
    requires Mute(w) && OfSetup(op)
    ensures Mute(Step(s, w, op))
  {
    var (e, h) := (w.line.egress, w.work.handler);
    if op.OpUnregister? && h.Clashing? {
      AbandonIsQuiet(e, h.x);
      MuteEgress(w.line, E.Abandon(e, h.x).0);
    }
  }

  lemma MuteAnswers(s: Setup, w: World, op: Op)
    requires Mute(w) && !CanAnswer(s.egress) && OfAnswer(op)
    ensures Mute(Step(s, w, op))
  {
    var (e, h) := (w.line.egress, w.work.handler);
    match op
    case OpAccept(payload) => if h.Accepting? { NoAnswer(s.egress, e, Accepted(h.x), payload); }
    case OpReject(code, payload) => if h.Rejecting? { NoAnswer(s.egress, e, Rejected(h.x, code), payload); }
    case OpStats(probe, payload) => NoAnswer(s.egress, e, Stats(probe), payload);
    case _ =>
  }

  lemma MuteStep(s: Setup, w: World, op: Op)
    requires Mute(w) && !CanAnswer(s.egress)
    ensures Mute(Step(s, w, op))
  {
    if OfIntake(op) {
      MuteIntake(s, w, op);
    } else if OfSetup(op) {
      MuteSetup(s, w, op);
    } else if OfAnswer(op) {
      MuteAnswers(s, w, op);
    } else if op.OpRecord? && op.ref < |w.work.records| {
      WaitsOn(s, w.stopping, w.work.records[op.ref], op.step);
    }
  }

  lemma {:induction false} MuteAfter(s: Setup, ops: seq<Op>, more: seq<Op>)
    requires !Run(s, ops).client.connected && !CanAnswer(s.egress)
    ensures Mute(Run(s, ops + [OpReconnect] + more))
  {
    var all := ops + [OpReconnect] + more;
    if |more| == 0 {
      assert all == ops + [OpReconnect];
      RunMore(s, ops, OpReconnect);
    } else {
      assert all == ops + [OpReconnect] + more[..|more| - 1] + [more[|more| - 1]];
      MuteAfter(s, ops, more[..|more| - 1]);
      RunMore(s, ops + [OpReconnect] + more[..|more| - 1], more[|more| - 1]);
      MuteStep(s, Run(s, ops + [OpReconnect] + more[..|more| - 1]), more[|more| - 1]);
    }
  }
}
