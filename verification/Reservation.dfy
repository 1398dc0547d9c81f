/**
 The Terminal reservations of the egress joined to the pumps that rely on them. While the
 egress accepts, every record that may still speak, and every request the handler is setting
 up, has an open registration; so a pump never meets an unknown request and never a full one.
 */
module Reservation {
  import opened Messages
  import opened Downlink
  import opened Bridge
  import opened BridgeWork
  import opened System
  import E = EgressModel
  import EgressRuns

  /** `x` is registered and its Terminal is still to come. */
  predicate Open(e: E.State, x: Id) { x in e.queues && !E.Finished(e.queues[x]) }

  /** The handler has registered the request it is at and not yet let its pump go. */
  predicate SettingUp(h: Handler) { h.Inserting? || h.Starting? || h.Accepting? || h.Opening? }

  predicate Reserved(e: E.State, k: Work) {
    e.accepting ==>
      && (SettingUp(k.handler) ==> Open(e, k.handler.x))
      && (forall i | 0 <= i < |k.records| && Speaks(k.records[i]) :: Open(e, Owner(k.records[i])))
  }

  // ---------- what the egress does to open requests

  /** Every open request stays open, except perhaps `x`. */
  ghost predicate StaysOpen(d: E.State, e: E.State, x: Id) {
    forall y: Id | y != x && Open(d, y) :: Open(e, y)
  }

  lemma RegisterOpens(c: E.Config, e: E.State, x: Id)
    ensures
      var (f, status) := E.Register(c, e, x);
      && f.accepting == e.accepting && (status.StatusOk? ==> Open(f, x))
      && (forall y: Id | Open(e, y) :: Open(f, y))
  {
  }

  lemma AppendStaysOpen(e: E.State, x: Id, m: E.Sized)
    requires x in e.queues
    ensures StaysOpen(e, E.Append(e, x, m), x) && (!m.msg.Terminal? ==> Open(E.Append(e, x, m), x))
  {
  }

  /** Only a Terminal is the last message a pop takes from a request. */
  lemma PopStaysOpen(e: E.State)
    ensures E.Pop(e).0.accepting == e.accepting && forall y: Id | Open(e, y) :: Open(E.Pop(e).0, y)
  {
  }

  lemma FetchStaysOpen(l: Line)
    ensures
      var e := Fetch(l).egress;
      e.accepting == l.egress.accepting && forall y: Id | Open(l.egress, y) :: Open(e, y)
  {
    PopStaysOpen(l.egress);
  }

  // ---------- what the threads do

  lemma SameWork(d: E.State, e: E.State, k: Work)
    requires Reserved(d, k) && e.accepting == d.accepting && forall y: Id | Open(d, y) :: Open(e, y)
    ensures Reserved(e, k)
  {
  }

  /** The handler and the speaking records are at other ids than `x`. */
  predicate Elsewhere(k: Work, x: Id) {
    && (SettingUp(k.handler) ==> k.handler.x != x)
    && (forall i | 0 <= i < |k.records| && Speaks(k.records[i]) :: Owner(k.records[i]) != x)
  }

  lemma ElsewhereReserved(d: E.State, e: E.State, k: Work, x: Id)
    requires Reserved(d, k) && e.accepting == d.accepting && StaysOpen(d, e, x) && Elsewhere(k, x)
    ensures Reserved(e, k)
  {
  }

  /** The records that speak in `j` spoke in `k`, for the same ids. */
  predicate NoNewSpeakers(k: Work, j: Work) {
    forall i | 0 <= i < |j.records| && Speaks(j.records[i]) ::
      i < |k.records| && Speaks(k.records[i]) && Owner(k.records[i]) == Owner(j.records[i])
  }

  lemma FewerSpeakers(e: E.State, k: Work, j: Work)
    requires Reserved(e, k) && NoNewSpeakers(k, j)
    requires SettingUp(j.handler) ==> SettingUp(k.handler) && j.handler.x == k.handler.x
    ensures Reserved(e, j)
  {
  }

  lemma OneRecord(k: Work, ref: nat, q: Record)
    requires ref < |k.records| && (Speaks(q) ==> Speaks(k.records[ref]) && Owner(q) == Owner(k.records[ref]))
    ensures NoNewSpeakers(k, SetRecord(k, ref, q))
  {
  }

  ghost predicate Backed(w: World) { Reserved(w.line.egress, w.work) }

  /** The worlds in which every Terminal to come has its reservation. */
  ghost const BACKED := iset w: World | Backed(w)

  lemma RegisterReserves(s: Setup, w: World)
    requires w in BACKED
    ensures RegisterStep(s, w) in BACKED
  {
    var h := w.work.handler;
    if h.Registering? { RegisterOpens(s.egress, w.line.egress, h.x); }
  }

  lemma IntakeReserves(s: Setup, w: World, op: Op)
    requires w in BACKED && OfIntake(op)
    ensures Step(s, w, op) in BACKED
  {
    if op.OpRegister? { RegisterReserves(s, w); } else { FewerSpeakers(w.line.egress, w.work, Step(s, w, op).work); }
  }

  lemma InsertReserves(w: World)
    requires w in BACKED
    ensures InsertStep(w) in BACKED
  {
    FewerSpeakers(w.line.egress, w.work, InsertStep(w).work);
  }

  /** A request that could not be set up has no pump. */
  lemma ClashElsewhere(s: Setup, w: World)
    requires w in Good(s) && w.work.handler.Clashing?
    ensures Elsewhere(w.work, w.work.handler.x)
  {
    var (k, x) := (w.work, w.work.handler.x);
    forall i | 0 <= i < |k.records| && Speaks(k.records[i]) ensures Owner(k.records[i]) != x {
      SpeakerIsAlone(k, Stories(w.line), i);
    }
  }

  lemma AbandonReserves(w: World)
    requires w in BACKED && w.work.handler.Clashing? && Elsewhere(w.work, w.work.handler.x)
    ensures UnregisterStep(w) in BACKED
  {
    var (d, x) := (w.line.egress, w.work.handler.x);
    ElsewhereReserved(d, E.Abandon(d, x).0, w.work, x);
    FewerSpeakers(E.Abandon(d, x).0, w.work, UnregisterStep(w).work);
  }

  lemma UnregisterReserves(s: Setup, w: World)
    requires w in Good(s) && w in BACKED
    ensures UnregisterStep(w) in BACKED
  {
    if w.work.handler.Clashing? {
      ClashElsewhere(s, w);
      AbandonReserves(w);
    }
  }

  lemma HandlerHolds(s: Setup, w: World)
    requires w in Good(s) && (w.work.handler.Starting? || w.work.handler.Opening?)
    ensures
      var (k, h) := (w.work, w.work.handler);
      Holds(k, h.x, h.ref) && (h.Starting? ==> Unstarted(k.records[h.ref]))
  {
  }

  lemma StartedReserves(e: E.State, k: Work, ref: nat, q: Record, j: Work)
    requires Reserved(e, k) && ref < |k.records| && !Speaks(q) && j.records == k.records[ref := q]
    requires SettingUp(j.handler) ==> SettingUp(k.handler) && j.handler.x == k.handler.x
    ensures Reserved(e, j)
  {
    OneRecord(k, ref, q);
    FewerSpeakers(e, k, j);
  }

  lemma StartReserves(w: World, started: bool)
    requires w in BACKED
    requires
      var (k, h) := (w.work, w.work.handler);
      h.Starting? ==> h.ref < |k.records| && Unstarted(k.records[h.ref])
    ensures StartStep(w, started) in BACKED
  {
    var (k, h) := (w.work, w.work.handler);
    if h.Starting? {
      StartForm(w, started);
      var q := if started then k.records[h.ref].(pump := AtGate) else Withdraw(k.records[h.ref]);
      StartedReserves(w.line.egress, k, h.ref, q, StartStep(w, started).work);
    }
  }

  lemma StartGoodReserves(s: Setup, w: World, started: bool)
    requires w in Good(s) && w in BACKED
    ensures StartStep(w, started) in BACKED
  {
    assert w.work.handler.Starting? ==>
        w.work.handler.ref < |w.work.records| && Unstarted(w.work.records[w.work.handler.ref]) by {
      if w.work.handler.Starting? { HandlerHolds(s, w); }
    }
    StartReserves(w, started);
  }

  lemma SetupReserves(s: Setup, w: World, op: Op)
    requires w in Good(s) && w in BACKED && OfSetup(op)
    ensures Step(s, w, op) in BACKED
  {
    match op
    case OpInsert => InsertReserves(w);
    case OpUnregister => UnregisterReserves(s, w);
    case OpStart(started) => StartGoodReserves(s, w, started);
  }

  /** The record behind the gate is the one the handler registered. */
  lemma OpenedReserves(e: E.State, k: Work, ref: nat, q: Record)
    requires Reserved(e, k) && k.handler.Opening? && ref < |k.records| && Owner(q) == k.handler.x
    ensures Reserved(e, SetRecord(k, ref, q).(handler := Free))
  {
  }

  lemma OpenReserves(s: Setup, w: World)
    requires w in Good(s) && w in BACKED
    ensures OpenStep(w) in BACKED
  {
    var (k, h) := (w.work, w.work.handler);
    if h.Opening? {
      HandlerHolds(s, w);
      OpenedReserves(w.line.egress, k, h.ref, k.records[h.ref].(allowed := true));
    }
  }

  lemma ControlKeepsQueues(c: E.Config, e: E.State, m: Message, payload: Option<nat>)
    ensures
      var f := E.EnqueueControl(c, e, m, payload).0;
      f.queues == e.queues && f.accepting == e.accepting
  {
  }

  lemma AcceptReserves(s: Setup, w: World, payload: Option<nat>)
    requires w in BACKED
    ensures AcceptStep(s, w, payload) in BACKED
  {
    var (k, h) := (w.work, w.work.handler);
    if h.Accepting? && h.ref < |k.records| {
      ControlKeepsQueues(s.egress, w.line.egress, Accepted(h.x), payload);
      OneRecord(k, h.ref, k.records[h.ref].(abandoned := true));
    }
  }

  lemma RejectReserves(s: Setup, w: World, code: StatusCode, payload: Option<nat>)
    requires w in BACKED
    ensures RejectStep(s, w, code, payload) in BACKED
  {
    var h := w.work.handler;
    if h.Rejecting? { ControlKeepsQueues(s.egress, w.line.egress, Rejected(h.x, code), payload); }
  }

  lemma StatsReserves(s: Setup, w: World, probe: nat, payload: Option<nat>)
    requires w in BACKED
    ensures StatsStep(s, w, probe, payload) in BACKED
  {
    ControlKeepsQueues(s.egress, w.line.egress, Stats(probe), payload);
  }

  lemma ReapReserves(w: World, x: Id)
    requires w in BACKED
    ensures ReapStep(w, x) in BACKED
  {
    FewerSpeakers(w.line.egress, w.work, ReapStep(w, x).work);
  }

  lemma AnswerReserves(s: Setup, w: World, op: Op)
    requires w in Good(s) && w in BACKED && OfAnswer(op)
    ensures Step(s, w, op) in BACKED
  {
    match op
    case OpAccept(payload) => AcceptReserves(s, w, payload);
    case OpReject(code, payload) => RejectReserves(s, w, code, payload);
    case OpOpen => OpenReserves(s, w);
    case OpStats(probe, payload) => StatsReserves(s, w, probe, payload);
    case OpReap(x) => ReapReserves(w, x);
  }

  lemma PumpReserves(s: Setup, w: World, ref: nat, o: RecordOp)
    requires w in BACKED
    ensures PumpStep(s, w, ref, o) in BACKED
  {
    if ref < |w.work.records| {
      var r := w.work.records[ref];
      RecordStepQuiet(s.limits, w.stopping, r, o);
      OneRecord(w.work, ref, RecordStep(s.limits, w.stopping, r, o));
      FewerSpeakers(w.line.egress, w.work, PumpStep(s, w, ref, o).work);
    }
  }

  lemma OfferReserves(s: Setup, w: World, ref: nat, payload: Option<nat>)
    requires w in BACKED
    ensures OfferStep(s, w, ref, payload) in BACKED
  {
    if ref < |w.work.records| && w.work.records[ref].pump.Offering? {
      var (d, k, r) := (w.line.egress, w.work, w.work.records[ref]);
      var (e, code) := E.EnqueueDelta(s.egress, d, Owner(r), r.pump.msg, payload);
      OfferForm(s, w, ref, r, payload);
      OneRecord(k, ref, Offered(r, code));
      FewerSpeakers(d, k, SetRecord(k, ref, Offered(r, code)));
      if code.Enqueued? {
        AppendStaysOpen(d, Owner(r), E.Sized(r.pump.msg, E.FrameSize(s.egress, payload).value));
        SameWork(d, e, SetRecord(k, ref, Offered(r, code)));
      }
    }
  }

  /** A pump that has enqueued its Terminal speaks no more, and nobody else spoke for its id. */
  lemma ClosedElsewhere(k: Work, v: Id -> Story, ref: nat)
    requires HandlerOk(k, v) && UplinkOk(k, v) && SpeakersOk(k, v)
    requires ref < |k.records| && k.records[ref].pump.Holding?
    ensures
      var j := SetRecord(k, ref, Closed(k.records[ref], E.Enqueued));
      NoNewSpeakers(k, j) && Elsewhere(j, Owner(k.records[ref]))
  {
    SpeakerIsAlone(k, v, ref);
    OneRecord(k, ref, Closed(k.records[ref], E.Enqueued));
  }

  lemma FinishedReserves(s: Setup, w: World, ref: nat, r: Record, payload: Option<nat>)
    requires w in Good(s) && w in BACKED && ref < |w.work.records| && r == w.work.records[ref]
    requires r.pump.Holding? && !r.pump.msg.Delta?
    requires E.EnqueueTerminal(s.egress, w.line.egress, Owner(r), WireTerminal(r, r.pump.msg), payload).1.Enqueued?
    ensures FinishStep(s, w, ref, payload) in BACKED
  {
    var (d, k, t) := (w.line.egress, w.work, WireTerminal(r, r.pump.msg));
    var e := E.EnqueueTerminal(s.egress, d, Owner(r), t, payload).0;
    var j := SetRecord(k, ref, Closed(r, E.Enqueued));
    FinishForm(s, w, ref, r, payload);
    ClosedElsewhere(k, Stories(w.line), ref);
    FewerSpeakers(d, k, j);
    AppendStaysOpen(d, Owner(r), E.Sized(t, E.FrameSize(s.egress, payload).value));
    ElsewhereReserved(d, e, j, Owner(r));
  }

  lemma FinishReserves(s: Setup, w: World, ref: nat, payload: Option<nat>)
    requires w in Good(s) && w in BACKED
    ensures FinishStep(s, w, ref, payload) in BACKED
  {
    if ref < |w.work.records| && w.work.records[ref].pump.Holding? && !w.work.records[ref].pump.msg.Delta? {
      var r := w.work.records[ref];
      var code := E.EnqueueTerminal(s.egress, w.line.egress, Owner(r), WireTerminal(r, r.pump.msg), payload).1;
      if code.Enqueued? {
        FinishedReserves(s, w, ref, r, payload);
      } else {
        FinishForm(s, w, ref, r, payload);
        OneRecord(w.work, ref, Closed(r, code));
        FewerSpeakers(w.line.egress, w.work, SetRecord(w.work, ref, Closed(r, code)));
      }
    }
  }

  lemma FetchReserves(w: World)
    requires w in BACKED
    ensures w.(line := Fetch(w.line)) in BACKED
  {
    FetchStaysOpen(w.line);
    SameWork(w.line.egress, Fetch(w.line).egress, w.work);
  }

  lemma ShutdownReserves(s: Setup, w: World, op: Op)
    requires w in BACKED && (op.OpSend? || op.OpStop? || op.OpHalt? || op.OpQuit?)
    ensures Step(s, w, op) in BACKED
  {
    assert Reserved(E.HALTED, w.work);
  }

  lemma ClientReserves(s: Setup, w: World, op: Op)
    requires w in BACKED
    requires op.OpAsk? || op.OpTransmit? || op.OpReconnect? || op.OpSendFailed? || op.OpReceive? || op.OpClient?
    ensures Step(s, w, op) in BACKED
  {
  }

  lemma StepReserves(s: Setup, w: World, op: Op)
    requires w in Good(s) && w in BACKED
    ensures Step(s, w, op) in BACKED
  {
    if OfIntake(op) {
      IntakeReserves(s, w, op);
    } else if OfSetup(op) {
      SetupReserves(s, w, op);
    } else if OfAnswer(op) {
      AnswerReserves(s, w, op);
    } else {
      match op
      case OpRecord(ref, o) => PumpReserves(s, w, ref, o);
      case OpOffer(ref, payload) => OfferReserves(s, w, ref, payload);
      case OpFinish(ref, payload) => FinishReserves(s, w, ref, payload);
      case OpFetch => FetchReserves(w);
      case OpSend => ShutdownReserves(s, w, op);
      case OpStop => ShutdownReserves(s, w, op);
      case OpHalt => ShutdownReserves(s, w, op);
      case OpQuit => ShutdownReserves(s, w, op);
      case _ => ClientReserves(s, w, op);
    }
  }

  lemma {:induction false} RunReserves(s: Setup, ops: seq<Op>)
    requires Calm(s, ops)
    ensures Run(s, ops) in BACKED
  {
    if |ops| > 0 {
      RunOk(s, ops[..|ops| - 1]);
      RunReserves(s, ops[..|ops| - 1]);
      StepReserves(s, Run(s, ops[..|ops| - 1]), ops[|ops| - 1]);
    }
  }

  // ---------- what holds in every calm run

  /** A Terminal that can be framed within its reserve. */
  predicate FitsReserve(c: E.Config, payload: Option<nat>) {
    E.FrameSize(c, payload).Some? && E.FrameSize(c, payload).value <= c.terminalReserve
  }

  /**
   A pump that holds a Terminal gets it into the egress if and only if the egress accepts and
   the Terminal fits its reserve, however full the egress is; the session then goes on.
   */
  lemma TerminalGetsIn(s: Setup, ops: seq<Op>, ref: nat, payload: Option<nat>)
    requires Calm(s, ops) && ref < |Run(s, ops).work.records|
    requires Run(s, ops).work.records[ref].pump.Holding? && !Run(s, ops).work.records[ref].pump.msg.Delta?
    ensures
      var (w, r) := (Run(s, ops), Run(s, ops).work.records[ref]);
      var (e, code) := E.EnqueueTerminal(s.egress, w.line.egress, Owner(r), WireTerminal(r, r.pump.msg), payload);
      var v := FinishStep(s, w, ref, payload);
      && (code.Enqueued? <==> w.line.egress.accepting && FitsReserve(s.egress, payload))
      && !code.UnknownRequest? && !code.RequestFull?
      && (code.Enqueued? ==> v.work.records[ref].pump.Closing? && v.stopping == w.stopping && E.Inv(s.egress, e))
  {
    var (w, r) := (Run(s, ops), Run(s, ops).work.records[ref]);
    RunOk(s, ops);
    RunReserves(s, ops);
    GoodRecord(s, w, ref);
    HeldTerminal(s.limits, r);
    var t := WireTerminal(r, r.pump.msg);
    E.EnqueueTerminalInv(s.egress, w.line.egress, Owner(r), t, payload);
    assert w.line.egress.accepting ==> Open(w.line.egress, Owner(r));
    if w.line.egress.accepting && FitsReserve(s.egress, payload) {
      EgressRuns.TerminalFits(s.egress, w.line.egress, Owner(r), t, payload);
    }
  }

  /** What becomes of a delta that is offered in `w`. */
  ghost predicate DeltaFate(s: Setup, w: World, ref: nat, payload: Option<nat>)
    requires ref < |w.work.records| && w.work.records[ref].pump.Offering? && E.FrameSize(s.egress, payload).Some?
  {
    var (d, r, v) := (w.line.egress, w.work.records[ref], OfferStep(s, w, ref, payload));
    var code := E.EnqueueDelta(s.egress, d, Owner(r), r.pump.msg, payload).1;
    && Open(d, Owner(r))
    && (code.Enqueued? <==>
          E.Inv(s.egress, E.Append(d, Owner(r), E.Sized(r.pump.msg, E.FrameSize(s.egress, payload).value))))
    && (!code.Enqueued? ==> (code.RequestFull? || code.SessionFull?) && v.work.records[ref].pump.Pressed?)
    && v.stopping == w.stopping
  }

  lemma FateOfDelta(s: Setup, w: World, ref: nat, payload: Option<nat>)
    requires LineInv(s.egress, w.line) && w in BACKED && w.line.egress.accepting
    requires ref < |w.work.records| && w.work.records[ref].pump.Offering? && E.FrameSize(s.egress, payload).Some?
    requires w.work.records[ref].pump.msg.Delta? && w.work.records[ref].pump.msg.id == Owner(w.work.records[ref])
    ensures DeltaFate(s, w, ref, payload)
  {
    var r := w.work.records[ref];
    assert Open(w.line.egress, Owner(r));
    EgressRuns.DeltaAcceptedExactlyWhenSafe(s.egress, w.line.egress, Owner(r), r.pump.msg, payload);
    OfferForm(s, w, ref, r, payload);
  }

  /**
   While the egress accepts, a delta that can be framed is either enqueued, and exactly when
   every reservation survives it, or refused for want of room, which cancels the request.
   */
  lemma DeltaGetsInOrPresses(s: Setup, ops: seq<Op>, ref: nat, payload: Option<nat>)
    requires Calm(s, ops) && ref < |Run(s, ops).work.records| && Run(s, ops).work.records[ref].pump.Offering?
    requires Run(s, ops).line.egress.accepting && E.FrameSize(s.egress, payload).Some?
    ensures DeltaFate(s, Run(s, ops), ref, payload)
  {
    RunOk(s, ops);
    RunReserves(s, ops);
    GoodRecord(s, Run(s, ops), ref);
    OfferIsNext(s.limits, Run(s, ops).work.records[ref]);
    FateOfDelta(s, Run(s, ops), ref, payload);
  }
}
