/**
 One request record of the runtime bridge: its accept gate, its flags, and the pump thread
 that forwards events from the request's mailbox. Each access to state that another thread
 can change is a step of its own; flags and counters only the pump itself uses go with it.
 */
module Bridge {
  import opened Messages
  import opened RequestModel
  import E = EgressModel

  /** Where the pump thread is. Closing and Ending follow an enqueued Terminal. */
  datatype Pump =
    | NotStarted
    | AtGate
    | Looping
    | Holding(msg: Message)
    | Offering(msg: Message)
    | Pressed
    | Closing
    | Ending
    | Done

  /**
   `forwarded` are the deltas put into the egress. `pressures` and `cancels` count how often
   the backpressure counter grew for the record and how often `cancelRecord` called
   `runtime.cancel`; `direct` counts the handler's own call when the pump cannot be started.
   */
  datatype Record = Record(
    pipe: Pipe,
    pump: Pump,
    allowed: bool,
    abandoned: bool,
    cancelRequested: bool,
    backpressure: bool,
    terminalEnqueued: bool,
    forwarded: seq<Message>,
    pressures: nat,
    cancels: nat,
    direct: nat)

  function NewRecord(x: Id, prompt: nat): Record {
    Record(NewPipe(x, prompt), NotStarted, false, false, false, false, false, [], 0, 0, 0)
  }

  function Owner(r: Record): Id { r.pipe.req.id }

  /**
   `cancelRecord`: `saw` is what it loaded from `terminal_enqueued`; the exchange that follows
   lets only the first caller through.
   */
  function CancelRecord(r: Record, saw: bool): Record {
    if saw || r.cancelRequested then r else r.(cancelRequested := true, cancels := r.cancels + 1)
  }

  /** The handler withdraws a record whose pump it could not start. */
  function Withdraw(r: Record): Record { r.(abandoned := true, direct := r.direct + 1) }

  function PassGate(r: Record): Record {
    if !r.pump.AtGate? || !(r.allowed || r.abandoned) then r
    else r.(pump := if r.allowed && !r.abandoned then Looping else Done)
  }

  /** One `waitPop` on the mailbox; true when it found the mailbox closed without a Terminal. */
  function PopEvent(r: Record): (Record, bool) {
    if !r.pump.Looping? then (r, false)
    else
      var (p, e) := Take(r.pipe);
      match e
      case Event(m) => (r.(pipe := p, pump := Holding(m)), false)
      case Idle => (r, false)
      case BoxClosed => (r.(pump := Done), true)
  }

  /** A delta is dropped once a cancel was requested. */
  function Check(r: Record): Record {
    if !r.pump.Holding? || !r.pump.msg.Delta? then r
    else r.(pump := if r.cancelRequested then Looping else Offering(r.pump.msg))
  }

  /** What the pump does with the egress's answer to the delta it offered. */
  function Offered(r: Record, code: E.EnqueueCode): Record {
    if !r.pump.Offering? then r
    else if code.Enqueued? then r.(pump := Looping, forwarded := r.forwarded + [r.pump.msg])
    else if code.RequestFull? || code.SessionFull? then r.(pump := Pressed)
    else r.(pump := Done)
  }

  function Press(r: Record): Record {
    if !r.pump.Pressed? then r
    else CancelRecord(r.(pump := Looping, pressures := r.pressures + 1, backpressure := true), r.terminalEnqueued)
  }

  /** The Terminal as it goes over the wire. */
  function WireTerminal(r: Record, t: Message): Message {
    if !t.Terminal? || !r.backpressure then t
    else Terminal(t.id, QueueFull, Some(Backpressure), t.usage)
  }

  function Closed(r: Record, code: E.EnqueueCode): Record {
    if !r.pump.Holding? then r else r.(pump := if code.Enqueued? then Closing else Done)
  }

  function Mark(r: Record): Record {
    if r.pump.Closing? then r.(pump := Ending, terminalEnqueued := true) else r
  }

  function End(r: Record): Record { if r.pump.Ending? then r.(pump := Done) else r }

  function Exit(r: Record): Record { if r.pump.Looping? then r.(pump := Done) else r }

  /** The backend at work on the request; only the pump takes events, and nobody closes the mailbox by hand. */
  predicate ByBackend(op: PipeOp) { !op.OpTake? && !op.OpClose? }

  function Backend(l: Limits, r: Record, op: PipeOp): Record { r.(pipe := PipeStep(l, r.pipe, op)) }

  // ---------- what every step keeps

  /** The last event popped is `m`. */
  predicate JustPopped(r: Record, m: Message) {
    |r.pipe.log| > 0 && r.pipe.log[|r.pipe.log| - 1] == m
  }

  /** Every popped event was forwarded, except the last `held`. */
  predicate AllForwardedBut(r: Record, held: nat) { |r.forwarded| + held == |r.pipe.log| }

  /** The Terminal was popped, and all deltas before it were forwarded unless a cancel was requested. */
  predicate Finished(r: Record) {
    Ended(r.pipe.log) && (AllForwardedBut(r, 1) || r.cancelRequested)
  }

  predicate PumpOk(r: Record) {
    match r.pump
    case NotStarted => |r.pipe.log| == 0
    case AtGate => |r.pipe.log| == 0
    case Looping => !Ended(r.pipe.log) && (AllForwardedBut(r, 0) || r.cancelRequested)
    case Holding(m) => JustPopped(r, m) && (AllForwardedBut(r, 1) || r.cancelRequested)
    case Offering(m) => JustPopped(r, m) && m.Delta? && AllForwardedBut(r, 1)
    case Pressed => |r.pipe.log| > 0 && !Ended(r.pipe.log) && AllForwardedBut(r, 1)
    case Closing => Finished(r)
    case Ending => Finished(r)
    case Done => r.terminalEnqueued ==> Finished(r)
  }

  predicate FlagsOk(r: Record) {
    && r.cancels == (if r.cancelRequested then 1 else 0)
    && r.pressures == (if r.backpressure then 1 else 0)
    && (r.backpressure ==> r.cancelRequested && !r.pump.Offering? && !r.pump.Pressed?)
    && (r.terminalEnqueued ==> r.pump.Ending? || r.pump.Done?)
    && r.direct <= 1 && (r.direct == 1 ==> r.pump.NotStarted? && r.abandoned)
  }

  /** The forwarded deltas are the first popped ones. */
  predicate LocalOk(r: Record) {
    r.forwarded <= DeltasOf(r.pipe.log) && PumpOk(r) && FlagsOk(r)
  }

  predicate RecordOk(l: Limits, r: Record) { PipeInv(l, r.pipe) && LocalOk(r) }

  lemma NewRecordOk(l: Limits, x: Id, prompt: nat)
    ensures RecordOk(l, NewRecord(x, prompt))
  {
    NewInv(l, x, prompt);
  }

  lemma CancelOk(r: Record, saw: bool)
    requires LocalOk(r)
    ensures LocalOk(CancelRecord(r, saw))
  {
  }

  lemma GateOk(r: Record)
    requires LocalOk(r)
    ensures LocalOk(PassGate(r))
  {
  }

  lemma PoppedOk(r: Record, p: Pipe, m: Message)
    requires LocalOk(r) && r.pump.Looping? && p.log == r.pipe.log + [m]
    ensures LocalOk(r.(pipe := p, pump := Holding(m)))
  {
    assert r.pipe.log <= DeltasOf(p.log);
  }

  lemma PopOk(l: Limits, r: Record)
    requires RecordOk(l, r)
    ensures RecordOk(l, PopEvent(r).0)
  {
    if r.pump.Looping? && Take(r.pipe).1.Event? {
      TakeInv(l, r.pipe);
      PoppedOk(r, Take(r.pipe).0, Take(r.pipe).1.msg);
    }
  }

  lemma CheckOk(r: Record)
    requires LocalOk(r)
    ensures LocalOk(Check(r))
  {
  }

  /** The last event popped is a delta or the Terminal. */
  lemma LastEvent(l: Limits, p: Pipe)
    requires PipeInv(l, p) && |p.log| > 0
    ensures
      var m := p.log[|p.log| - 1];
      if Ended(p.log) then IsFinal(p, m) else m.Delta? && m.id == p.req.id && m.seqNo == |p.log| - 1
  {
    if !Ended(p.log) {
      assert Committeds(p)[|p.log| - 1] == p.log[|p.log| - 1];
    }
  }

  /** The delta on offer is the next one: its number is that of the deltas forwarded so far. */
  lemma OfferIsNext(l: Limits, r: Record)
    requires RecordOk(l, r) && r.pump.Offering?
    ensures r.pump.msg.Delta? && r.pump.msg.id == Owner(r) && r.pump.msg.seqNo == |r.forwarded|
  {
    LastEvent(l, r.pipe);
  }

  /** A pump that has forwarded all it popped goes on looping. */
  lemma AllForwardedOk(r: Record)
    requires FlagsOk(r) && r.pump.Offering? && !Ended(r.pipe.log)
    ensures LocalOk(r.(pump := Looping, forwarded := r.pipe.log))
  {
  }

  lemma OfferIsLast(r: Record)
    requires r.forwarded <= DeltasOf(r.pipe.log) && PumpOk(r) && r.pump.Offering?
    ensures r.forwarded + [r.pump.msg] == r.pipe.log && !Ended(r.pipe.log)
  {
  }

  lemma OfferedOk(r: Record, code: E.EnqueueCode)
    requires LocalOk(r)
    ensures LocalOk(Offered(r, code))
  {
    if r.pump.Offering? && code.Enqueued? {
      OfferIsLast(r);
      AllForwardedOk(r);
      assert Offered(r, code) == r.(pump := Looping, forwarded := r.pipe.log);
    }
  }

  lemma PressOk(r: Record)
    requires LocalOk(r)
    ensures LocalOk(Press(r))
  {
  }

  /** A held event that is no delta is the request's Terminal. */
  lemma HeldTerminal(l: Limits, r: Record)
    requires RecordOk(l, r) && r.pump.Holding? && !r.pump.msg.Delta?
    ensures IsFinal(r.pipe, r.pump.msg) && Ended(r.pipe.log)
    ensures WireTerminal(r, r.pump.msg).Terminal? && WireTerminal(r, r.pump.msg).id == Owner(r)
  {
    LastEvent(l, r.pipe);
  }

  lemma ClosedOk(r: Record, code: E.EnqueueCode)
    requires LocalOk(r) && (r.pump.Holding? ==> Ended(r.pipe.log))
    ensures LocalOk(Closed(r, code))
  {
  }

  lemma MarkOk(r: Record)
    requires LocalOk(r)
    ensures LocalOk(Mark(r))
  {
  }

  lemma EndOk(r: Record)
    requires LocalOk(r)
    ensures LocalOk(End(r)) && LocalOk(Exit(r))
  {
  }

  lemma BackendLog(l: Limits, p: Pipe, op: PipeOp)
    requires ByBackend(op)
    ensures PipeStep(l, p, op).log == p.log && PipeStep(l, p, op).req.id == p.req.id
  {
  }

  lemma BackendOk(l: Limits, r: Record, op: PipeOp)
    requires RecordOk(l, r) && ByBackend(op)
    ensures RecordOk(l, Backend(l, r, op))
  {
    var p := PipeStep(l, r.pipe, op);
    PipeStepInv(l, r.pipe, op);
    BackendLog(l, r.pipe, op);
    NewPipeOk(r, p);
  }

  lemma NewPipeOk(r: Record, p: Pipe)
    requires LocalOk(r) && p.log == r.pipe.log
    ensures LocalOk(r.(pipe := p))
  {
  }

  // ---------- what a record guarantees

  lemma PrefixTokens(a: seq<Message>, b: seq<Message>)
    requires a <= b
    ensures TotalTokens(a) <= TotalTokens(b)
  {
    TotalConcat(a, b[|a|..]);
    assert b == a + b[|a|..];
  }

  /**
   In whatever order clients, egress and shutdown cancel: `cancelRecord` calls
   `runtime.cancel` at most once and backpressure is counted at most once for a record, and
   the forwarded deltas are the first ones of the request, so that nothing is forwarded after
   a dropped delta. `runtime.cancel` is called twice exactly when the pump could not be
   started and someone else cancelled the record as well.
   */
  lemma OnceOnly(l: Limits, r: Record)
    requires RecordOk(l, r)
    ensures r.cancels <= 1 && r.pressures <= 1
    ensures r.cancels + r.direct <= 2 && (r.cancels + r.direct == 2 <==> r.direct > 0 && r.cancelRequested)
    ensures r.direct > 0 ==> r.pump.NotStarted? && r.forwarded == []
    ensures r.forwarded <= Committeds(r.pipe) && Numbered(Owner(r), r.forwarded)
  {
    assert DeltasOf(r.pipe.log) <= Committeds(r.pipe);
    assert forall i | 0 <= i < |r.forwarded| :: r.forwarded[i] == Committeds(r.pipe)[i];
  }

  /** A request whose Terminal was enqueued without a cancel had every delta forwarded. */
  lemma NothingHeldBack(l: Limits, r: Record)
    requires RecordOk(l, r) && (r.pump.Closing? || r.pump.Ending? || r.terminalEnqueued) && !r.cancelRequested
    ensures r.forwarded == Committeds(r.pipe)
  {
    assert Ended(r.pipe.log) && |r.pipe.box.deltas| == 0;
  }

  /**
   The Terminal about to be sent reports at least the tokens that were forwarded, and exactly
   those when no cancel was requested.
   */
  lemma UsageCoversForwarded(l: Limits, r: Record)
    requires RecordOk(l, r) && r.pump.Holding? && !r.pump.msg.Delta?
    ensures
      var t := WireTerminal(r, r.pump.msg);
      && t.Terminal? && t.usage.completion >= TotalTokens(r.forwarded)
      && (!r.cancelRequested ==> t.usage.completion == TotalTokens(r.forwarded))
  {
    HeldTerminal(l, r);
    OnceOnly(l, r);
    PrefixTokens(r.forwarded, Committeds(r.pipe));
    if !r.cancelRequested {
      assert Ended(r.pipe.log) && |r.pipe.box.deltas| == 0;
      assert r.forwarded == Committeds(r.pipe);
    }
  }
}
