/** The pump thread's loop, given what the rest of the system does during each of its rounds. */
module PumpLoop {
  import opened Messages
  import opened RequestModel
  import opened Protocol
  import opened Bridge
  import E = EgressModel

  /** One round: the backend's steps before the pop, whether someone cancels, and the egress's answer. */
  datatype Round = Round(work: seq<PipeOp>, cancelled: bool, answer: E.EnqueueCode)

  /** What the pump has sent: its forwarded deltas, and after them the Terminal once it is done with it. */
  predicate SentBy(r: Record, sent: seq<Message>) {
    if r.pump.Ending? then
      && |sent| == |r.forwarded| + 1 && sent[..|r.forwarded|] == r.forwarded
      && sent[|r.forwarded|].Terminal? && sent[|r.forwarded|].id == Owner(r)
      && sent[|r.forwarded|].usage.completion >= TotalTokens(r.forwarded)
    else sent == r.forwarded
  }

  lemma SentIsLegal(l: Limits, r: Record, sent: seq<Message>)
    requires RecordOk(l, r) && SentBy(r, sent)
    ensures LegalWord([Accepted(Owner(r))] + sent)
  {
    OnceOnly(l, r);
    assert forall i | 0 <= i < |r.forwarded| :: sent[i] == r.forwarded[i];
  }

  /** What a round makes of the delta a pump holds. */
  function DeltaRound(r: Record, round: Round): Record {
    var c := if round.cancelled then CancelRecord(r, false) else r;
    if c.cancelRequested then Check(c) else Press(Offered(Check(c), round.answer))
  }

  lemma DeltaRoundOk(l: Limits, r: Record, round: Round)
    requires RecordOk(l, r) && r.pump.Holding? && r.pump.msg.Delta?
    ensures RecordOk(l, DeltaRound(r, round)) && Owner(DeltaRound(r, round)) == Owner(r)
  {
    var c := if round.cancelled then CancelRecord(r, false) else r;
    CancelOk(r, false);
    CheckOk(c);
    OfferedOk(Check(c), round.answer);
    PressOk(Offered(Check(c), round.answer));
  }

  /** A delta goes out exactly when no cancel was requested and the egress takes it; dropping one requests a cancel. */
  lemma DeltaRoundEffect(r: Record, round: Round)
    requires r.pump.Holding? && r.pump.msg.Delta? && !r.terminalEnqueued
    ensures
      var q := DeltaRound(r, round);
      var out := !r.cancelRequested && !round.cancelled && round.answer.Enqueued?;
      && q.forwarded == (if out then r.forwarded + [r.pump.msg] else r.forwarded)
      && (q.pump.Looping? || q.pump.Done?)
      && (q.pump.Looping? ==> out || q.cancelRequested)
  {
  }

  method HandleDelta(l: Limits, start: Record, round: Round, before: seq<Message>) returns (r: Record, sent: seq<Message>)
    requires RecordOk(l, start) && start.pump.Holding? && start.pump.msg.Delta? && before == start.forwarded
    ensures RecordOk(l, r) && Owner(r) == Owner(start) && sent == r.forwarded
    ensures sent == if !start.cancelRequested && !round.cancelled && round.answer.Enqueued?
                    then before + [start.pump.msg] else before
    ensures r.pump.Looping? || r.pump.Done?
    ensures r.pump.Looping? && sent == before ==> r.cancelRequested
  {
    DeltaRoundOk(l, start, round);
    DeltaRoundEffect(start, round);
    r := start;
    sent := before;
    if round.cancelled { r := CancelRecord(r, false); }
    r := Check(r);
    if r.pump.Offering? {
      if round.answer.Enqueued? { sent := sent + [r.pump.msg]; }
      r := Press(Offered(r, round.answer));
    }
  }

  method HandleTerminal(l: Limits, start: Record, round: Round, before: seq<Message>) returns (r: Record, sent: seq<Message>)
    requires RecordOk(l, start) && start.pump.Holding? && !start.pump.msg.Delta? && before == start.forwarded
    ensures RecordOk(l, r) && Owner(r) == Owner(start) && SentBy(r, sent)
    ensures if round.answer.Enqueued? then r.pump.Ending? && r.terminalEnqueued else r.pump.Done? && sent == before
  {
    HeldTerminal(l, start);
    UsageCoversForwarded(l, start);
    ClosedOk(start, round.answer);
    r := Closed(start, round.answer);
    sent := before;
    if round.answer.Enqueued? { sent := sent + [WireTerminal(start, start.pump.msg)]; }
    MarkOk(r);
    r := Mark(r);
  }

  /** A pop keeps the owner and what was forwarded. */
  lemma PopKeeps(r: Record)
    ensures Owner(PopEvent(r).0) == Owner(r) && PopEvent(r).0.forwarded == r.forwarded
    ensures r.pump.Looping? ==> !PopEvent(r).0.pump.Ending?
  {
  }

  method OneRound(l: Limits, start: Record, round: Round, before: seq<Message>) returns (r: Record, sent: seq<Message>)
    requires RecordOk(l, start) && start.pump.Looping? && before == start.forwarded
    ensures RecordOk(l, r) && Owner(r) == Owner(start) && SentBy(r, sent)
  {
    r, sent := start, before;
    for i := 0 to |round.work|
      invariant RecordOk(l, r) && Owner(r) == Owner(start) && r.pump.Looping? && r.forwarded == before
    {
      if ByBackend(round.work[i]) {
        BackendOk(l, r, round.work[i]);
        BackendLog(l, r.pipe, round.work[i]);
        r := Backend(l, r, round.work[i]);
      }
    }
    PopOk(l, r);
    PopKeeps(r);
    r := PopEvent(r).0;
    if r.pump.Holding? {
      if r.pump.msg.Delta? {
        r, sent := HandleDelta(l, r, round, sent);
      } else {
        r, sent := HandleTerminal(l, r, round, sent);
      }
    }
  }

  /**
   The loop of `requestPumpLoop` from the gate on, until its Terminal is enqueued, the egress
   ends it, or the rounds run out. Whatever happens in between, Accepted and what it sent form
   a legal word; with its Terminal out and no cancel requested it has sent every delta of the
   request; and if the gate was abandoned it has sent nothing.
   */
  method RequestPumpLoop(l: Limits, start: Record, rounds: seq<Round>) returns (r: Record, sent: seq<Message>)
    requires RecordOk(l, start) && start.pump.AtGate?
    ensures RecordOk(l, r) && Owner(r) == Owner(start) && SentBy(r, sent)
    ensures LegalWord([Accepted(Owner(start))] + sent)
    ensures r.pump.Ending? && !r.cancelRequested ==> r.forwarded == Committeds(r.pipe)
    ensures start.abandoned || !start.allowed ==> sent == []
  {
    GateOk(start);
    r := PassGate(start);
    sent := [];
    var i := 0;
    while i < |rounds| && r.pump.Looping?
      invariant RecordOk(l, r) && Owner(r) == Owner(start) && SentBy(r, sent)
      invariant start.abandoned || !start.allowed ==> sent == [] && !r.pump.Looping?
    {
      r, sent := OneRound(l, r, rounds[i], sent);
      i := i + 1;
    }
    SentIsLegal(l, r, sent);
    if r.pump.Ending? && !r.cancelRequested { NothingHeldBack(l, r); }
  }
}
