/** The mailbox and the request state machine as the runtime holds them: objects updated in place. */
module RequestState {
  import opened Messages
  import opened RequestModel

  class GenerationMailbox {
    const limits: Limits
    var deltas: seq<Message>
    var terminal: Option<Message>
    var queuedTokens: nat
    var terminalCommitted: bool
    var closed: bool

    /** The events the consumer has taken so far. */
    ghost var taken: seq<Message>

    ghost function Box(): Mailbox
      reads this
    {
      Mailbox(deltas, terminal, terminalCommitted, closed)
    }

    /** The cached token count is right, both capacities hold, and only a committed Terminal is there. */
    ghost predicate Valid()
      reads this
    {
      && queuedTokens == TotalTokens(deltas) <= limits.maxTokens && |deltas| <= limits.maxDeltas
      && (terminal.Some? ==> terminalCommitted)
    }

    constructor (l: Limits)
      ensures Valid() && limits == l && Box() == NewPipe(0, 0).box && taken == []
    {
      limits := l;
      deltas, terminal, queuedTokens := [], None, 0;
      terminalCommitted, closed := false, false;
      taken := [];
    }

    method TryPushDelta(d: Message) returns (ok: bool)
      requires Valid() && d.Delta?
      modifies this
      ensures Valid() && taken == old(taken)
      ensures (Box(), ok) == RequestModel.TryPushDelta(limits, old(Box()), d)
    {
      if |d.tokens| == 0 { return false; }
      if closed || terminalCommitted { return false; }
      if |deltas| >= limits.maxDeltas { return false; }
      if |d.tokens| > limits.maxTokens - queuedTokens { return false; }
      TotalSnoc(deltas, d);
      deltas := deltas + [d];
      queuedTokens := queuedTokens + |d.tokens|;
      return true;
    }

    method PushTerminal(t: Message) returns (ok: bool)
      requires Valid()
      modifies this
      ensures Valid() && taken == old(taken)
      ensures (Box(), ok) == RequestModel.PushTerminal(old(Box()), t)
      ensures ok ==> Events(Box()) == old(Events(Box())) + [t]
      ensures !ok ==> Box() == old(Box())
      ensures closed || terminalCommitted
      ensures forall u :: !RequestModel.PushTerminal(Box(), u).1
      ensures forall d: Message | d.Delta? :: !RequestModel.TryPushDelta(limits, Box(), d).1
    {
      if closed || terminalCommitted { return false; }
      terminal := Some(t);
      terminalCommitted := true;
      return true;
    }

    method WaitPop() returns (r: Taken)
      requires Valid()
      modifies this
      ensures Valid()
      ensures (Box(), r) == TakeEvent(old(Box()))
      ensures taken == if r.Event? then old(taken) + [r.msg] else old(taken)
    {
      if |deltas| == 0 && terminal.None? && !closed { return Idle; }
      if |deltas| > 0 {
        var d := deltas[0];
        assert deltas == [d] + deltas[1..];
        TotalConcat([d], deltas[1..]);
        assert TotalTokens([d]) == Size(d);
        r := Event(d);
        deltas := deltas[1..];
        queuedTokens := queuedTokens - Size(d);
        taken := taken + [d];
        return;
      }
      if terminal.Some? {
        r := Event(terminal.value);
        taken := taken + [terminal.value];
        terminal := None;
        closed := true;
        return;
      }
      return BoxClosed;
    }

    method Close()
      requires Valid()
      modifies this
      ensures Valid() && taken == old(taken)
      ensures Box() == old(Box()).(closed := true)
      ensures Events(Box()) == old(Events(Box()))
      ensures |Events(Box())| == 0 ==> TakeEvent(Box()).1 == BoxClosed
      ensures forall u :: !RequestModel.PushTerminal(Box(), u).1
      ensures forall d: Message | d.Delta? :: !RequestModel.TryPushDelta(limits, Box(), d).1
    {
      closed := true;
    }
  }

  class RequestState {
    const externalId: Id
    const promptTokens: nat
    const mailbox: GenerationMailbox
    var phase: Phase
    var completionTokens: nat
    var nextSequenceNo: nat

    /**
     The request and its mailbox as one value. A new request is `NewPipe`, and every method
     here and of the mailbox moves it by one step of `RequestModel`, so `PipeInv` holds of it.
     */
    ghost function Pipe(): Pipe
      reads this, mailbox
    {
      RequestModel.Pipe(Request(externalId, promptTokens, phase, nextSequenceNo, completionTokens),
                        mailbox.Box(), mailbox.taken)
    }

    ghost predicate Valid()
      reads this, mailbox
    {
      mailbox.Valid()
    }

    constructor (id: Id, prompt: nat, box: GenerationMailbox)
      requires id != 0 && box.Valid() && box.Box() == NewPipe(id, prompt).box && box.taken == []
      ensures Valid() && mailbox == box && Pipe() == NewPipe(id, prompt)
    {
      externalId, promptTokens, mailbox := id, prompt, box;
      phase, completionTokens, nextSequenceNo := AcceptedPhase, 0, 0;
    }

    method MarkRunning() returns (ok: bool)
      requires Valid()
      modifies this
      ensures Valid() && (Pipe(), ok) == RequestModel.MarkRunning(old(Pipe()))
      ensures ok <==> phase == RunningPhase
      ensures old(phase) != AcceptedPhase ==> phase == old(phase)
      ensures Pipe() == old(Pipe()).(req := Pipe().req) && Committeds(Pipe()) == old(Committeds(Pipe()))
    {
      if phase == AcceptedPhase {
        phase := RunningPhase;
        return true;
      }
      return phase == RunningPhase;
    }

    method MarkCancelling() returns (ok: bool)
      requires Valid()
      modifies this
      ensures Valid() && (Pipe(), ok) == RequestModel.MarkCancelling(old(Pipe()))
      ensures phase == CancellingPhase || phase == TerminalPhase
      ensures ok <==> phase != old(phase)
      ensures forall tokens :: CommitDelta(mailbox.limits, Pipe(), tokens).0 == Pipe()
      ensures Pipe() == old(Pipe()).(req := Pipe().req) && Committeds(Pipe()) == old(Committeds(Pipe()))
    {
      if phase != AcceptedPhase && phase != RunningPhase { return false; }
      phase := CancellingPhase;
      return true;
    }

    method TryCommitDelta(tokens: seq<int>) returns (r: DeltaResult)
      requires Valid()
      modifies this, mailbox
      ensures Valid()
      ensures (Pipe(), r) == CommitDelta(mailbox.limits, old(Pipe()), tokens)
    {
      if phase == TerminalPhase { return DeltaTerminal; }
      if phase == CancellingPhase { return DeltaCancelling; }
      if |tokens| == 0 { return EmptyDelta; }
      r := Offer(tokens);
    }

    /** Offers a delta to the mailbox, and counts it if it was taken. */
    method Offer(tokens: seq<int>) returns (r: DeltaResult)
      requires Valid() && (phase == AcceptedPhase || phase == RunningPhase) && |tokens| > 0
      modifies this, mailbox
      ensures Valid()
      ensures Pipe() == CommitDelta(mailbox.limits, old(Pipe()), tokens).0
      ensures r == CommitDelta(mailbox.limits, old(Pipe()), tokens).1
    {
      ghost var p := Pipe();
      CommitForm(mailbox.limits, p, tokens);
      var ok := mailbox.TryPushDelta(Delta(externalId, nextSequenceNo, tokens));
      ghost var box := mailbox.Box();
      assert mailbox.taken == p.log;
      if !ok {
        assert box == p.box;
        return DeltaBackpressure;
      }
      nextSequenceNo, completionTokens, phase := nextSequenceNo + 1, completionTokens + |tokens|, RunningPhase;
      assert mailbox.Box() == box && mailbox.taken == p.log;
      return Committed;
    }

    method Finalize(code: StatusCode, finish: Option<FinishReason>) returns (r: FinalResult)
      requires Valid()
      modifies this, mailbox
      ensures Valid()
      ensures (Pipe(), r) == RequestModel.Finalize(old(Pipe()), code, finish)
    {
      if phase == TerminalPhase { return AlreadyCommitted; }
      ghost var p := Pipe();
      var ok := mailbox.PushTerminal(Terminal(externalId, code, finish, Usage(promptTokens, completionTokens)));
      assert mailbox.taken == p.log;
      if !ok { return MailboxRejected; }
      phase := TerminalPhase;
      return FinalCommitted;
    }
  }
}
