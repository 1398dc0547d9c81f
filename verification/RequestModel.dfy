/**
 One request inside the runtime as a value: its phase machine, its mailbox, and the log of
 events the consumer has taken out. `RequestState` and `GenerationMailbox` are the classes
 that refine it.
 */
module RequestModel {
  import opened Messages

  datatype RawLimits = RawLimits(maxDeltas: nat, maxTokens: nat)

  /** Mailbox capacities the constructor accepts. */
  type Limits = l: RawLimits | l.maxDeltas > 0 && l.maxTokens > 0 witness RawLimits(1, 1)

  datatype Phase = AcceptedPhase | RunningPhase | CancellingPhase | TerminalPhase

  datatype Mailbox = Mailbox(deltas: seq<Message>, terminal: Option<Message>, committed: bool, closed: bool)

  datatype Request = Request(id: Id, prompt: nat, phase: Phase, nextSeq: nat, completion: nat)

  datatype Pipe = Pipe(req: Request, box: Mailbox, log: seq<Message>)

  datatype Taken = Event(msg: Message) | Idle | BoxClosed

  datatype DeltaResult = Committed | EmptyDelta | DeltaBackpressure | DeltaCancelling | DeltaTerminal

  datatype FinalResult = FinalCommitted | AlreadyCommitted | MailboxRejected

  function NewPipe(id: Id, prompt: nat): Pipe {
    Pipe(Request(id, prompt, AcceptedPhase, 0, 0), Mailbox([], None, false, false), [])
  }

  function Size(m: Message): nat { if m.Delta? then |m.tokens| else 0 }

  function TotalTokens(ms: seq<Message>): nat {
    if |ms| == 0 then 0 else TotalTokens(ms[..|ms| - 1]) + Size(ms[|ms| - 1])
  }

  // ---------- mailbox

  function TryPushDelta(l: Limits, b: Mailbox, d: Message): (r: (Mailbox, bool))
    requires d.Delta?
  {
    if |d.tokens| == 0 || b.closed || b.committed then (b, false)
    else if |b.deltas| >= l.maxDeltas || TotalTokens(b.deltas) + |d.tokens| > l.maxTokens then (b, false)
    else (b.(deltas := b.deltas + [d]), true)
  }

  function PushTerminal(b: Mailbox, t: Message): (r: (Mailbox, bool)) {
    if b.closed || b.committed then (b, false)
    else (b.(terminal := Some(t), committed := true), true)
  }

  function TakeEvent(b: Mailbox): (r: (Mailbox, Taken)) {
    if |b.deltas| > 0 then (b.(deltas := b.deltas[1..]), Event(b.deltas[0]))
    else if b.terminal.Some? then (b.(terminal := None, closed := true), Event(b.terminal.value))
    else (b, if b.closed then BoxClosed else Idle)
  }

  /** What the consumer has still to take. */
  function Events(b: Mailbox): seq<Message> {
    b.deltas + (if b.terminal.Some? then [b.terminal.value] else [])
  }

  // ---------- request state over its mailbox

  function MarkRunning(p: Pipe): (r: (Pipe, bool)) {
    if p.req.phase.AcceptedPhase? then (p.(req := p.req.(phase := RunningPhase)), true)
    else (p, p.req.phase.RunningPhase?)
  }

  function MarkCancelling(p: Pipe): (r: (Pipe, bool)) {
    if p.req.phase.AcceptedPhase? || p.req.phase.RunningPhase?
    then (p.(req := p.req.(phase := CancellingPhase)), true)
    else (p, false)
  }

  function CommitDelta(l: Limits, p: Pipe, tokens: seq<int>): (r: (Pipe, DeltaResult)) {
    if p.req.phase.TerminalPhase? then (p, DeltaTerminal)
    else if p.req.phase.CancellingPhase? then (p, DeltaCancelling)
    else if |tokens| == 0 then (p, EmptyDelta)
    else
      var (box, ok) := TryPushDelta(l, p.box, Delta(p.req.id, p.req.nextSeq, tokens));
      if !ok then (p, DeltaBackpressure)
      else (p.(box := box, req := p.req.(nextSeq := p.req.nextSeq + 1,
                                         completion := p.req.completion + |tokens|,
                                         phase := RunningPhase)), Committed)
  }

  function Finalize(p: Pipe, code: StatusCode, finish: Option<FinishReason>): (r: (Pipe, FinalResult)) {
    if p.req.phase.TerminalPhase? then (p, AlreadyCommitted)
    else
      var t := Terminal(p.req.id, code, finish, Usage(p.req.prompt, p.req.completion));
      var (box, ok) := PushTerminal(p.box, t);
      if !ok then (p, MailboxRejected)
      else (p.(box := box, req := p.req.(phase := TerminalPhase)), FinalCommitted)
  }

  function Take(p: Pipe): (r: (Pipe, Taken)) {
    var (box, e) := TakeEvent(p.box);
    (p.(box := box, log := if e.Event? then p.log + [e.msg] else p.log), e)
  }

  function CloseBox(p: Pipe): Pipe { p.(box := p.box.(closed := true)) }

  // ---------- runs

  datatype PipeOp =
    | OpCommit(tokens: seq<int>)
    | OpRunning
    | OpCancelling
    | OpFinalize(code: StatusCode, finish: Option<FinishReason>)
    | OpTake
    | OpClose

  function PipeStep(l: Limits, p: Pipe, op: PipeOp): Pipe {
    match op
    case OpCommit(tokens) => CommitDelta(l, p, tokens).0
    case OpRunning => MarkRunning(p).0
    case OpCancelling => MarkCancelling(p).0
    case OpFinalize(code, finish) => Finalize(p, code, finish).0
    case OpTake => Take(p).0
    case OpClose => CloseBox(p)
  }

  function PipeRun(l: Limits, p: Pipe, ops: seq<PipeOp>): Pipe {
    if |ops| == 0 then p else PipeStep(l, PipeRun(l, p, ops[..|ops| - 1]), ops[|ops| - 1])
  }

  /** The consumer has taken the Terminal. */
  predicate Ended(log: seq<Message>) {
    |log| > 0 && log[|log| - 1].Terminal?
  }

  function DeltasOf(log: seq<Message>): seq<Message> {
    if Ended(log) then log[..|log| - 1] else log
  }

  /** Every delta the request ever committed: those taken, then those still queued. */
  function Committeds(p: Pipe): seq<Message> { DeltasOf(p.log) + p.box.deltas }

  /** Deltas of `id` numbered from zero without a gap, none of them empty. */
  predicate Numbered(id: Id, ds: seq<Message>) {
    forall i | 0 <= i < |ds| :: ds[i].Delta? && ds[i].id == id && ds[i].seqNo == i && |ds[i].tokens| > 0
  }

  predicate IsFinal(p: Pipe, t: Message) {
    t.Terminal? && t.id == p.req.id && t.usage == Usage(p.req.prompt, p.req.completion)
  }

  predicate PipeInv(l: Limits, p: Pipe) {
    && Numbered(p.req.id, Committeds(p))
    && |Committeds(p)| == p.req.nextSeq
    && TotalTokens(Committeds(p)) == p.req.completion
    && |p.box.deltas| <= l.maxDeltas && TotalTokens(p.box.deltas) <= l.maxTokens
    && (p.req.phase.TerminalPhase? <==> p.box.committed)
    && (p.box.terminal.Some? ==> p.box.committed && IsFinal(p, p.box.terminal.value))
    && (Ended(p.log) <==> p.box.committed && p.box.terminal.None?)
    && (Ended(p.log) ==> p.box.closed && |p.box.deltas| == 0 && IsFinal(p, p.log[|p.log| - 1]))
  }

  lemma TotalSnoc(ms: seq<Message>, m: Message)
    ensures TotalTokens(ms + [m]) == TotalTokens(ms) + Size(m)
  {
    assert (ms + [m])[..|ms|] == ms;
  }

  lemma {:induction false} TotalConcat(a: seq<Message>, b: seq<Message>)
    ensures TotalTokens(a + b) == TotalTokens(a) + TotalTokens(b)
  {
    if |b| == 0 {
      assert a + b == a;
    } else {
      var n := |b| - 1;
      assert (a + b)[..|a| + n] == a + b[..n];
      TotalConcat(a, b[..n]);
    }
  }

  lemma NewInv(l: Limits, id: Id, prompt: nat)
    ensures PipeInv(l, NewPipe(id, prompt))
  {
  }

  lemma CommitInv(l: Limits, p: Pipe, tokens: seq<int>)
    requires PipeInv(l, p)
    ensures PipeInv(l, CommitDelta(l, p, tokens).0)
    ensures CommitDelta(l, p, tokens).1 == Committed ==>
              Committeds(CommitDelta(l, p, tokens).0) == Committeds(p) + [Delta(p.req.id, p.req.nextSeq, tokens)]
  {
    if CommitDelta(l, p, tokens).1 == Committed {
      var d := Delta(p.req.id, p.req.nextSeq, tokens);
      assert DeltasOf(p.log) + (p.box.deltas + [d]) == Committeds(p) + [d];
      TotalSnoc(Committeds(p), d);
      TotalSnoc(p.box.deltas, d);
    }
  }

  /** The two outcomes of offering a delta to the mailbox. */
  lemma CommitForm(l: Limits, p: Pipe, tokens: seq<int>)
    requires (p.req.phase.AcceptedPhase? || p.req.phase.RunningPhase?) && |tokens| > 0
    ensures
      var (box, ok) := TryPushDelta(l, p.box, Delta(p.req.id, p.req.nextSeq, tokens));
      && (!ok ==> box == p.box)
      && CommitDelta(l, p, tokens) ==
           if !ok then (p, DeltaBackpressure)
           else (Pipe(Request(p.req.id, p.req.prompt, RunningPhase, p.req.nextSeq + 1, p.req.completion + |tokens|),
                      box, p.log), Committed)
  {
  }

  lemma FinalizeInv(l: Limits, p: Pipe, code: StatusCode, finish: Option<FinishReason>)
    requires PipeInv(l, p)
    ensures PipeInv(l, Finalize(p, code, finish).0)
  {
  }

  /** A take moves the next event from the mailbox to the log and loses nothing. */
  lemma TakeInv(l: Limits, p: Pipe)
    requires PipeInv(l, p)
    ensures PipeInv(l, Take(p).0)
    ensures Committeds(Take(p).0) == Committeds(p)
    ensures Take(p).1.Event? ==> !Ended(p.log)
    ensures Take(p).1.Event? && Take(p).1.msg.Delta? ==>
              Take(p).1.msg.id == p.req.id && Take(p).1.msg.seqNo == |p.log| && Take(p).0.log == p.log + [Take(p).1.msg]
    ensures Take(p).1.Event? && !Take(p).1.msg.Delta? ==> IsFinal(p, Take(p).1.msg) && p.req.nextSeq == |p.log|
  {
    var q := Take(p).0;
    if |p.box.deltas| > 0 {
      var d := p.box.deltas[0];
      assert !Ended(p.log);
      assert d == Committeds(p)[|p.log|];
      assert (p.log + [d]) + p.box.deltas[1..] == p.log + p.box.deltas;
      assert p.box.deltas == [d] + p.box.deltas[1..];
      TotalConcat([d], p.box.deltas[1..]);
    } else if p.box.terminal.Some? {
      assert q.log[..|q.log| - 1] == p.log;
    }
  }

  lemma PipeStepInv(l: Limits, p: Pipe, op: PipeOp)
    requires PipeInv(l, p)
    ensures PipeInv(l, PipeStep(l, p, op))
  {
    match op
    case OpCommit(tokens) => CommitInv(l, p, tokens);
    case OpFinalize(code, finish) => FinalizeInv(l, p, code, finish);
    case OpTake => TakeInv(l, p);
    case _ =>
  }

  lemma {:induction false} PipeRunInv(l: Limits, id: Id, prompt: nat, ops: seq<PipeOp>)
    ensures PipeInv(l, PipeRun(l, NewPipe(id, prompt), ops))
  {
    if |ops| > 0 {
      PipeRunInv(l, id, prompt, ops[..|ops| - 1]);
      PipeStepInv(l, PipeRun(l, NewPipe(id, prompt), ops[..|ops| - 1]), ops[|ops| - 1]);
    }
  }

  // ---------- what the consumer sees

  /**
   In every run the consumer has taken deltas numbered from zero, then at most one Terminal,
   which comes last and whose completion count is the number of tokens in those deltas.
   */
  lemma ConsumerStream(l: Limits, id: Id, prompt: nat, ops: seq<PipeOp>)
    ensures
      var log := PipeRun(l, NewPipe(id, prompt), ops).log;
      && Numbered(id, DeltasOf(log))
      && (Ended(log) ==>
            && log[|log| - 1].id == id
            && log[|log| - 1].usage == Usage(prompt, TotalTokens(DeltasOf(log))))
  {
    PipeRunInv(l, id, prompt, ops);
    var p := PipeRun(l, NewPipe(id, prompt), ops);
    Identity(l, id, prompt, ops);
    assert forall i | 0 <= i < |DeltasOf(p.log)| :: DeltasOf(p.log)[i] == Committeds(p)[i];
    if Ended(p.log) {
      assert Committeds(p) == DeltasOf(p.log);
    }
  }

  lemma {:induction false} Identity(l: Limits, id: Id, prompt: nat, ops: seq<PipeOp>)
    ensures PipeRun(l, NewPipe(id, prompt), ops).req.id == id
    ensures PipeRun(l, NewPipe(id, prompt), ops).req.prompt == prompt
  {
    if |ops| > 0 { Identity(l, id, prompt, ops[..|ops| - 1]); }
  }

  /** The token lists whose commit succeeded, in order. */
  function CommittedTokens(l: Limits, p: Pipe, ops: seq<PipeOp>): seq<seq<int>> {
    if |ops| == 0 then []
    else
      var (before, op) := (ops[..|ops| - 1], ops[|ops| - 1]);
      var earlier := CommittedTokens(l, p, before);
      if op.OpCommit? && CommitDelta(l, PipeRun(l, p, before), op.tokens).1 == Committed
      then earlier + [op.tokens] else earlier
  }

  function Contents(ds: seq<Message>): seq<seq<int>> {
    seq(|ds|, i requires 0 <= i < |ds| => if ds[i].Delta? then ds[i].tokens else [])
  }

  lemma ContentsSnoc(ds: seq<Message>, d: Message)
    requires d.Delta?
    ensures Contents(ds + [d]) == Contents(ds) + [d.tokens]
  {
  }

  /** A step adds the tokens it commits, and nothing else, to what was committed. */
  lemma StepContents(l: Limits, p: Pipe, op: PipeOp)
    requires PipeInv(l, p)
    ensures
      var commits := op.OpCommit? && CommitDelta(l, p, op.tokens).1 == Committed;
      Contents(Committeds(PipeStep(l, p, op))) == Contents(Committeds(p)) + (if commits then [op.tokens] else [])
  {
    if op.OpTake? {
      TakeInv(l, p);
    } else if op.OpCommit? && CommitDelta(l, p, op.tokens).1 == Committed {
      CommitInv(l, p, op.tokens);
      ContentsSnoc(Committeds(p), Delta(p.req.id, p.req.nextSeq, op.tokens));
    } else {
      assert Committeds(PipeStep(l, p, op)) == Committeds(p);
    }
  }

  /** Taken and queued deltas carry exactly the committed tokens, in commit order. */
  lemma {:induction false} NothingLost(l: Limits, id: Id, prompt: nat, ops: seq<PipeOp>)
    ensures
      var p := PipeRun(l, NewPipe(id, prompt), ops);
      Contents(Committeds(p)) == CommittedTokens(l, NewPipe(id, prompt), ops)
  {
    if |ops| > 0 {
      var (before, op) := (ops[..|ops| - 1], ops[|ops| - 1]);
      NothingLost(l, id, prompt, before);
      PipeRunInv(l, id, prompt, before);
      StepContents(l, PipeRun(l, NewPipe(id, prompt), before), op);
    }
  }

  lemma ClosedStep(l: Limits, p: Pipe, op: PipeOp)
    requires PipeInv(l, p) && op != OpClose && (p.box.closed ==> Ended(p.log))
    ensures PipeStep(l, p, op).box.closed ==> Ended(PipeStep(l, p, op).log)
  {
  }

  lemma {:induction false} ClosedMeansEnded(l: Limits, id: Id, prompt: nat, ops: seq<PipeOp>)
    requires OpClose !in ops
    ensures var p := PipeRun(l, NewPipe(id, prompt), ops); p.box.closed ==> Ended(p.log)
  {
    if |ops| > 0 {
      var (before, op) := (ops[..|ops| - 1], ops[|ops| - 1]);
      assert op in ops;
      ClosedMeansEnded(l, id, prompt, before);
      PipeRunInv(l, id, prompt, before);
      ClosedStep(l, PipeRun(l, NewPipe(id, prompt), before), op);
    }
  }

  /**
   While nobody closes the mailbox by hand: a request without a Terminal can always commit
   one, however full the delta queue is, and the consumer sees Closed only after Terminal.
   */
  lemma TerminalAlwaysFits(l: Limits, id: Id, prompt: nat, ops: seq<PipeOp>, code: StatusCode, finish: Option<FinishReason>)
    requires OpClose !in ops
    ensures
      var p := PipeRun(l, NewPipe(id, prompt), ops);
      && (!p.req.phase.TerminalPhase? <==> Finalize(p, code, finish).1 == FinalCommitted)
      && (Take(p).1 == BoxClosed <==> Ended(p.log))
  {
    PipeRunInv(l, id, prompt, ops);
    ClosedMeansEnded(l, id, prompt, ops);
  }

  /** Once the Terminal is committed no further operation changes what the consumer will have seen. */
  lemma TerminalIsFinal(l: Limits, p: Pipe, op: PipeOp)
    requires PipeInv(l, p) && p.req.phase.TerminalPhase?
    ensures PipeStep(l, p, op).req == p.req
    ensures Committeds(PipeStep(l, p, op)) == Committeds(p)
    ensures op.OpFinalize? ==> Finalize(p, op.code, op.finish) == (p, AlreadyCommitted)
  {
    if op.OpTake? { TakeInv(l, p); }
  }
}
