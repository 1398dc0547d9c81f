/** The executor backend as the code writes it: methods over the two tables and the request objects. */
module TrtLlmBackend {
  import opened Messages
  import opened RequestModel
  import opened BackendModel

  datatype ExecReason = EndId | StopWords | LengthLimit | TimedOutReason | CancelledReason | NotFinished

  /** What the executor delivers: an error, or the tokens of each beam. */
  datatype Response =
    | Failed(exec: ExecId)
    | Result(exec: ExecId, beams: seq<seq<int>>, isFinal: bool, reasons: seq<ExecReason>)

  datatype Outcome = Outcome(code: StatusCode, finish: Option<FinishReason>)

  function ToFinishReason(r: ExecReason): Option<FinishReason> {
    match r
    case EndId => Some(Eos)
    case StopWords => Some(StopWord)
    case LengthLimit => Some(Length)
    case TimedOutReason => Some(Timeout)
    case CancelledReason => Some(Cancelled)
    case NotFinished => None
  }

  function StatusFor(r: FinishReason): StatusCode {
    match r
    case Cancelled => CancelledStatus
    case Timeout => TimedOut
    case Backpressure => QueueFull
    case _ => StatusOk
  }

  const ENGINE_FAULT := Outcome(TensorRTError, None)

  /** The tokens a response asks to deliver. */
  function TokensOf(r: Response): seq<int> {
    if r.Result? && |r.beams| == 1 then r.beams[0] else []
  }

  /** What committing the response's tokens to `p` reports; nothing is committed for an empty list. */
  function DeliveryOf(l: Limits, p: Pipe, r: Response): DeltaResult {
    CommitDelta(l, MarkRunning(p).0, TokensOf(r)).1
  }

  /** The Terminal, if any, a response brings the request `p` to. */
  function OutcomeOf(l: Limits, p: Pipe, r: Response): Option<Outcome> {
    if r.Failed? || |r.beams| != 1 then Some(ENGINE_FAULT)
    else if |TokensOf(r)| > 0 && DeliveryOf(l, p, r) == DeltaBackpressure then Some(Outcome(QueueFull, Some(Backpressure)))
    else if |TokensOf(r)| > 0 && DeliveryOf(l, p, r) == DeltaTerminal then None
    else if !r.isFinal then None
    else if |r.reasons| == 1 && ToFinishReason(r.reasons[0]).Some? then
      var f := ToFinishReason(r.reasons[0]).value;
      Some(Outcome(StatusFor(f), Some(f)))
    else Some(ENGINE_FAULT)
  }

  /** Commits a Terminal and, unless the mailbox refused it, unlists the request. */
  function Finish(l: Limits, s: Backend, ref: Ref, o: Outcome): Backend {
    var t := On(l, s, ref, OpFinalize(o.code, o.finish));
    if ref in t.pipes && Converged(t.pipes[ref]) then Erase(t, ref) else t
  }

  /** The mailbox of `p` was closed by hand before its Terminal: it can never get one. */
  predicate Stuck(p: Pipe) { p.box.closed && !p.box.committed }

  /** The listed requests that cannot get a Terminal. */
  function StuckOnes(s: Backend): map<ExecId, Ref> {
    map e | e in s.requests && s.requests[e] in s.pipes && Stuck(s.pipes[s.requests[e]]) :: s.requests[e]
  }

  lemma FinalizeEffect(l: Limits, p: Pipe, o: Outcome)
    requires PipeInv(l, p)
    ensures Stuck(p) ==> PipeStep(l, p, OpFinalize(o.code, o.finish)) == p && !Converged(p)
    ensures !Stuck(p) ==> Converged(PipeStep(l, p, OpFinalize(o.code, o.finish)))
    ensures !Stuck(p) ==> PipeStep(l, p, OpFinalize(o.code, o.finish)).box.committed
  {
  }

  /** Finishing a listed request unlists it exactly when it is not stuck, and touches no other request. */
  lemma FinishEffect(l: Limits, s: Backend, e: ExecId, ref: Ref, o: Outcome)
    requires Find(s, e) == Some(ref) && ref in s.pipes && ref in s.execOf && s.execOf[ref] == e
    requires PipeInv(l, s.pipes[ref])
    ensures
      var t := Finish(l, s, ref, o);
      && t.life == s.life && t.execOf == s.execOf && t.pipes.Keys == s.pipes.Keys
      && (forall r | r in s.pipes && r != ref :: t.pipes[r] == s.pipes[r])
      && t.requests == (if Stuck(s.pipes[ref]) then s.requests else s.requests - {e})
      && t.pipes[ref] == PipeStep(l, s.pipes[ref], OpFinalize(o.code, o.finish))
      && (Stuck(s.pipes[ref]) || Converged(t.pipes[ref]))
  {
    FinalizeEffect(l, s.pipes[ref], o);
    OnFrame(l, s, ref, OpFinalize(o.code, o.finish));
    assert On(l, s, ref, OpFinalize(o.code, o.finish)).pipes[ref]
        == PipeStep(l, s.pipes[ref], OpFinalize(o.code, o.finish));
  }

  /** `s` is `from` with every listed request finished except those in `todo`. */
  ghost predicate FinishedBut(from: Backend, s: Backend, todo: set<ExecId>) {
    && s.life == from.life && s.execOf == from.execOf && s.pipes.Keys == from.pipes.Keys
    && todo <= from.requests.Keys
    && (forall e | e in from.requests :: from.requests[e] in from.pipes)
    && (forall e | e in s.requests :: e in from.requests && s.requests[e] == from.requests[e])
    && (forall e | e in todo :: e in s.requests && s.pipes[from.requests[e]] == from.pipes[from.requests[e]])
    && (forall e | e in from.requests && e !in todo ::
          if Stuck(from.pipes[from.requests[e]]) then e in s.requests
          else e !in s.requests && Converged(s.pipes[from.requests[e]]))
  }

  lemma FinishNext(l: Limits, from: Backend, s: Backend, todo: set<ExecId>, e: ExecId, o: Outcome)
    requires FinishedBut(from, s, todo) && e in todo
    requires Linked(from) && PipeInv(l, s.pipes[from.requests[e]])
    ensures FinishedBut(from, Finish(l, s, from.requests[e], o), todo - {e})
  {
    var ref := from.requests[e];
    FinishEffect(l, s, e, ref, o);
    assert forall d | d in from.requests && d != e :: from.requests[d] != ref;
  }

  /** `s` differs from `from` only in that some unfinished requests are marked as being cancelled. */
  ghost predicate OnlyMarked(from: Backend, s: Backend) {
    && s == from.(pipes := s.pipes) && s.pipes.Keys == from.pipes.Keys
    && (forall r | r in s.pipes :: s.pipes[r].box == from.pipes[r].box)
  }

  lemma MarkNext(l: Limits, from: Backend, s: Backend, ref: Ref)
    requires OnlyMarked(from, s)
    ensures OnlyMarked(from, On(l, s, ref, OpCancelling))
  {
  }

  lemma SameStuck(from: Backend, s: Backend)
    requires OnlyMarked(from, s)
    ensures StuckOnes(s) == StuckOnes(from)
  {
  }

  /** The request after the tokens of a response were offered to its mailbox. */
  function Delivered(l: Limits, p: Pipe, r: Response): Pipe {
    if r.Result? && |r.beams| == 1 then CommitDelta(l, MarkRunning(p).0, r.beams[0]).0 else p
  }

  predicate Delivers(l: Limits, p: Pipe, r: Response) { DeliveryOf(l, p, r) == Committed }

  lemma DeliveredInv(l: Limits, p: Pipe, r: Response)
    requires PipeInv(l, p)
    ensures PipeInv(l, Delivered(l, p, r))
  {
    PipeStepInv(l, p, OpRunning);
    CommitInv(l, MarkRunning(p).0, TokensOf(r));
  }

  lemma DeliveredTokens(l: Limits, p: Pipe, r: Response)
    ensures Committeds(Delivered(l, p, r)) ==
              Committeds(p) + (if Delivers(l, p, r) then [Delta(p.req.id, p.req.nextSeq, TokensOf(r))] else [])
  {
    var d := Delta(p.req.id, p.req.nextSeq, TokensOf(r));
    if Delivers(l, p, r) {
      assert Delivered(l, p, r).box.deltas == p.box.deltas + [d];
      assert DeltasOf(p.log) + (p.box.deltas + [d]) == Committeds(p) + [d];
    } else {
      assert Delivered(l, p, r).box == p.box;
    }
  }

  lemma DeliveredFrame(l: Limits, p: Pipe, r: Response)
    ensures
      var q := Delivered(l, p, r);
      && q.req.id == p.req.id && q.req.prompt == p.req.prompt && Converged(q) == Converged(p)
      && q.box.terminal == p.box.terminal && q.box.closed == p.box.closed && q.box.committed == p.box.committed
  {
  }

  /** `q` is what a response leaves of the request `p`. */
  ghost predicate Answered(l: Limits, p: Pipe, r: Response, q: Pipe) {
    && Committeds(q) ==
         Committeds(p) + (if Delivers(l, p, r) then [Delta(p.req.id, p.req.nextSeq, TokensOf(r))] else [])
    && (OutcomeOf(l, p, r).None? || Stuck(p) ==> q.box.terminal == p.box.terminal && Converged(q) == Converged(p))
    && (OutcomeOf(l, p, r).Some? && !Stuck(p) ==> HasOneTerminal(q))
    && (OutcomeOf(l, p, r).Some? && !Stuck(p) && !Converged(p) ==>
          var o := OutcomeOf(l, p, r).value;
          q.box.terminal == Some(Terminal(p.req.id, o.code, o.finish, Usage(p.req.prompt, q.req.completion))))
  }

  /** `t` is `s` after the response `r` for one of its listed requests. */
  ghost predicate Handled(l: Limits, s: Backend, r: Response, t: Backend)
    requires r.exec in s.requests
  {
    var ref := s.requests[r.exec];
    && ref in s.pipes && t.pipes.Keys == s.pipes.Keys
    && (forall x | x in t.pipes && x != ref :: t.pipes[x] == s.pipes[x])
    && Answered(l, s.pipes[ref], r, t.pipes[ref])
    && t.requests == (if OutcomeOf(l, s.pipes[ref], r).None? || Stuck(s.pipes[ref]) then s.requests else s.requests - {r.exec})
  }

  /** Delivering, possibly marking as cancelled, and finalizing with the response's outcome answers it. */
  lemma AnswerFinal(l: Limits, p: Pipe, r: Response, mid: Pipe)
    requires PipeInv(l, p) && OutcomeOf(l, p, r).Some?
    requires mid == Delivered(l, p, r) || mid == MarkCancelling(Delivered(l, p, r)).0
    ensures
      var o := OutcomeOf(l, p, r).value;
      Answered(l, p, r, PipeStep(l, mid, OpFinalize(o.code, o.finish)))
  {
    var o := OutcomeOf(l, p, r).value;
    var d := Delivered(l, p, r);
    var q := PipeStep(l, mid, OpFinalize(o.code, o.finish));
    DeliveredInv(l, p, r);
    DeliveredTokens(l, p, r);
    DeliveredFrame(l, p, r);
    PipeStepInv(l, d, OpCancelling);
    assert PipeInv(l, mid) && Committeds(mid) == Committeds(d);
    FinalizeEffect(l, mid, o);
    FinalizeInv(l, mid, o.code, o.finish);
    assert Committeds(q) == Committeds(mid);
    if !Stuck(p) { ConvergedHasOneTerminal(l, q); }
  }

  lemma ConcludeEffect(l: Limits, s: Backend, r: Response, ref: Ref, p: Pipe, o: Outcome)
    requires PipeInv(l, p) && OutcomeOf(l, p, r) == Some(o)
    requires Find(s, r.exec) == Some(ref) && ref in s.pipes && ref in s.execOf && s.execOf[ref] == r.exec
    requires PipeInv(l, s.pipes[ref])
    requires s.pipes[ref] == Delivered(l, p, r) || s.pipes[ref] == MarkCancelling(Delivered(l, p, r)).0
    ensures
      var t := Finish(l, s, ref, o);
      && t.pipes.Keys == s.pipes.Keys && (forall x | x in t.pipes && x != ref :: t.pipes[x] == s.pipes[x])
      && Answered(l, p, r, t.pipes[ref])
      && t.requests == (if Stuck(p) then s.requests else s.requests - {r.exec})
  {
    assert Stuck(s.pipes[ref]) == Stuck(p) by { DeliveredFrame(l, p, r); }
    AnswerFinal(l, p, r, s.pipes[ref]);
    FinishEffect(l, s, r.exec, ref, o);
  }

  lemma AnswerOpen(l: Limits, p: Pipe, r: Response)
    requires PipeInv(l, p) && OutcomeOf(l, p, r).None?
    ensures Answered(l, p, r, Delivered(l, p, r))
  {
    DeliveredTokens(l, p, r);
    DeliveredFrame(l, p, r);
  }

  ghost predicate Tidy(h: seq<Op>, n: Ref) {
    && NewObjects(h)
    && (forall i | 0 <= i < |h| && h[i].OpSubmit? :: h[i].ref < n)
  }

  lemma Unused(l: Limits, h: seq<Op>, n: Ref)
    requires Tidy(h, n)
    ensures n !in Run(l, h).pipes
  {
    RunKnows(l, h);
  }

  lemma Extend(l: Limits, h: seq<Op>, n: Ref, op: Op)
    requires Tidy(h, n) && (op.OpSubmit? ==> op.ref == n)
    ensures Run(l, h + [op]) == Step(l, Run(l, h), op)
    ensures Tidy(h + [op], if op.OpSubmit? then n + 1 else n)
    ensures !op.OpSubmit? ==> NoClash(l, h + [op]) == NoClash(l, h)
  {
    assert (h + [op])[..|h|] == h;
  }

  // ---------- what the operations mean to a caller

  /** The request objects of `s` other than `ref` are the same in `t`, and so is whether they are listed. */
  ghost predicate OthersKept(s: Backend, t: Backend, ref: Ref) {
    && (forall r | r in s.pipes && r != ref :: r in t.pipes && t.pipes[r] == s.pipes[r])
    && (forall r | r != ref :: IsListed(t, r) <==> IsListed(s, r))
  }

  /**
   Accepted: exactly the new object `ref` is added, listed and reachable by its external id.
   Refused: no object and no external id changes, and unless the executor repeated an id in
   use nothing changes at all.
   */
  ghost predicate Registered(s: Backend, id: Id, prompt: nat, ref: Ref, answer: Option<ExecId>, t: Backend, accepted: bool) {
    && (accepted <==> s.life.BackendRunning? && id !in s.external && answer.Some? && answer.value !in s.requests)
    && (accepted ==>
          && OthersKept(s, t, ref) && t.pipes.Keys == s.pipes.Keys + {ref} && t.pipes[ref] == NewPipe(id, prompt)
          && IsListed(t, ref) && id in t.external && Find(t, t.external[id]) == Some(ref))
    && (!accepted ==> t.pipes == s.pipes && t.external == s.external && forall r | IsListed(t, r) :: IsListed(s, r))
    && (!accepted && (answer.None? || answer.value !in s.requests) ==> t == s)
  }

  lemma SubmitMeaning(s: Backend, id: Id, prompt: nat, ref: Ref, exec: ExecId)
    requires ref !in s.pipes
    ensures
      var (t, accepted) := BackendModel.Submit(s, id, prompt, ref, exec);
      Registered(s, id, prompt, ref, Some(exec), t, accepted)
  {
    var (t, accepted) := BackendModel.Submit(s, id, prompt, ref, exec);
    if accepted {
      assert OthersKept(s, t, ref);
    } else if id !in s.external {
      assert s.external - {id} == s.external;
    }
  }

  /** Only the request listed under `id` can change; it accepts no further tokens, and no event is touched. */
  ghost predicate CancelAsked(l: Limits, s: Backend, id: Id, t: Backend) {
    && t == s.(pipes := t.pipes) && t.pipes.Keys == s.pipes.Keys
    && (forall r | r in s.pipes ::
          && t.pipes[r].box == s.pipes[r].box && t.pipes[r].log == s.pipes[r].log
          && (t.pipes[r] != s.pipes[r] ==> id in s.external && Find(s, s.external[id]) == Some(r)))
    && (forall r | r in s.pipes && id in s.external && Find(s, s.external[id]) == Some(r) ::
          forall tokens :: CommitDelta(l, t.pipes[r], tokens).0 == t.pipes[r])
  }

  lemma CancelMeaning(l: Limits, s: Backend, id: Id)
    ensures CancelAsked(l, s, id, BackendModel.Cancel(l, s, id))
  {
  }

  /** Exactly `ref` is unlisted, its external id with it; no request object changes. */
  ghost predicate Erased(s: Backend, ref: Ref, t: Backend)
    requires ref in s.pipes
  {
    && t.pipes == s.pipes && t.life == s.life && OthersKept(s, t, ref)
    && !IsListed(t, ref)
    && (forall x :: x in t.external <==> x in s.external && !(IsListed(s, ref) && x == s.pipes[ref].req.id))
  }

  lemma EraseMeaning(s: Backend, ref: Ref)
    requires ref in s.pipes
    ensures Erased(s, ref, Erase(s, ref))
  {
  }

  /** A stuck request stays as it is; any other has exactly one Terminal and is not listed any more. */
  ghost predicate Concluded(s: Backend, ref: Ref, t: Backend)
    requires ref in s.pipes
  {
    && OthersKept(s, t, ref) && t.life == s.life && t.pipes.Keys == s.pipes.Keys
    && (Stuck(s.pipes[ref]) ==> t == s)
    && (!Stuck(s.pipes[ref]) ==> HasOneTerminal(t.pipes[ref]) && !IsListed(t, ref))
    && Committeds(t.pipes[ref]) == Committeds(s.pipes[ref])
  }

  lemma FinalizeMeaning(l: Limits, p: Pipe, o: Outcome)
    requires PipeInv(l, p)
    ensures
      var q := PipeStep(l, p, OpFinalize(o.code, o.finish));
      && Committeds(q) == Committeds(p) && q.req.id == p.req.id
      && (if Stuck(p) then q == p && !Converged(q) else Converged(q) && HasOneTerminal(q))
  {
    FinalizeEffect(l, p, o);
    FinalizeInv(l, p, o.code, o.finish);
    if !Stuck(p) { ConvergedHasOneTerminal(l, PipeStep(l, p, OpFinalize(o.code, o.finish))); }
  }

  lemma SetPipeOthers(s: Backend, ref: Ref, q: Pipe)
    requires ref in s.pipes
    ensures OthersKept(s, s.(pipes := s.pipes[ref := q]), ref)
  {
  }

  lemma OthersKeptTwice(s: Backend, t: Backend, u: Backend, ref: Ref)
    requires OthersKept(s, t, ref) && OthersKept(t, u, ref)
    ensures OthersKept(s, u, ref)
  {
  }

  lemma FinishMeaning(l: Limits, s: Backend, ref: Ref, o: Outcome)
    requires ref in s.pipes && PipeInv(l, s.pipes[ref])
    ensures Concluded(s, ref, Finish(l, s, ref, o))
  {
    var q := PipeStep(l, s.pipes[ref], OpFinalize(o.code, o.finish));
    var t := s.(pipes := s.pipes[ref := q]);
    FinalizeMeaning(l, s.pipes[ref], o);
    SetPipeOthers(s, ref, q);
    assert On(l, s, ref, OpFinalize(o.code, o.finish)) == t;
    if Stuck(s.pipes[ref]) {
      assert t == s;
    } else {
      EraseMeaning(t, ref);
      OthersKeptTwice(s, t, Erase(t, ref), ref);
    }
  }

  class TrtLlmExecutorBackend {
    const limits: Limits
    var impl: Backend
    var nextRef: Ref
    ghost var history: seq<Op>

    ghost predicate Valid()
      reads this
    {
      impl == Run(limits, history) && Tidy(history, nextRef)
    }

    constructor (limits: Limits)
      ensures Valid() && impl == NEW_BACKEND && history == []
    {
      this.limits := limits;
      impl := NEW_BACKEND;
      nextRef := 0;
      history := [];
    }

    method Start() returns (ok: bool)
      requires Valid()
      modifies this
      ensures Valid() && impl == BackendModel.Start(old(impl))
      ensures ok <==> impl.life.BackendRunning?
      ensures ok && !old(impl.life).BackendRunning? ==>
                impl.requests == map[] && forall r | r in impl.pipes :: HasOneTerminal(impl.pipes[r])
      ensures impl == old(impl).(life := impl.life) && (!ok ==> impl == old(impl))
    {
      Settled();
      Extend(limits, history, nextRef, OpStart);
      if impl.life.BackendStopped? && |impl.requests| == 0 && |impl.external| == 0 {
        impl := impl.(life := BackendRunning);
      }
      history := history + [OpStart];
      ok := impl.life.BackendRunning?;
    }

    /** `answer` is the executor's reply: the id it chose, or nothing if it threw. */
    method Submit(id: Id, prompt: nat, answer: Option<ExecId>) returns (accepted: bool)
      requires Valid()
      modifies this
      ensures Valid()
      ensures answer.None? ==> impl == old(impl) && !accepted
      ensures answer.Some? ==>
                (impl, accepted) == BackendModel.Submit(old(impl), id, prompt, old(nextRef), answer.value)
      ensures Registered(old(impl), id, prompt, old(nextRef), answer, impl, accepted)
    {
      Unused(limits, history, nextRef);
      if answer.Some? { SubmitMeaning(impl, id, prompt, nextRef, answer.value); }
      accepted := false;
      if !impl.life.BackendRunning? || id in impl.external || answer.None? {
        return;
      }
      var exec := answer.value;
      ghost var op := OpSubmit(id, prompt, nextRef, exec);
      Extend(limits, history, nextRef, op);
      if exec in impl.requests {
        impl := impl.(external := impl.external - {id}, requests := impl.requests - {exec});
      } else {
        impl := impl.(requests := impl.requests[exec := nextRef],
                      external := impl.external[id := exec],
                      pipes := impl.pipes[nextRef := NewPipe(id, prompt)],
                      execOf := impl.execOf[nextRef := exec]);
        accepted := true;
      }
      nextRef := nextRef + 1;
      history := history + [op];
    }

    method Cancel(id: Id)
      requires Valid()
      modifies this
      ensures Valid() && impl == BackendModel.Cancel(limits, old(impl), id)
      ensures CancelAsked(limits, old(impl), id, impl)
    {
      CancelMeaning(limits, impl, id);
      if id in impl.external && impl.external[id] in impl.requests {
        Act(impl.requests[impl.external[id]], OpCancelling);
      }
    }

    /** One call on a request object, under that object's own lock. */
    method Act(ref: Ref, op: PipeOp)
      requires Valid()
      modifies this
      ensures Valid() && impl == On(limits, old(impl), ref, op)
      ensures NoClash(limits, history) == old(NoClash(limits, history))
    {
      Extend(limits, history, nextRef, OpOn(ref, op));
      if ref in impl.pipes {
        impl := impl.(pipes := impl.pipes[ref := PipeStep(limits, impl.pipes[ref], op)]);
      }
      history := history + [OpOn(ref, op)];
    }

    method EraseRequest(ref: Ref)
      requires Valid() && ref in impl.pipes && Converged(impl.pipes[ref])
      modifies this
      ensures Valid() && impl == Erase(old(impl), ref)
      ensures Erased(old(impl), ref, impl)
      ensures NoClash(limits, history) == old(NoClash(limits, history))
    {
      EraseMeaning(impl, ref);
      Extend(limits, history, nextRef, OpErase(ref));
      history := history + [OpErase(ref)];
      if ref in impl.execOf {
        var exec := impl.execOf[ref];
        if exec in impl.requests && impl.requests[exec] == ref {
          impl := impl.(requests := impl.requests - {exec},
                        external := impl.external - {impl.pipes[ref].req.id});
        }
      }
    }

    method FinalizeRequest(ref: Ref, o: Outcome)
      requires Valid()
      modifies this
      ensures Valid() && impl == Finish(limits, old(impl), ref, o)
      ensures ref in old(impl.pipes) ==> Concluded(old(impl), ref, impl)
      ensures NoClash(limits, history) == old(NoClash(limits, history))
    {
      if ref in impl.pipes {
        assert PipeInv(limits, impl.pipes[ref]) by { RunLinked(limits, history); }
        FinishMeaning(limits, impl, ref, o);
      }
      Act(ref, OpFinalize(o.code, o.finish));
      if ref in impl.pipes && Converged(impl.pipes[ref]) {
        EraseRequest(ref);
      }
    }

    /** Every listed request that can still get a Terminal gets one and is unlisted. */
    method FinalizeAll(o: Outcome)
      requires Valid()
      modifies this
      ensures Valid() && impl.life == old(impl.life)
      ensures impl.requests == StuckOnes(old(impl))
      ensures impl.pipes.Keys == old(impl.pipes).Keys
      ensures forall e | e in old(impl.requests) && old(impl.requests)[e] in impl.pipes ::
                e in impl.requests || Converged(impl.pipes[old(impl.requests)[e]])
      ensures NoClash(limits, history) == old(NoClash(limits, history))
    {
      ghost var from := impl;
      RunLinked(limits, history);
      var snapshot := impl.requests;
      var todo := snapshot.Keys;
      while todo != {}
        invariant Valid() && FinishedBut(from, impl, todo)
        invariant NoClash(limits, history) == old(NoClash(limits, history))
      {
        var e :| e in todo;
        RunLinked(limits, history);
        FinishNext(limits, from, impl, todo, e, o);
        FinalizeRequest(snapshot[e], o);
        todo := todo - {e};
      }
    }

    /**
     Stops the backend: marks every listed request, then finalizes what is still listed once
     the response pump has ended. If it ends in Stopped, every request ever accepted has
     exactly one Terminal; without a clash of executor ids it does so exactly when no listed
     mailbox had been closed before its Terminal.
     */
    method Stop()
      requires Valid()
      modifies this
      ensures Valid()
      ensures old(impl.life).BackendStopped? ==> impl == old(impl)
      ensures NoClash(limits, history) == old(NoClash(limits, history))
      ensures !old(impl.life).BackendStopped? ==> impl.requests == StuckOnes(old(impl))
      ensures old(NoClash(limits, history)) && !old(impl.life).BackendStopped? ==>
                impl.life == if |StuckOnes(old(impl))| == 0 then BackendStopped else BackendFailed
      ensures impl.life.BackendStopped? ==> forall r | r in impl.pipes :: HasOneTerminal(impl.pipes[r])
    {
      if !impl.life.BackendStopped? {
        WindDown();
        Settled();
        EndStop();
      }
      Settled();
    }

    method WindDown()
      requires Valid() && !impl.life.BackendStopped?
      modifies this
      ensures Valid() && impl.life.BackendStopping? && impl.requests == StuckOnes(old(impl))
      ensures NoClash(limits, history) == old(NoClash(limits, history))
    {
      Extend(limits, history, nextRef, OpBeginStop);
      history := history + [OpBeginStop];
      impl := impl.(life := BackendStopping);
      ghost var from := impl;
      MarkAll();
      SameStuck(from, impl);
      FinalizeAll(Outcome(CancelledStatus, Some(Cancelled)));
    }

    method MarkAll()
      requires Valid()
      modifies this
      ensures Valid() && OnlyMarked(old(impl), impl)
      ensures NoClash(limits, history) == old(NoClash(limits, history))
    {
      ghost var from := impl;
      var listed := impl.requests;
      var todo := listed.Keys;
      while todo != {}
        invariant Valid() && OnlyMarked(from, impl) && todo <= listed.Keys
        invariant NoClash(limits, history) == old(NoClash(limits, history))
      {
        var e :| e in todo;
        MarkNext(limits, from, impl, listed[e]);
        Act(listed[e], OpCancelling);
        todo := todo - {e};
      }
    }

    method EndStop()
      requires Valid() && impl.life.BackendStopping?
      modifies this
      ensures Valid() && impl == old(impl).(life := impl.life)
      ensures NoClash(limits, history) == old(NoClash(limits, history))
      ensures impl.life == if |impl.requests| == 0 && |impl.external| == 0 then BackendStopped else BackendFailed
    {
      Extend(limits, history, nextRef, OpEndStop);
      history := history + [OpEndStop];
      impl := impl.(life := if |impl.requests| == 0 && |impl.external| == 0 then BackendStopped else BackendFailed);
    }

    lemma Settled()
      requires Valid()
      ensures NoClash(limits, history) ==> (|impl.requests| == 0 <==> |impl.external| == 0)
      ensures impl.life.BackendStopped? ==> forall r | r in impl.pipes :: HasOneTerminal(impl.pipes[r])
    {
      Convergence(limits, history);
      if NoClash(limits, history) {
        assert Inverse(impl) by { RunInv(limits, history); }
        if |impl.requests| > 0 {
          var e :| e in impl.requests;
          assert impl.pipes[impl.requests[e]].req.id in impl.external;
        }
        if |impl.external| > 0 {
          var x :| x in impl.external;
          assert impl.external[x] in impl.requests;
        }
      }
    }

    /**
     One executor response. An unknown id is ignored; otherwise the request the id is listed
     under is answered, no other request changes, and it leaves the table when it got its Terminal.
     */
    method HandleResponse(r: Response)
      requires Valid()
      modifies this
      ensures Valid()
      ensures r.exec !in old(impl.requests) ==> impl == old(impl)
      ensures r.exec in old(impl.requests) ==> Handled(limits, old(impl), r, impl)
    {
      RunLinked(limits, history);
      if r.exec !in impl.requests { return; }
      var ref := impl.requests[r.exec];
      ghost var p := impl.pipes[ref];
      if r.Result? && |r.beams| == 1 {
        HandleTokens(r, ref);
      } else {
        if r.Result? { Act(ref, OpCancelling); }
        assert Delivered(limits, p, r) == p;
        Conclude(r, ref, p, ENGINE_FAULT);
      }
    }

    method HandleTokens(r: Response, ref: Ref)
      requires Valid() && r.Result? && |r.beams| == 1
      requires Find(impl, r.exec) == Some(ref) && ref in impl.pipes && PipeInv(limits, impl.pipes[ref])
      modifies this
      ensures Valid() && Handled(limits, old(impl), r, impl)
    {
      ghost var p := impl.pipes[ref];
      var delivery := Deliver(ref, r.beams[0]);
      var outcome: Option<Outcome>;
      if |r.beams[0]| > 0 && delivery == DeltaBackpressure {
        Act(ref, OpCancelling);
        outcome := Some(Outcome(QueueFull, Some(Backpressure)));
      } else if (|r.beams[0]| > 0 && delivery == DeltaTerminal) || !r.isFinal {
        outcome := None;
      } else if |r.reasons| != 1 || ToFinishReason(r.reasons[0]).None? {
        outcome := Some(ENGINE_FAULT);
      } else {
        var reason := ToFinishReason(r.reasons[0]).value;
        outcome := Some(Outcome(StatusFor(reason), Some(reason)));
      }
      assert outcome == OutcomeOf(limits, p, r);
      if outcome.None? {
        AnswerOpen(limits, p, r);
      } else {
        Conclude(r, ref, p, outcome.value);
      }
    }

    method Deliver(ref: Ref, tokens: seq<int>) returns (delivery: DeltaResult)
      requires Valid() && ref in impl.pipes
      modifies this
      ensures Valid()
      ensures
        var p := MarkRunning(old(impl.pipes)[ref]).0;
        && delivery == CommitDelta(limits, p, tokens).1
        && impl == old(impl).(pipes := old(impl.pipes)[ref := CommitDelta(limits, p, tokens).0])
    {
      Act(ref, OpRunning);
      delivery := CommitDelta(limits, impl.pipes[ref], tokens).1;
      Act(ref, OpCommit(tokens));
    }

    /** Finalizes the request `ref`, which was `p` when the response `r` arrived. */
    method Conclude(r: Response, ref: Ref, ghost p: Pipe, o: Outcome)
      requires Valid() && PipeInv(limits, p) && OutcomeOf(limits, p, r) == Some(o)
      requires Find(impl, r.exec) == Some(ref) && ref in impl.pipes
      requires impl.pipes[ref] == Delivered(limits, p, r) || impl.pipes[ref] == MarkCancelling(Delivered(limits, p, r)).0
      modifies this
      ensures Valid() && impl.pipes.Keys == old(impl.pipes).Keys
      ensures forall x | x in impl.pipes && x != ref :: impl.pipes[x] == old(impl.pipes)[x]
      ensures Answered(limits, p, r, impl.pipes[ref])
      ensures impl.requests == if Stuck(p) then old(impl.requests) else old(impl.requests) - {r.exec}
    {
      RunLinked(limits, history);
      ConcludeEffect(limits, impl, r, ref, p, o);
      FinalizeRequest(ref, o);
    }
  }
}
