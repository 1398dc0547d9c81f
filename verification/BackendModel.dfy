/**
 The executor backend: two id tables over shared request states. Every critical section of
 the code is one step; the response pump, `cancel` and `stop` interleave freely, and any
 thread that ever looked a request up may act on it later.
 */
module BackendModel {
  import opened Messages
  import opened RequestModel

  type ExecId = nat
  type Ref = nat

  datatype Life = BackendStopped | BackendRunning | BackendStopping | BackendFailed

  /**
   `requests` and `external` are the two tables. `pipes` holds every request state ever
   accepted, by object identity, with the executor id it was given.
   */
  datatype Backend = Backend(
    life: Life,
    requests: map<ExecId, Ref>,
    external: map<Id, ExecId>,
    pipes: map<Ref, Pipe>,
    execOf: map<Ref, ExecId>)

  const NEW_BACKEND := Backend(BackendStopped, map[], map[], map[], map[])

  datatype Op =
    | OpStart
    | OpSubmit(id: Id, prompt: nat, ref: Ref, exec: ExecId)
    | OpCancel(id: Id)
    | OpOn(ref: Ref, pipeOp: PipeOp)
    | OpErase(ref: Ref)
    | OpMarkFailed
    | OpBeginStop
    | OpEndStop

  function Start(s: Backend): Backend {
    if s.life.BackendStopped? && |s.requests| == 0 && |s.external| == 0 then s.(life := BackendRunning) else s
  }

  /** What `submit` does once the executor has answered with `exec`, its recovery path included. */
  function Submit(s: Backend, id: Id, prompt: nat, ref: Ref, exec: ExecId): (r: (Backend, bool)) {
    if !s.life.BackendRunning? || id in s.external then (s, false)
    else if exec in s.requests then
      (s.(external := s.external - {id}, requests := s.requests - {exec}), false)
    else
      (s.(requests := s.requests[exec := ref],
          external := s.external[id := exec],
          pipes := s.pipes[ref := NewPipe(id, prompt)],
          execOf := s.execOf[ref := exec]), true)
  }

  function Find(s: Backend, exec: ExecId): Option<Ref> {
    if exec in s.requests then Some(s.requests[exec]) else None
  }

  /** The object `r` is the one registered under the executor id it was given. */
  predicate IsListed(s: Backend, r: Ref) { r in s.execOf && Find(s, s.execOf[r]) == Some(r) }

  function On(l: Limits, s: Backend, ref: Ref, op: PipeOp): Backend {
    if ref !in s.pipes then s else s.(pipes := s.pipes[ref := PipeStep(l, s.pipes[ref], op)])
  }

  function Cancel(l: Limits, s: Backend, id: Id): Backend {
    if id !in s.external || s.external[id] !in s.requests then s
    else On(l, s, s.requests[s.external[id]], OpCancelling)
  }

  /** Takes `ref` out of both tables, if it is still the one registered there. */
  function Erase(s: Backend, ref: Ref): Backend {
    if ref !in s.pipes || ref !in s.execOf || Find(s, s.execOf[ref]) != Some(ref) then s
    else s.(requests := s.requests - {s.execOf[ref]}, external := s.external - {s.pipes[ref].req.id})
  }

  predicate Converged(p: Pipe) { p.req.phase.TerminalPhase? }

  /** A step. Only a request whose Terminal is committed is ever erased; that is when the code calls it. */
  function Step(l: Limits, s: Backend, op: Op): Backend {
    match op
    case OpStart => Start(s)
    case OpSubmit(id, prompt, ref, exec) => Submit(s, id, prompt, ref, exec).0
    case OpCancel(id) => Cancel(l, s, id)
    case OpOn(ref, o) => On(l, s, ref, o)
    case OpErase(ref) => if ref in s.pipes && Converged(s.pipes[ref]) then Erase(s, ref) else s
    case OpMarkFailed => if s.life.BackendRunning? then s.(life := BackendFailed) else s
    case OpBeginStop => if s.life.BackendStopped? then s else s.(life := BackendStopping)
    case OpEndStop =>
      if !s.life.BackendStopping? then s
      else if |s.requests| == 0 && |s.external| == 0 then s.(life := BackendStopped)
      else s.(life := BackendFailed)
  }

  function Run(l: Limits, ops: seq<Op>): Backend {
    if |ops| == 0 then NEW_BACKEND else Step(l, Run(l, ops[..|ops| - 1]), ops[|ops| - 1])
  }

  /** Every submission allocates its own request object. */
  ghost predicate NewObjects(ops: seq<Op>) {
    forall i, j | 0 <= i < j < |ops| && ops[i].OpSubmit? && ops[j].OpSubmit? :: ops[i].ref != ops[j].ref
  }

  /** The executor answers a submission with an id that is still in the table. */
  predicate Clash(s: Backend, op: Op) {
    op.OpSubmit? && s.life.BackendRunning? && op.id !in s.external && op.exec in s.requests
  }

  predicate NoClash(l: Limits, ops: seq<Op>) {
    |ops| == 0 || (NoClash(l, ops[..|ops| - 1]) && !Clash(Run(l, ops[..|ops| - 1]), ops[|ops| - 1]))
  }

  /** The executor never hands out the same id twice. */
  ghost predicate FreshExecutorIds(ops: seq<Op>) {
    forall i, j | 0 <= i < j < |ops| && ops[i].OpSubmit? && ops[j].OpSubmit? :: ops[i].exec != ops[j].exec
  }

  // ---------- invariant

  /** The tables are inverse to each other. */
  ghost predicate Inverse(s: Backend) {
    && (forall id | id in s.external ::
          s.external[id] in s.requests && s.requests[s.external[id]] in s.pipes
          && s.pipes[s.requests[s.external[id]]].req.id == id)
    && (forall e | e in s.requests ::
          && s.requests[e] in s.pipes && s.requests[e] in s.execOf && s.execOf[s.requests[e]] == e
          && s.pipes[s.requests[e]].req.id in s.external
          && s.external[s.pipes[s.requests[e]].req.id] == e)
  }

  /** A request that still owes its Terminal is registered. */
  ghost predicate OwedAreListed(s: Backend) {
    && s.execOf.Keys == s.pipes.Keys
    && (forall r | r in s.pipes && !Converged(s.pipes[r]) ::
          s.execOf[r] in s.requests && s.requests[s.execOf[r]] == r)
  }

  ghost predicate PipesOk(l: Limits, pipes: map<Ref, Pipe>) {
    forall r | r in pipes :: PipeInv(l, pipes[r])
  }

  ghost predicate Inv(l: Limits, s: Backend) {
    && Inverse(s)
    && OwedAreListed(s)
    && PipesOk(l, s.pipes)
    && (s.life.BackendStopped? ==> |s.requests| == 0)
  }

  lemma SubmitInverse(s: Backend, id: Id, prompt: nat, ref: Ref, exec: ExecId)
    requires Inverse(s) && ref !in s.pipes && !Clash(s, OpSubmit(id, prompt, ref, exec))
    ensures Inverse(Submit(s, id, prompt, ref, exec).0)
  {
  }

  lemma SubmitListed(s: Backend, id: Id, prompt: nat, ref: Ref, exec: ExecId)
    requires OwedAreListed(s) && ref !in s.pipes && !Clash(s, OpSubmit(id, prompt, ref, exec))
    ensures OwedAreListed(Submit(s, id, prompt, ref, exec).0)
  {
  }

  lemma StepKeepsIdentity(l: Limits, p: Pipe, op: PipeOp)
    ensures PipeStep(l, p, op).req.id == p.req.id
    ensures Converged(p) ==> Converged(PipeStep(l, p, op))
  {
  }

  /** Replacing one pipe by a later one of the same request. */
  lemma SetPipeInverse(s: Backend, ref: Ref, q: Pipe)
    requires Inverse(s) && ref in s.pipes && q.req.id == s.pipes[ref].req.id
    ensures Inverse(s.(pipes := s.pipes[ref := q]))
  {
    assert forall r | r in s.pipes :: s.pipes[ref := q][r].req.id == s.pipes[r].req.id;
  }

  lemma SetPipeListed(s: Backend, ref: Ref, q: Pipe)
    requires OwedAreListed(s) && ref in s.pipes && (Converged(s.pipes[ref]) ==> Converged(q))
    ensures OwedAreListed(s.(pipes := s.pipes[ref := q]))
  {
  }

  lemma SetPipeOk(l: Limits, pipes: map<Ref, Pipe>, ref: Ref, q: Pipe)
    requires PipesOk(l, pipes) && PipeInv(l, q)
    ensures PipesOk(l, pipes[ref := q])
  {
  }

  lemma OnInv(l: Limits, s: Backend, ref: Ref, op: PipeOp)
    requires Inv(l, s)
    ensures Inv(l, On(l, s, ref, op))
  {
    if ref in s.pipes {
      var q := PipeStep(l, s.pipes[ref], op);
      PipeStepInv(l, s.pipes[ref], op);
      StepKeepsIdentity(l, s.pipes[ref], op);
      SetPipeInverse(s, ref, q);
      SetPipeListed(s, ref, q);
      SetPipeOk(l, s.pipes, ref, q);
    }
  }

  lemma EraseInverse(s: Backend, ref: Ref)
    requires Inverse(s)
    ensures Inverse(Erase(s, ref))
  {
  }

  lemma EraseListed(s: Backend, ref: Ref)
    requires OwedAreListed(s) && (ref in s.pipes ==> Converged(s.pipes[ref]))
    ensures OwedAreListed(Erase(s, ref))
  {
  }

  lemma EraseInv(l: Limits, s: Backend, ref: Ref)
    requires Inv(l, s) && (ref in s.pipes ==> Converged(s.pipes[ref]))
    ensures Inv(l, Erase(s, ref))
  {
    EraseInverse(s, ref);
    EraseListed(s, ref);
  }

  lemma SubmitInv(l: Limits, s: Backend, id: Id, prompt: nat, ref: Ref, exec: ExecId)
    requires Inv(l, s) && ref !in s.pipes && !Clash(s, OpSubmit(id, prompt, ref, exec))
    ensures Inv(l, Submit(s, id, prompt, ref, exec).0)
  {
    SubmitInverse(s, id, prompt, ref, exec);
    SubmitListed(s, id, prompt, ref, exec);
    NewInv(l, id, prompt);
    SetPipeOk(l, s.pipes, ref, NewPipe(id, prompt));
  }

  lemma CancelInv(l: Limits, s: Backend, id: Id)
    requires Inv(l, s)
    ensures Inv(l, Cancel(l, s, id))
  {
    if id in s.external && s.external[id] in s.requests { OnInv(l, s, s.requests[s.external[id]], OpCancelling); }
  }

  lemma LifeTables(s: Backend, life: Life)
    requires Inverse(s) && OwedAreListed(s)
    ensures Inverse(s.(life := life)) && OwedAreListed(s.(life := life))
  {
  }

  lemma LifeStep(l: Limits, s: Backend, op: Op)
    requires (op.OpStart? || op.OpMarkFailed? || op.OpBeginStop? || op.OpEndStop?)
    ensures Step(l, s, op) == s.(life := Step(l, s, op).life)
    ensures Step(l, s, op).life.BackendStopped? ==> s.life.BackendStopped? || (|s.requests| == 0 && |s.external| == 0)
  {
  }

  lemma StepInv(l: Limits, s: Backend, op: Op)
    requires Inv(l, s)
    requires op.OpSubmit? ==> op.ref !in s.pipes
    requires !Clash(s, op)
    ensures Inv(l, Step(l, s, op))
  {
    match op
    case OpSubmit(id, prompt, ref, exec) => SubmitInv(l, s, id, prompt, ref, exec);
    case OpOn(ref, o) => OnInv(l, s, ref, o);
    case OpCancel(id) => CancelInv(l, s, id);
    case OpErase(ref) => if ref in s.pipes && Converged(s.pipes[ref]) { EraseInv(l, s, ref); }
    case _ =>
      LifeStep(l, s, op);
      LifeTables(s, Step(l, s, op).life);
  }

  // ---------- runs

  function Refs(ops: seq<Op>): set<Ref> { set i | 0 <= i < |ops| && ops[i].OpSubmit? :: ops[i].ref }
  function Execs(ops: seq<Op>): set<ExecId> { set i | 0 <= i < |ops| && ops[i].OpSubmit? :: ops[i].exec }

  lemma OnFrame(l: Limits, s: Backend, ref: Ref, op: PipeOp)
    ensures On(l, s, ref, op) == s.(pipes := On(l, s, ref, op).pipes)
    ensures On(l, s, ref, op).pipes.Keys == s.pipes.Keys
  {
  }

  lemma StepKnows(l: Limits, s: Backend, op: Op)
    ensures forall r | r in Step(l, s, op).pipes :: r in s.pipes || (op.OpSubmit? && r == op.ref)
    ensures forall e | e in Step(l, s, op).requests :: e in s.requests || (op.OpSubmit? && e == op.exec)
  {
    match op
    case OpOn(ref, o) => OnFrame(l, s, ref, o);
    case OpCancel(id) =>
      if id in s.external && s.external[id] in s.requests { OnFrame(l, s, s.requests[s.external[id]], OpCancelling); }
    case _ =>
  }

  /** Only submitted objects and ids ever appear. */
  lemma {:induction false} RunKnows(l: Limits, ops: seq<Op>)
    ensures Run(l, ops).pipes.Keys <= Refs(ops) && Run(l, ops).requests.Keys <= Execs(ops)
  {
    if |ops| > 0 {
      var (before, op) := (ops[..|ops| - 1], ops[|ops| - 1]);
      assert forall i | 0 <= i < |before| :: before[i] == ops[i];
      RunKnows(l, before);
      StepKnows(l, Run(l, before), op);
      assert Refs(before) <= Refs(ops) && Execs(before) <= Execs(ops);
      if op.OpSubmit? {
        assert op.ref in Refs(ops) && op.exec in Execs(ops);
      }
    }
  }

  lemma NewObject(l: Limits, before: seq<Op>, op: Op)
    requires NewObjects(before + [op]) && op.OpSubmit?
    ensures op.ref !in Run(l, before).pipes
  {
    RunKnows(l, before);
    var ops := before + [op];
    assert forall i | 0 <= i < |before| :: before[i] == ops[i];
    assert op == ops[|before|] && op.ref !in Refs(before);
  }

  /** Each listed request object knows the id it is listed under; no executor answer can break this. */
  ghost predicate Linked(s: Backend) {
    forall e | e in s.requests ::
      s.requests[e] in s.pipes && s.requests[e] in s.execOf && s.execOf[s.requests[e]] == e
  }

  lemma LinkedStep(l: Limits, s: Backend, op: Op)
    requires Linked(s) && (op.OpSubmit? ==> op.ref !in s.pipes)
    ensures Linked(Step(l, s, op))
  {
    match op
    case OpOn(ref, o) => OnFrame(l, s, ref, o);
    case OpCancel(id) =>
      if id in s.external && s.external[id] in s.requests { OnFrame(l, s, s.requests[s.external[id]], OpCancelling); }
    case _ =>
  }

  /** Where a request object after a step comes from. */
  lemma StepPipe(l: Limits, s: Backend, op: Op, r: Ref)
    requires r in Step(l, s, op).pipes
    ensures
      var q := Step(l, s, op).pipes[r];
      || (r in s.pipes && q == s.pipes[r])
      || (r in s.pipes && op.OpOn? && q == PipeStep(l, s.pipes[r], op.pipeOp))
      || (r in s.pipes && q == PipeStep(l, s.pipes[r], OpCancelling))
      || (op.OpSubmit? && q == NewPipe(op.id, op.prompt))
  {
  }

  lemma PipesStep(l: Limits, s: Backend, op: Op)
    requires PipesOk(l, s.pipes)
    ensures PipesOk(l, Step(l, s, op).pipes)
  {
    forall r | r in Step(l, s, op).pipes ensures PipeInv(l, Step(l, s, op).pipes[r]) {
      StepPipe(l, s, op, r);
      if op.OpSubmit? { NewInv(l, op.id, op.prompt); }
      if r in s.pipes {
        PipeStepInv(l, s.pipes[r], OpCancelling);
        if op.OpOn? { PipeStepInv(l, s.pipes[r], op.pipeOp); }
      }
    }
  }

  lemma {:induction false} RunLinked(l: Limits, ops: seq<Op>)
    requires NewObjects(ops)
    ensures Linked(Run(l, ops)) && PipesOk(l, Run(l, ops).pipes)
  {
    if |ops| > 0 {
      var (before, op) := (ops[..|ops| - 1], ops[|ops| - 1]);
      assert forall i | 0 <= i < |before| :: before[i] == ops[i];
      assert ops == before + [op];
      RunLinked(l, before);
      if op.OpSubmit? { NewObject(l, before, op); }
      LinkedStep(l, Run(l, before), op);
      PipesStep(l, Run(l, before), op);
    }
  }

  lemma {:induction false} FreshIdsNeverClash(l: Limits, ops: seq<Op>)
    requires FreshExecutorIds(ops)
    ensures NoClash(l, ops)
  {
    if |ops| > 0 {
      var (before, op) := (ops[..|ops| - 1], ops[|ops| - 1]);
      assert forall i | 0 <= i < |before| :: before[i] == ops[i];
      FreshIdsNeverClash(l, before);
      RunKnows(l, before);
      assert op.OpSubmit? ==> op.exec !in Execs(before);
    }
  }

  lemma {:induction false} RunInv(l: Limits, ops: seq<Op>)
    requires NewObjects(ops) && NoClash(l, ops)
    ensures Inv(l, Run(l, ops))
  {
    if |ops| > 0 {
      var (before, op) := (ops[..|ops| - 1], ops[|ops| - 1]);
      assert forall i | 0 <= i < |before| :: before[i] == ops[i];
      assert ops == before + [op];
      RunInv(l, before);
      if op.OpSubmit? { NewObject(l, before, op); }
      StepInv(l, Run(l, before), op);
    }
  }

  /** Exactly one Terminal exists for `p`: waiting in its mailbox, or taken as the last event. */
  predicate HasOneTerminal(p: Pipe) {
    && Converged(p) && p.box.committed
    && (p.box.terminal.Some? != Ended(p.log))
    && (forall i | 0 <= i < |p.log| - 1 :: p.log[i].Delta?)
  }

  lemma ConvergedHasOneTerminal(l: Limits, p: Pipe)
    requires PipeInv(l, p) && Converged(p)
    ensures HasOneTerminal(p)
  {
    assert forall i | 0 <= i < |DeltasOf(p.log)| :: DeltasOf(p.log)[i] == Committeds(p)[i];
    assert forall i | 0 <= i < |p.log| - 1 :: p.log[i] == DeltasOf(p.log)[i];
  }

  // ---------- no answer of the executor can lose a Terminal unnoticed

  /** The request still owes its Terminal, or is still listed. */
  predicate Held(s: Backend, r: Ref) {
    r in s.pipes && (!Converged(s.pipes[r]) || IsListed(s, r))
  }

  /** Every held request has its own external id, which blocks Stopped. */
  ghost predicate HoldersOk(s: Backend) {
    && (forall r | Held(s, r) :: s.pipes[r].req.id in s.external)
    && (forall r, q | Held(s, r) && Held(s, q) && s.pipes[r].req.id == s.pipes[q].req.id :: r == q)
    && (s.life.BackendStopped? ==> |s.external| == 0)
  }

  lemma SubmitHolders(s: Backend, id: Id, prompt: nat, ref: Ref, exec: ExecId)
    requires HoldersOk(s) && ref !in s.pipes
    ensures HoldersOk(Submit(s, id, prompt, ref, exec).0)
  {
    if s.life.BackendRunning? && id !in s.external {
      if exec in s.requests { ClashHolders(s, id, exec); } else { AddHolder(s, id, prompt, ref, exec); }
    }
  }

  lemma ClashHolders(s: Backend, id: Id, exec: ExecId)
    requires HoldersOk(s) && id !in s.external
    ensures HoldersOk(s.(external := s.external - {id}, requests := s.requests - {exec}))
  {
    var t := s.(external := s.external - {id}, requests := s.requests - {exec});
    assert t.external == s.external;
    assert forall r | Held(t, r) :: Held(s, r);
  }

  lemma AddHolder(s: Backend, id: Id, prompt: nat, ref: Ref, exec: ExecId)
    requires HoldersOk(s) && ref !in s.pipes && s.life.BackendRunning? && id !in s.external && exec !in s.requests
    ensures HoldersOk(Submit(s, id, prompt, ref, exec).0)
  {
    var t := Submit(s, id, prompt, ref, exec).0;
    assert forall r | Held(t, r) && r != ref :: Held(s, r) && t.pipes[r] == s.pipes[r];
    assert t.pipes[ref].req.id == id;
  }

  lemma EraseHolders(s: Backend, ref: Ref)
    requires HoldersOk(s) && ref in s.pipes && Converged(s.pipes[ref])
    ensures HoldersOk(Erase(s, ref))
  {
    var t := Erase(s, ref);
    if t != s {
      assert Held(s, ref) && !Held(t, ref);
      assert forall r | Held(t, r) :: Held(s, r);
    }
  }

  lemma SetPipeHolders(s: Backend, ref: Ref, q: Pipe)
    requires HoldersOk(s) && ref in s.pipes && q.req.id == s.pipes[ref].req.id
    requires Converged(s.pipes[ref]) ==> Converged(q)
    ensures HoldersOk(s.(pipes := s.pipes[ref := q]))
  {
    var t := s.(pipes := s.pipes[ref := q]);
    assert forall r | Held(t, r) :: Held(s, r) && t.pipes[r].req.id == s.pipes[r].req.id;
  }

  lemma OnHolders(l: Limits, s: Backend, ref: Ref, op: PipeOp)
    requires HoldersOk(s)
    ensures HoldersOk(On(l, s, ref, op))
  {
    if ref in s.pipes {
      StepKeepsIdentity(l, s.pipes[ref], op);
      SetPipeHolders(s, ref, PipeStep(l, s.pipes[ref], op));
    }
  }

  lemma LifeHolders(s: Backend, life: Life)
    requires HoldersOk(s) && (life.BackendStopped? ==> |s.external| == 0)
    ensures HoldersOk(s.(life := life))
  {
    assert forall r :: Held(s.(life := life), r) <==> Held(s, r);
  }

  lemma StepHolders(l: Limits, s: Backend, op: Op)
    requires HoldersOk(s) && (op.OpSubmit? ==> op.ref !in s.pipes)
    ensures HoldersOk(Step(l, s, op))
  {
    match op
    case OpSubmit(id, prompt, ref, exec) => SubmitHolders(s, id, prompt, ref, exec);
    case OpOn(ref, o) => OnHolders(l, s, ref, o);
    case OpCancel(id) =>
      if id in s.external && s.external[id] in s.requests { OnHolders(l, s, s.requests[s.external[id]], OpCancelling); }
    case OpErase(ref) => if ref in s.pipes && Converged(s.pipes[ref]) { EraseHolders(s, ref); }
    case _ => if Step(l, s, op) != s { LifeHolders(s, Step(l, s, op).life); }
  }

  lemma {:induction false} RunHolders(l: Limits, ops: seq<Op>)
    requires NewObjects(ops)
    ensures HoldersOk(Run(l, ops))
  {
    if |ops| > 0 {
      var (before, op) := (ops[..|ops| - 1], ops[|ops| - 1]);
      assert forall i | 0 <= i < |before| :: before[i] == ops[i];
      assert ops == before + [op];
      RunHolders(l, before);
      if op.OpSubmit? { NewObject(l, before, op); }
      StepHolders(l, Run(l, before), op);
    }
  }

  /**
   Convergence: in every run, whatever ids the executor answers with, Stopped means that
   every request ever accepted has exactly one Terminal. With fresh executor ids the tables
   are moreover inverse to each other and every accepted request that owes a Terminal is
   still listed.
   */
  lemma Convergence(l: Limits, ops: seq<Op>)
    requires NewObjects(ops)
    ensures
      var s := Run(l, ops);
      && (s.life.BackendStopped? ==> forall r | r in s.pipes :: HasOneTerminal(s.pipes[r]))
      && (FreshExecutorIds(ops) ==> Inverse(s) && OwedAreListed(s))
  {
    var s := Run(l, ops);
    assert PipesOk(l, s.pipes) by { RunLinked(l, ops); }
    if FreshExecutorIds(ops) {
      assert Inverse(s) && OwedAreListed(s) by { FreshIdsNeverClash(l, ops); RunInv(l, ops); }
    }
    assert HoldersOk(s) by { RunHolders(l, ops); }
    forall r | r in s.pipes && s.life.BackendStopped? ensures HasOneTerminal(s.pipes[r]) {
      assert !Held(s, r);
      ConvergedHasOneTerminal(l, s.pipes[r]);
    }
  }

  /** The tables were inverse to each other after every step of the run. */
  ghost predicate AlwaysInverse(l: Limits, ops: seq<Op>) {
    Inverse(Run(l, ops)) && (|ops| == 0 || AlwaysInverse(l, ops[..|ops| - 1]))
  }

  lemma ClashBreaks(l: Limits, s: Backend, op: Op)
    requires Inv(l, s) && Clash(s, op)
    ensures !Inverse(Step(l, s, op))
  {
    var x := s.pipes[s.requests[op.exec]].req.id;
    assert x in Step(l, s, op).external && Step(l, s, op).external[x] == op.exec;
  }

  /** The tables stay inverse exactly in the runs where no submission is answered with an id still in use. */
  lemma {:induction false} InverseExactlyWithoutClash(l: Limits, ops: seq<Op>)
    requires NewObjects(ops)
    ensures AlwaysInverse(l, ops) <==> NoClash(l, ops)
  {
    if |ops| > 0 {
      var (before, op) := (ops[..|ops| - 1], ops[|ops| - 1]);
      assert forall i | 0 <= i < |before| :: before[i] == ops[i];
      InverseExactlyWithoutClash(l, before);
      if NoClash(l, ops) {
        RunInv(l, ops);
      } else if NoClash(l, before) {
        RunInv(l, before);
        ClashBreaks(l, Run(l, before), op);
      }
    }
  }

  /**
   What such an answer costs: the recovery path of `submit` removes the other request from
   its table, so request 0, still without a Terminal, is listed nowhere.
   */
  lemma RepeatedExecutorIdLosesARequest(l: Limits)
    ensures
      var s := Run(l, [OpStart, OpSubmit(1, 3, 0, 7), OpSubmit(2, 3, 1, 7)]);
      && s.life.BackendRunning? && 0 in s.pipes && !Converged(s.pipes[0])
      && s.requests == map[] && s.external == map[1 := 7]
  {
    var ops := [OpStart, OpSubmit(1, 3, 0, 7), OpSubmit(2, 3, 1, 7)];
    assert ops[..2][..1][..0] == [] && ops[..2][..1] == [OpStart] && ops[..2] == [OpStart, OpSubmit(1, 3, 0, 7)];
    assert Run(l, [OpStart]) == NEW_BACKEND.(life := BackendRunning);
    var s := Run(l, ops[..2]);
    assert s == Submit(NEW_BACKEND.(life := BackendRunning), 1, 3, 0, 7).0;
    assert s.requests == map[7 := 0] && s.external == map[1 := 7];
  }

  lemma LateStep(l: Limits, p: Pipe, op: PipeOp)
    requires PipeInv(l, p) && Converged(p)
    ensures
      var q := PipeStep(l, p, op);
      && q.req == p.req && Committeds(q) == Committeds(p) && HasOneTerminal(q)
      && (!op.OpTake? ==> q.log == p.log && q.box.terminal == p.box.terminal)
  {
    TerminalIsFinal(l, p, op);
    PipeStepInv(l, p, op);
    ConvergedHasOneTerminal(l, PipeStep(l, p, op));
  }

  /** A response for a converged request, however late, changes neither its request state nor its events. */
  lemma LateResponsesAreHarmless(l: Limits, s: Backend, ref: Ref, op: PipeOp)
    requires PipesOk(l, s.pipes) && ref in s.pipes && Converged(s.pipes[ref])
    ensures
      var (p, q) := (s.pipes[ref], On(l, s, ref, op).pipes[ref]);
      && q.req == p.req && Committeds(q) == Committeds(p) && HasOneTerminal(q)
      && (!op.OpTake? ==> q.log == p.log && q.box.terminal == p.box.terminal)
  {
    LateStep(l, s.pipes[ref], op);
    assert On(l, s, ref, op).pipes[ref] == PipeStep(l, s.pipes[ref], op);
  }
}
