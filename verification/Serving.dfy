/**
 Runtime, admission ledger, mailboxes and backend together: the lease of a request lives in
 its mailbox, a committed Terminal returns it, and stopping the backend decides how stopping
 the runtime ends. A request's mailbox, lease slot and backend object share one number.
 */
module Serving {
  import opened Messages
  import opened Sums
  import opened RequestModel
  import opened BackendModel
  import A = Admission
  import R = Runtime

  /**
   `submitting` are the mailboxes handed to `backend.submit`, which has not answered yet, and
   `releasing` those between the commit of their Terminal and the release that follows it.
   */
  datatype Plant = Plant(rt: R.State, be: Backend, submitting: set<Ref>, releasing: set<Ref>)

  const NEW_PLANT := Plant(R.CREATED, NEW_BACKEND, {}, {})

  datatype PlantOp =
    | OpLaunch(executorUp: bool)
    | OpAcquire(ref: Ref, claim: A.Claim)
    | OpHandOver(ref: Ref, answer: Option<ExecId>)
    | OpBackend(op: Op)
    | OpRelease(ref: Ref)
    | OpDropMailbox(ref: Ref)
    | OpBeginHalt
    | OpBackendHalted
    | OpEndHalt(backendThrew: bool)

  /** What the backend's own threads do between `start` and the end of `stop`. */
  predicate OfThreads(op: Op) { op.OpOn? || op.OpCancel? || op.OpErase? || op.OpMarkFailed? }

  /** The step commits the Terminal of `op.ref`. */
  predicate Commits(l: Limits, be: Backend, op: Op) {
    op.OpOn? && op.ref in be.pipes && !Converged(be.pipes[op.ref]) && Converged(On(l, be, op.ref, op.pipeOp).pipes[op.ref])
  }

  function Launch(b: A.Budget, p: Plant, executorUp: bool): Plant {
    if p.rt.stopping || p.submitting != {} then p
    else
      var be := if executorUp && p.rt.life.RuntimeStopped? then Start(p.be) else p.be;
      p.(be := be, rt := R.Step(b, p.rt, R.OpStart(be.life.BackendRunning?)))
  }

  /** The first half of `submit`: a lease is taken and moved into a new mailbox. */
  function Acquire(b: A.Budget, p: Plant, ref: Ref, claim: A.Claim): Plant {
    if p.rt.stopping || !p.rt.life.RuntimeRunning? || ref in p.rt.ledger.leases then p
    else
      p.(rt := R.Step(b, p.rt, R.OpSubmit(ref, claim)),
         submitting := if A.TryAcquire(b, p.rt.ledger, claim).Admitted? then p.submitting + {ref} else p.submitting)
  }

  function Return(b: A.Budget, p: Plant, ref: Ref): Plant {
    p.(rt := R.Step(b, p.rt, R.OpLease(A.OpRelease(ref))))
  }

  /** The second half: the backend takes the mailbox, or it is destroyed and the lease returned. */
  function HandOver(b: A.Budget, p: Plant, ref: Ref, answer: Option<ExecId>): Plant {
    if ref !in p.submitting || ref !in p.rt.ledger.leases then p
    else
      var claim := p.rt.ledger.leases[ref].claim;
      var (be, ok) := if answer.None? then (p.be, false) else BackendModel.Submit(p.be, claim.id, claim.input, ref, answer.value);
      var q := p.(be := be, submitting := p.submitting - {ref});
      if ok then q else Return(b, q, ref)
  }

  function ByThreads(l: Limits, p: Plant, op: Op): Plant {
    if !OfThreads(op) then p
    else p.(be := Step(l, p.be, op), releasing := if Commits(l, p.be, op) then p.releasing + {op.ref} else p.releasing)
  }

  /**
   The backend's `stop` joins the response pump and then finalizes what is left itself, each
   commit returning its lease before the next; so no release is under way when it ends.
   */
  function PlantStep(b: A.Budget, l: Limits, p: Plant, op: PlantOp): Plant {
    match op
    case OpLaunch(up) => Launch(b, p, up)
    case OpAcquire(ref, claim) => Acquire(b, p, ref, claim)
    case OpHandOver(ref, answer) => HandOver(b, p, ref, answer)
    case OpBackend(o) => ByThreads(l, p, o)
    case OpRelease(ref) => if ref in p.releasing then Return(b, p, ref).(releasing := p.releasing - {ref}) else p
    case OpDropMailbox(ref) =>
      if ref in p.be.pipes && ref !in p.releasing && !IsListed(p.be, ref) then Return(b, p, ref) else p
    case OpBeginHalt =>
      if p.rt.stopping || p.submitting != {} || p.rt.life.RuntimeStopped? then p
      else p.(rt := R.Step(b, p.rt, R.OpBeginStop), be := Step(l, p.be, OpBeginStop))
    case OpBackendHalted => if p.rt.stopping && p.releasing == {} then p.(be := Step(l, p.be, OpEndStop)) else p
    case OpEndHalt(threw) =>
      if p.rt.stopping && !p.be.life.BackendStopping? then p.(rt := R.Step(b, p.rt, R.OpEndStop(threw))) else p
  }

  function PlantRun(b: A.Budget, l: Limits, ops: seq<PlantOp>): Plant {
    if |ops| == 0 then NEW_PLANT else PlantStep(b, l, PlantRun(b, l, ops[..|ops| - 1]), ops[|ops| - 1])
  }

  // ---------- invariant

  predicate Live(p: Plant, r: Ref) { r in p.rt.ledger.leases && p.rt.ledger.leases[r].Live() }

  /** The request in mailbox `r` still owes its Terminal, or is just returning its lease. */
  predicate Outstanding(p: Plant, r: Ref) {
    r in p.be.pipes && (!Converged(p.be.pipes[r]) || r in p.releasing)
  }

  /** The backend lists the request in mailbox `r`, which owes its Terminal. */
  predicate Owing(be: Backend, r: Ref) { r in be.pipes && IsListed(be, r) && !Converged(be.pipes[r]) }

  ghost predicate LeasesOk(p: Plant) {
    && (forall r | Live(p, r) :: r in p.submitting || Outstanding(p, r))
    && (forall r | Owing(p.be, r) :: Live(p, r))
    && (forall r | r in p.submitting :: Live(p, r))
  }

  ghost predicate NumbersOk(p: Plant) {
    && p.be.pipes.Keys + p.submitting <= p.rt.ledger.leases.Keys
    && p.submitting !! p.be.pipes.Keys
    && (forall r | r in p.releasing :: r in p.be.pipes && Converged(p.be.pipes[r]))
    && (p.rt.stopping || !p.rt.life.RuntimeRunning? ==> p.submitting == {})
    && (p.be.life.BackendStopped? ==> p.releasing == {})
  }

  ghost predicate PlantOk(b: A.Budget, p: Plant) {
    R.Inv(b, p.rt) && HoldersOk(p.be) && NumbersOk(p) && LeasesOk(p)
  }

  lemma ReturnEffect(b: A.Budget, p: Plant, ref: Ref)
    requires R.Inv(b, p.rt)
    ensures R.Inv(b, Return(b, p, ref).rt)
    ensures Return(b, p, ref).rt == p.rt.(ledger := Return(b, p, ref).rt.ledger)
    ensures Return(b, p, ref).rt.ledger.leases.Keys == p.rt.ledger.leases.Keys
    ensures forall r :: Live(Return(b, p, ref), r) <==> Live(p, r) && r != ref
  {
    R.StepInv(b, p.rt, R.OpLease(A.OpRelease(ref)));
    if ref in p.rt.ledger.leases { A.ReleaseReturnsExactly(b, p.rt.ledger, ref); }
  }

  lemma AcquireLeases(b: A.Budget, p: Plant, ref: Ref, claim: A.Claim)
    requires LeasesOk(p) && ref !in p.be.pipes
    ensures LeasesOk(Acquire(b, p, ref, claim))
  {
    var q := Acquire(b, p, ref, claim);
    assert forall r | r != ref :: Live(q, r) <==> Live(p, r);
    assert forall r :: Outstanding(q, r) <==> Outstanding(p, r);
    assert q != p ==> (Live(q, ref) <==> ref in q.submitting);
  }

  lemma AcquireOk(b: A.Budget, p: Plant, ref: Ref, claim: A.Claim)
    requires PlantOk(b, p)
    ensures PlantOk(b, Acquire(b, p, ref, claim))
  {
    if Acquire(b, p, ref, claim) != p {
      assert ref !in p.be.pipes;
      R.StepInv(b, p.rt, R.OpSubmit(ref, claim));
      AcquireLeases(b, p, ref, claim);
    }
  }

  /** Leases stay accounted for when requests only move on and what stops owing was returned. */
  lemma LeasesKeep(p: Plant, q: Plant)
    requires LeasesOk(p) && q.submitting <= p.submitting
    requires forall r | Live(q, r) :: Live(p, r) && (r in p.submitting ==> r in q.submitting || Outstanding(q, r))
    requires forall r | Outstanding(p, r) && Live(q, r) :: Outstanding(q, r)
    requires forall r | Owing(q.be, r) || r in q.submitting :: Live(q, r)
    ensures LeasesOk(q)
  {
  }

  lemma ReturnLeases(b: A.Budget, p: Plant, q: Plant, ref: Ref)
    requires R.Inv(b, p.rt) && LeasesOk(p) && q.rt == p.rt
    requires q.submitting == p.submitting - {ref} && q.be.pipes == p.be.pipes && p.releasing - {ref} <= q.releasing
    requires forall r | Owing(q.be, r) :: Owing(p.be, r) && r != ref
    ensures LeasesOk(Return(b, q, ref))
  {
    ReturnEffect(b, q, ref);
    var t := Return(b, q, ref);
    assert forall r :: Live(q, r) <==> Live(p, r);
    assert forall r | Outstanding(p, r) && r != ref :: Outstanding(t, r);
    LeasesKeep(p, t);
  }

  lemma RefusedOk(b: A.Budget, p: Plant, be: Backend, ref: Ref)
    requires PlantOk(b, p) && ref in p.submitting
    requires HoldersOk(be) && be.pipes == p.be.pipes && be.execOf == p.be.execOf && be.life == p.be.life
    requires forall r | IsListed(be, r) :: IsListed(p.be, r)
    ensures PlantOk(b, Return(b, p.(be := be, submitting := p.submitting - {ref}), ref))
  {
    var q := p.(be := be, submitting := p.submitting - {ref});
    ReturnEffect(b, q, ref);
    ReturnLeases(b, p, q, ref);
  }

  lemma TakenOk(b: A.Budget, p: Plant, ref: Ref, id: Id, prompt: nat, exec: ExecId)
    requires PlantOk(b, p) && ref in p.submitting && BackendModel.Submit(p.be, id, prompt, ref, exec).1
    ensures PlantOk(b, p.(be := BackendModel.Submit(p.be, id, prompt, ref, exec).0, submitting := p.submitting - {ref}))
  {
    var be := BackendModel.Submit(p.be, id, prompt, ref, exec).0;
    var q := p.(be := be, submitting := p.submitting - {ref});
    SubmitHolders(p.be, id, prompt, ref, exec);
    assert forall r | r != ref && IsListed(be, r) :: IsListed(p.be, r);
    assert forall r :: Live(q, r) <==> Live(p, r);
    assert forall r | Outstanding(p, r) :: Outstanding(q, r);
    assert Outstanding(q, ref);
  }

  lemma HandOverOk(b: A.Budget, p: Plant, ref: Ref, answer: Option<ExecId>)
    requires PlantOk(b, p)
    ensures PlantOk(b, HandOver(b, p, ref, answer))
  {
    if ref in p.submitting {
      var claim := p.rt.ledger.leases[ref].claim;
      if answer.None? {
        RefusedOk(b, p, p.be, ref);
      } else {
        var (be, ok) := BackendModel.Submit(p.be, claim.id, claim.input, ref, answer.value);
        if ok {
          TakenOk(b, p, ref, claim.id, claim.input, answer.value);
        } else {
          SubmitHolders(p.be, claim.id, claim.input, ref, answer.value);
          RefusedOk(b, p, be, ref);
        }
      }
    }
  }

  /** The backend's threads only move requests towards their Terminal and out of the tables. */
  lemma ThreadsEffect(l: Limits, be: Backend, op: Op)
    requires OfThreads(op)
    ensures
      var t := Step(l, be, op);
      && t.pipes.Keys == be.pipes.Keys && t.execOf == be.execOf
      && (t.life.BackendStopped? <==> be.life.BackendStopped?)
      && (forall r | IsListed(t, r) :: IsListed(be, r))
      && (forall r | r in be.pipes && Converged(be.pipes[r]) :: Converged(t.pipes[r]))
      && (forall r | r in be.pipes && Converged(t.pipes[r]) && !Converged(be.pipes[r]) :: Commits(l, be, op) && r == op.ref)
  {
    match op
    case OpOn(ref, o) =>
      OnFrame(l, be, ref, o);
      if ref in be.pipes { StepKeepsIdentity(l, be.pipes[ref], o); }
    case OpCancel(id) =>
      if id in be.external && be.external[id] in be.requests {
        OnFrame(l, be, be.requests[be.external[id]], OpCancelling);
      }
    case _ =>
  }

  lemma ThreadsLeases(l: Limits, p: Plant, op: Op)
    requires LeasesOk(p) && OfThreads(op)
    ensures LeasesOk(ByThreads(l, p, op))
  {
    var q := ByThreads(l, p, op);
    ThreadsEffect(l, p.be, op);
    assert forall r :: Live(q, r) <==> Live(p, r);
    assert forall r | Outstanding(p, r) :: Outstanding(q, r);
    assert forall r | Owing(q.be, r) :: Owing(p.be, r);
    LeasesKeep(p, q);
  }

  lemma ThreadsNumbers(l: Limits, p: Plant, op: Op)
    requires NumbersOk(p) && HoldersOk(p.be) && OfThreads(op)
    ensures NumbersOk(ByThreads(l, p, op))
  {
    ThreadsEffect(l, p.be, op);
    if Commits(l, p.be, op) && p.be.life.BackendStopped? { assert Held(p.be, op.ref); }
  }

  lemma ThreadsOk(b: A.Budget, l: Limits, p: Plant, op: Op)
    requires PlantOk(b, p) && OfThreads(op)
    ensures PlantOk(b, ByThreads(l, p, op))
  {
    StepHolders(l, p.be, op);
    ThreadsNumbers(l, p, op);
    ThreadsLeases(l, p, op);
  }

  lemma ReleaseOk(b: A.Budget, p: Plant, ref: Ref, releasing: set<Ref>)
    requires PlantOk(b, p) && ref in p.be.pipes && !Owing(p.be, ref)
    requires p.releasing - {ref} <= releasing <= p.releasing
    ensures PlantOk(b, Return(b, p, ref).(releasing := releasing))
  {
    var q := p.(releasing := releasing);
    assert p.submitting - {ref} == p.submitting;
    ReturnEffect(b, q, ref);
    ReturnLeases(b, p, q, ref);
    assert Return(b, p, ref).(releasing := releasing) == Return(b, q, ref);
  }

  /** Steps of the lifecycles alone. */
  lemma LifeOk(b: A.Budget, p: Plant, rt: R.State, be: Backend)
    requires PlantOk(b, p) && R.Inv(b, rt) && HoldersOk(be)
    requires rt.ledger.leases == p.rt.ledger.leases && be == p.be.(life := be.life)
    requires rt.stopping || !rt.life.RuntimeRunning? ==> p.submitting == {}
    requires be.life.BackendStopped? ==> p.releasing == {}
    ensures PlantOk(b, p.(rt := rt, be := be))
  {
    LifeLeases(p, rt, be);
  }

  lemma LifeLeases(p: Plant, rt: R.State, be: Backend)
    requires LeasesOk(p) && rt.ledger.leases == p.rt.ledger.leases && be == p.be.(life := be.life)
    ensures LeasesOk(p.(rt := rt, be := be))
  {
    var q := p.(rt := rt, be := be);
    assert forall r :: Live(q, r) <==> Live(p, r);
    assert forall r :: Outstanding(q, r) <==> Outstanding(p, r);
    assert forall r :: Owing(q.be, r) <==> Owing(p.be, r);
    LeasesKeep(p, q);
  }

  lemma LaunchOk(b: A.Budget, l: Limits, p: Plant, up: bool)
    requires PlantOk(b, p)
    ensures PlantOk(b, Launch(b, p, up))
  {
    if !p.rt.stopping && p.submitting == {} {
      var be := Launch(b, p, up).be;
      StepHolders(l, p.be, OpStart);
      R.StepInv(b, p.rt, R.OpStart(be.life.BackendRunning?));
      LifeOk(b, p, Launch(b, p, up).rt, be);
    }
  }

  lemma HaltOk(b: A.Budget, l: Limits, p: Plant, op: PlantOp)
    requires PlantOk(b, p) && (op.OpBeginHalt? || op.OpBackendHalted? || op.OpEndHalt?)
    ensures PlantOk(b, PlantStep(b, l, p, op))
  {
    var q := PlantStep(b, l, p, op);
    match op
    case OpBeginHalt =>
      if q != p {
        StepHolders(l, p.be, OpBeginStop);
        R.StepInv(b, p.rt, R.OpBeginStop);
        LifeOk(b, p, q.rt, q.be);
      }
    case OpBackendHalted =>
      if q != p {
        StepHolders(l, p.be, OpEndStop);
        LifeOk(b, p, p.rt, q.be);
      }
    case OpEndHalt(threw) =>
      if q != p {
        R.StepInv(b, p.rt, R.OpEndStop(threw));
        LifeOk(b, p, q.rt, p.be);
      }
  }

  lemma PlantStepOk(b: A.Budget, l: Limits, p: Plant, op: PlantOp)
    requires PlantOk(b, p)
    ensures PlantOk(b, PlantStep(b, l, p, op))
  {
    match op
    case OpLaunch(up) => LaunchOk(b, l, p, up);
    case OpAcquire(ref, claim) => AcquireOk(b, p, ref, claim);
    case OpHandOver(ref, answer) => HandOverOk(b, p, ref, answer);
    case OpBackend(o) => if OfThreads(o) { ThreadsOk(b, l, p, o); }
    case OpRelease(ref) => if ref in p.releasing { ReleaseOk(b, p, ref, p.releasing - {ref}); }
    case OpDropMailbox(ref) =>
      if ref in p.be.pipes && ref !in p.releasing && !IsListed(p.be, ref) {
        ReleaseOk(b, p, ref, p.releasing);
        assert Return(b, p, ref).(releasing := p.releasing) == Return(b, p, ref);
      }
    case _ => HaltOk(b, l, p, op);
  }

  lemma {:induction false} PlantRunOk(b: A.Budget, l: Limits, ops: seq<PlantOp>)
    ensures PlantOk(b, PlantRun(b, l, ops))
  {
    if |ops| > 0 {
      PlantRunOk(b, l, ops[..|ops| - 1]);
      PlantStepOk(b, l, PlantRun(b, l, ops[..|ops| - 1]), ops[|ops| - 1]);
    }
  }

  // ---------- what holds in every run

  /**
   In every run a live lease belongs to a submission the backend has not answered, to a
   request without a Terminal, or to one whose Terminal was committed a moment ago; a listed
   request without a Terminal holds its lease; and the books balance.
   */
  lemma LeaseFollowsTerminal(b: A.Budget, l: Limits, ops: seq<PlantOp>, r: Ref)
    ensures
      var p := PlantRun(b, l, ops);
      && (Live(p, r) ==> r in p.submitting || Outstanding(p, r))
      && (Owing(p.be, r) || r in p.submitting ==> Live(p, r))
      && A.LedgerInv(b, p.rt.ledger)
  {
    PlantRunOk(b, l, ops);
  }

  /**
   In every run, once the backend has ended in Stopped no lease is live, so that `stop` of
   the runtime ends in Stopped as well; it ends in Failed only if the backend threw or did
   not reach Stopped.
   */
  lemma StopFollowsBackend(b: A.Budget, l: Limits, ops: seq<PlantOp>)
    ensures
      var p := PlantRun(b, l, ops);
      p.rt.stopping && p.be.life.BackendStopped? ==>
        && (forall r :: !Live(p, r))
        && PlantStep(b, l, p, OpEndHalt(false)).rt.life.RuntimeStopped?
  {
    PlantRunOk(b, l, ops);
    var p := PlantRun(b, l, ops);
    if p.rt.stopping && p.be.life.BackendStopped? {
      NothingOutstanding(p);
      EndsStopped(b, p.rt);
    }
  }

  lemma EndsStopped(b: A.Budget, s: R.State)
    requires A.LedgerInv(b, s.ledger) && s.stopping
    requires forall r | r in s.ledger.leases :: !s.ledger.leases[r].Live()
    ensures R.Step(b, s, R.OpEndStop(false)).life.RuntimeStopped?
  {
    NoLeaseNoId(b, s.ledger);
  }

  /** A stopped backend holds no request that owes a Terminal. */
  lemma NothingOutstanding(p: Plant)
    requires HoldersOk(p.be) && NumbersOk(p) && LeasesOk(p) && p.rt.stopping && p.be.life.BackendStopped?
    ensures forall r :: !Live(p, r)
    ensures forall r | r in p.rt.ledger.leases :: !p.rt.ledger.leases[r].Live()
  {
    assert forall r | r in p.rt.ledger.leases :: Live(p, r) <==> p.rt.ledger.leases[r].Live();
    assert forall r :: !Held(p.be, r);
    assert forall r :: !Outstanding(p, r) by {
      assert forall r | Outstanding(p, r) :: Held(p.be, r);
    }
  }

  lemma {:induction false} NoneLive(leases: map<A.Slot, A.Lease>)
    requires forall r | r in leases :: !leases[r].Live()
    ensures MapSum(leases, A.LiveCount) == 0
    decreases |leases|
  {
    if leases != map[] {
      var k :| k in leases;
      MapSumPick(leases, A.LiveCount, k);
      assert (leases - {k}).Keys == leases.Keys - {k};
      NoneLive(leases - {k});
    }
  }

  lemma NoLeaseNoId(b: A.Budget, s: A.Ledger)
    requires A.LedgerInv(b, s) && forall r | r in s.leases :: !s.leases[r].Live()
    ensures s.ids == {} && s.input == 0 && s.output == 0
  {
    NoneLive(s.leases);
    R.NothingLive(s.leases);
  }
}
