/** The admission controller object and the lifecycle of the generation runtime built on it. */
module Runtime {
  import opened Sums
  import opened Admission
  import opened Word64

  // ---------- lifecycle as a transition system

  datatype Life = RuntimeStopped | RuntimeRunning | RuntimeFailed

  /** `stopping` holds between the two halves of `stop`, while it owns the lifecycle lock. */
  datatype State = State(life: Life, stopping: bool, ledger: Ledger)

  const CREATED := State(RuntimeStopped, false, EMPTY_LEDGER)

  datatype StartOutcome = StartOk | AlreadyRunning | MustBeStopped | BackendFailed | AdmissionStuck

  /** `start`, given whether the backend came up. */
  function StartRuntime(s: State, backendUp: bool): (r: (State, StartOutcome)) {
    if s.life.RuntimeRunning? then (s, AlreadyRunning)
    else if s.life.RuntimeFailed? then (s, MustBeStopped)
    else if !backendUp then (s, BackendFailed)
    else
      var (ledger, isOpen) := Open(s.ledger);
      if !isOpen then (s.(life := RuntimeFailed), AdmissionStuck)
      else (s.(life := RuntimeRunning, ledger := ledger), StartOk)
  }

  /** `stop` up to the call of the backend: admission is closed, nothing is decided yet. */
  function BeginStop(s: State): State {
    if s.life.RuntimeStopped? then s else s.(stopping := true, ledger := Shut(s.ledger))
  }

  /** The rest of `stop`: Failed if the backend threw or left resources reserved, else Stopped. */
  function EndStop(s: State, backendThrew: bool): State {
    var l := s.ledger;
    if backendThrew || l.ids != {} || l.input != 0 || l.output != 0
    then s.(stopping := false, life := RuntimeFailed)
    else s.(stopping := false, life := RuntimeStopped)
  }

  datatype RuntimeOp =
    | OpStart(backendUp: bool)
    | OpSubmit(slot: Slot, claim: Claim)
    | OpBeginStop
    | OpEndStop(backendThrew: bool)
    | OpLease(op: LedgerOp)

  /** Operations on leases that already exist; they need no lifecycle lock. */
  predicate OnLease(op: LedgerOp) {
    op.OpMoveConstruct? || op.OpMoveAssign? || op.OpRelease? || op.OpDestroy?
  }

  /** A step; one the lifecycle lock rules out at this moment leaves the state as it is. */
  function Step(b: Budget, s: State, op: RuntimeOp): State {
    match op
    case OpStart(up) => if s.stopping then s else StartRuntime(s, up).0
    case OpSubmit(slot, claim) =>
      if s.stopping || !s.life.RuntimeRunning? then s
      else s.(ledger := LedgerStep(b, s.ledger, OpAcquire(slot, claim)))
    case OpBeginStop => if s.stopping then s else BeginStop(s)
    case OpEndStop(threw) => if !s.stopping then s else EndStop(s, threw)
    case OpLease(o) => if OnLease(o) then s.(ledger := LedgerStep(b, s.ledger, o)) else s
  }

  function Run(b: Budget, ops: seq<RuntimeOp>): State {
    if |ops| == 0 then CREATED else Step(b, Run(b, ops[..|ops| - 1]), ops[|ops| - 1])
  }

  ghost predicate Inv(b: Budget, s: State) {
    && LedgerInv(b, s.ledger)
    && (s.ledger.accepting <==> s.life.RuntimeRunning? && !s.stopping)
    && (s.life.RuntimeStopped? ==> !s.stopping && s.ledger.ids == {})
  }

  /** With no active id nothing at all is reserved. */
  lemma {:induction false} NothingLive(leases: map<Slot, Lease>)
    requires MapSum(leases, LiveCount) == 0
    ensures MapSum(leases, LiveInput) == 0 && MapSum(leases, LiveOutput) == 0
    decreases |leases|
  {
    if leases != map[] {
      var k :| k in leases;
      assert (leases - {k}).Keys == leases.Keys - {k};
      MapSumPick(leases, LiveCount, k);
      MapSumPick(leases, LiveInput, k);
      MapSumPick(leases, LiveOutput, k);
      NothingLive(leases - {k});
    }
  }

  lemma IdleLedgerOpens(b: Budget, s: Ledger)
    requires LedgerInv(b, s)
    ensures Open(s).1 <==> s.ids == {}
  {
    if s.ids == {} { NothingLive(s.leases); }
  }

  lemma LeaseOpsShrink(b: Budget, s: Ledger, op: LedgerOp)
    requires LedgerInv(b, s) && OnLease(op)
    ensures LedgerStep(b, s, op).accepting == s.accepting && LedgerStep(b, s, op).ids <= s.ids
  {
  }

  lemma StepInv(b: Budget, s: State, op: RuntimeOp)
    requires Inv(b, s)
    ensures Inv(b, Step(b, s, op))
  {
    match op
    case OpStart(up) => LedgerStepInv(b, s.ledger, LedgerOp.OpOpen);
    case OpSubmit(slot, claim) => LedgerStepInv(b, s.ledger, OpAcquire(slot, claim));
    case OpBeginStop => LedgerStepInv(b, s.ledger, OpShut);
    case OpEndStop(threw) =>
    case OpLease(o) =>
      LedgerStepInv(b, s.ledger, o);
      if OnLease(o) { LeaseOpsShrink(b, s.ledger, o); }
  }

  lemma {:induction false} RunInv(b: Budget, ops: seq<RuntimeOp>)
    ensures Inv(b, Run(b, ops))
  {
    if |ops| > 0 {
      RunInv(b, ops[..|ops| - 1]);
      StepInv(b, Run(b, ops[..|ops| - 1]), ops[|ops| - 1]);
    }
  }

  /**
   In every run: outside `stop`, Running holds exactly when admission accepts; Stopped means
   that no lease is outstanding and every lease ever issued came back; so a start after the
   backend is up never finds admission unable to open.
   */
  lemma Lifecycle(b: Budget, ops: seq<RuntimeOp>)
    ensures
      var s := Run(b, ops);
      && (!s.stopping ==> (s.life.RuntimeRunning? <==> s.ledger.accepting))
      && (s.life.RuntimeStopped? ==> s.ledger.ids == {} && s.ledger.input == 0 && s.ledger.output == 0
                                     && s.ledger.issued == s.ledger.returned)
      && (!s.stopping ==> forall up :: StartRuntime(s, up).1 != AdmissionStuck)
  {
    RunInv(b, ops);
    var s := Run(b, ops);
    if s.ledger.ids == {} { NothingLive(s.ledger.leases); }
    IdleLedgerOpens(b, s.ledger);
  }

  /** A lease granted and dropped again leaves the books as they were. */
  lemma GrantThenRelease(b: Budget, s: Ledger, slot: Slot, claim: Claim)
    requires LedgerInv(b, s) && slot !in s.leases && TryAcquire(b, s, claim) == Admitted
    ensures
      var t := Release(Grant(s, slot, claim), slot);
      t.ids == s.ids && t.input == s.input && t.output == s.output && t.accepting == s.accepting
  {
    AdmittedExactlyWhenItFits(b, s, claim);
    AddExact(s.input, claim.input);
    AddExact(s.output, claim.output);
    SubExact(s.input + claim.input, claim.input);
    SubExact(s.output + claim.output, claim.output);
  }

  /** Releases the leases in `slots`, one after the other. */
  function ReleaseAll(s: Ledger, slots: seq<Slot>): Ledger
    requires forall k | 0 <= k < |slots| :: slots[k] in s.leases
    ensures ReleaseAll(s, slots).leases.Keys == s.leases.Keys
    ensures ReleaseAll(s, slots).accepting == s.accepting
  {
    if |slots| == 0 then s else Release(ReleaseAll(s, slots[..|slots| - 1]), slots[|slots| - 1])
  }

  // ---------- what the operations mean to a caller

  predicate Fits(b: Budget, s: Ledger, claim: Claim) {
    && claim.id != 0 && claim.input > 0 && claim.output > 0
    && claim.id !in s.ids && |s.ids| + 1 <= b.maxActive
    && s.input + claim.input <= b.maxInput && s.output + claim.output <= b.maxOutput
  }

  /** Admitted exactly when a legal claim fits the open budget; then exactly this claim is added, held by `slot`. */
  predicate Decided(b: Budget, s: Ledger, slot: Slot, claim: Claim, code: AdmissionCode, t: Ledger) {
    && (code == Admitted <==> s.accepting && Fits(b, s, claim))
    && slot in t.leases && (t.leases[slot].Live() <==> code == Admitted)
    && (forall k | k in s.leases && k != slot :: k in t.leases && t.leases[k] == s.leases[k])
    && (if code == Admitted
        then t.leases[slot].claim == claim && t.ids == s.ids + {claim.id}
             && t.input == s.input + claim.input && t.output == s.output + claim.output
        else t.ids == s.ids && t.input == s.input && t.output == s.output)
  }

  lemma AdmittedExactly(b: Budget, s: Ledger, claim: Claim)
    requires WithinBudget(b, s)
    ensures TryAcquire(b, s, claim) == Admitted <==> s.accepting && Fits(b, s, claim)
  {
    SubExact(b.maxInput, s.input);
    SubExact(b.maxOutput, s.output);
  }

  lemma GrantMeaning(b: Budget, s: Ledger, slot: Slot, claim: Claim)
    requires s.accepting && Fits(b, s, claim)
    ensures Decided(b, s, slot, claim, Admitted, Grant(s, slot, claim))
  {
    AddExact(s.input, claim.input);
    AddExact(s.output, claim.output);
  }

  lemma AcquireMeaning(b: Budget, s: Ledger, slot: Slot, claim: Claim)
    requires WithinBudget(b, s)
    ensures Decided(b, s, slot, claim, TryAcquire(b, s, claim), Acquire(b, s, slot, claim))
  {
    AdmittedExactly(b, s, claim);
    if TryAcquire(b, s, claim) == Admitted { GrantMeaning(b, s, slot, claim); }
  }

  /** `dst` gets the lease of `src`, which is left empty; what `dst` held before is given back, and nothing else. */
  predicate Moved(s: Ledger, dst: Slot, src: Slot, t: Ledger)
    requires dst in s.leases && src in s.leases
  {
    if dst == src then t == s
    else
      var held := s.leases[dst];
      && t.leases == s.leases[src := NO_LEASE][dst := s.leases[src]]
      && t.ids == s.ids - (if held.Live() then {held.claim.id} else {})
      && t.input == s.input - LiveInput(held) && t.output == s.output - LiveOutput(held)
      && t.issued == s.issued && t.returned == s.returned + LiveCount(held)
  }

  lemma MoveMeaning(b: Budget, s: Ledger, dst: Slot, src: Slot)
    requires LedgerInv(b, s) && dst in s.leases && src in s.leases
    ensures Moved(s, dst, src, MoveAssign(s, dst, src))
  {
    if dst != src {
      ReleaseReturnsExactly(b, s, dst);
      assert Release(s, dst).leases[src] == s.leases[src];
      assert MoveAssign(s, dst, src).leases == s.leases[src := NO_LEASE][dst := s.leases[src]];
    }
  }

  // ---------- the objects

  class AdmissionController {
    const budget: Budget
    var state: Ledger

    ghost predicate Valid()
      reads this
    {
      LedgerInv(budget, state)
    }

    constructor (b: Budget)
      ensures Valid() && budget == b && state == EMPTY_LEDGER
    {
      budget := b;
      state := EMPTY_LEDGER;
    }

    method Open() returns (isOpen: bool)
      requires Valid()
      modifies this
      ensures Valid() && isOpen == (old(state).ids == {})
      ensures state == if isOpen then old(state).(accepting := true) else old(state)
    {
      IdleLedgerOpens(budget, state);
      if state.ids != {} || state.input != 0 || state.output != 0 { return false; }
      state := state.(accepting := true);
      return true;
    }

    method Close()
      requires Valid()
      modifies this
      ensures Valid() && state == old(state).(accepting := false)
    {
      state := state.(accepting := false);
    }

    method TryAcquire(slot: Slot, claim: Claim) returns (code: AdmissionCode)
      requires Valid() && slot !in state.leases
      modifies this
      ensures Valid() && code == Admission.TryAcquire(budget, old(state), claim)
      ensures state == Acquire(budget, old(state), slot, claim)
      ensures Decided(budget, old(state), slot, claim, code, state)
    {
      AcquireMeaning(budget, state, slot, claim);
      AcquireInv(budget, state, slot, claim);
      code := Admission.TryAcquire(budget, state, claim);
      if code != Admitted {
        state := state.(leases := state.leases[slot := NO_LEASE]);
        return;
      }
      state := Grant(state, slot, claim);
    }

    method ReleaseLease(slot: Slot)
      requires Valid() && slot in state.leases
      modifies this
      ensures Valid() && state == Release(old(state), slot)
      ensures state.ids == old(state).ids -
                (if old(state).leases[slot].Live() then {old(state).leases[slot].claim.id} else {})
    {
      ReleaseInv(budget, state, slot);
      ReleaseReturnsExactly(budget, state, slot);
      state := Release(state, slot);
    }

    /** Releases the leases in `slots` in turn. */
    method Settle(slots: seq<Slot>)
      requires Valid() && forall k | 0 <= k < |slots| :: slots[k] in state.leases
      modifies this
      ensures Valid() && state == ReleaseAll(old(state), slots)
    {
      for k := 0 to |slots|
        invariant Valid() && state == ReleaseAll(old(state), slots[..k])
      {
        assert slots[..k + 1][..k] == slots[..k];
        ReleaseLease(slots[k]);
      }
      assert slots[..|slots|] == slots;
    }

    method MoveLease(dst: Slot, src: Slot)
      requires Valid() && dst in state.leases && src in state.leases
      modifies this
      ensures Valid() && state == MoveAssign(old(state), dst, src)
      ensures Moved(old(state), dst, src, state)
    {
      MoveMeaning(budget, state, dst, src);
      if dst == src { return; }
      ReleaseInv(budget, state, dst);
      TransferInv(budget, Release(state, dst), dst, src);
      ReleaseLease(dst);
      state := Transfer(state, dst, src);
    }
  }

  class GenerationRuntime {
    const admission: AdmissionController
    var life: Life

    ghost function Abs(): State
      reads this, admission
    {
      State(life, false, admission.state)
    }

    ghost predicate Valid()
      reads this, admission
    {
      Inv(admission.budget, Abs())
    }

    constructor (b: Budget)
      ensures Valid() && Abs() == CREATED && fresh(admission)
    {
      admission := new AdmissionController(b);
      life := RuntimeStopped;
    }

    method Start(backendUp: bool) returns (r: StartOutcome)
      requires Valid()
      modifies this, admission
      ensures Valid() && (Abs(), r) == StartRuntime(old(Abs()), backendUp)
      ensures r != AdmissionStuck
    {
      if life == RuntimeRunning { return AlreadyRunning; }
      if life == RuntimeFailed { return MustBeStopped; }
      if !backendUp { return BackendFailed; }
      IdleLedgerOpens(admission.budget, admission.state);
      var isOpen := admission.Open();
      life := if isOpen then RuntimeRunning else RuntimeFailed;
      return if isOpen then StartOk else AdmissionStuck;
    }

    /**
     Submits a request whose lease goes to the unused slot `slot`. A submission that is not
     accepted, for whatever reason, leaves nothing reserved behind.
     */
    method Submit(slot: Slot, claim: Claim, sloAdmits: bool, backendAccepts: bool) returns (accepted: bool)
      requires Valid() && slot !in admission.state.leases
      modifies admission
      ensures Valid() && life == old(life)
      ensures accepted <==> && old(life) == RuntimeRunning && sloAdmits && backendAccepts
                            && TryAcquire(admission.budget, old(admission.state), claim) == Admitted
      ensures accepted ==> admission.state == Grant(old(admission.state), slot, claim)
      ensures !accepted ==>
                && admission.state.ids == old(admission.state.ids)
                && admission.state.input == old(admission.state.input)
                && admission.state.output == old(admission.state.output)
    {
      accepted := false;
      if claim.id == 0 || claim.input == 0 || claim.output == 0 || life != RuntimeRunning || !sloAdmits { return; }
      ghost var before := admission.state;
      var code := admission.TryAcquire(slot, claim);
      accepted := code == Admitted && backendAccepts;
      if code == Admitted && !backendAccepts {
        GrantThenRelease(admission.budget, before, slot, claim);
        admission.ReleaseLease(slot);
      }
    }

    /**
     Stops the runtime. Stopping the backend commits a Terminal for each request it still
     has, which releases the lease in the mailbox of that request: the slots `settled`.
     */
    method Stop(settled: seq<Slot>, backendThrew: bool) returns (stopped: bool)
      requires Valid() && forall k | 0 <= k < |settled| :: settled[k] in admission.state.leases
      modifies this, admission
      ensures Valid()
      ensures stopped <==> life == RuntimeStopped
      ensures old(life) != RuntimeStopped ==>
                (stopped <==> !backendThrew && admission.state.ids == {}) && !admission.state.accepting
      ensures old(life) != RuntimeStopped ==> admission.state == ReleaseAll(Shut(old(admission.state)), settled)
    {
      if life == RuntimeStopped { return true; }
      admission.Close();
      admission.Settle(settled);
      IdleLedgerOpens(admission.budget, admission.state);
      var s := admission.state;
      if backendThrew || s.ids != {} || s.input != 0 || s.output != 0 {
        life := RuntimeFailed;
        return false;
      }
      life := RuntimeStopped;
      return true;
    }
  }
}
