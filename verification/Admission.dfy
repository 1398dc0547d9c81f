/**
 Admission control: the budget ledger, the leases that hold pieces of it, and their move,
 release and destruction. A lease lives in a storage slot, as a move-only object does.
 */
module Admission {
  import opened Messages
  import opened Sums
  import opened Word64

  datatype RawBudget = RawBudget(maxActive: nat, maxInput: nat, maxOutput: nat)

  /** Budgets the controller accepts; its counters are 64-bit. */
  type Budget = b: RawBudget |
    0 < b.maxActive < U64 && 0 < b.maxInput < U64 && 0 < b.maxOutput < U64 witness RawBudget(1, 1, 1)

  datatype Claim = Claim(id: Id, input: nat, output: nat)
  type Slot = nat

  datatype Lease = Lease(attached: bool, claim: Claim, released: bool) {
    predicate Live() { attached && !released }
  }

  const NO_LEASE := Lease(false, Claim(0, 0, 0), true)

  datatype AdmissionCode =
    | Admitted | InvalidRequest | NotAccepting | DuplicateRequestId
    | ActiveRequestLimit | InputTokenLimit | OutputTokenLimit

  /**
   The shared state and every lease slot. `owner`, `issued` and `returned` are history: which
   slot holds the lease of an active id, and how many leases were handed out and given back.
   */
  datatype Ledger = Ledger(
    accepting: bool,
    ids: set<Id>,
    input: nat,
    output: nat,
    leases: map<Slot, Lease>,
    owner: map<Id, Slot>,
    issued: nat,
    returned: nat)

  const EMPTY_LEDGER := Ledger(false, {}, 0, 0, map[], map[], 0, 0)

  // ---------- operations

  function TryAcquire(b: Budget, s: Ledger, claim: Claim): (code: AdmissionCode) {
    if claim.id == 0 || claim.input == 0 || claim.output == 0 then InvalidRequest
    else if !s.accepting then NotAccepting
    else if claim.id in s.ids then DuplicateRequestId
    else if |s.ids| >= b.maxActive then ActiveRequestLimit
    else if claim.input > Sub(b.maxInput, s.input) then InputTokenLimit
    else if claim.output > Sub(b.maxOutput, s.output) then OutputTokenLimit
    else Admitted
  }

  function Grant(s: Ledger, slot: Slot, claim: Claim): Ledger {
    s.(ids := s.ids + {claim.id},
       input := Add(s.input, claim.input),
       output := Add(s.output, claim.output),
       leases := s.leases[slot := Lease(true, claim, false)],
       owner := s.owner[claim.id := slot],
       issued := s.issued + 1)
  }

  /** The decision of `TryAcquire`, its lease constructed in the unused slot `slot`. */
  function Acquire(b: Budget, s: Ledger, slot: Slot, claim: Claim): (t: Ledger) {
    if TryAcquire(b, s, claim) != Admitted then s.(leases := s.leases[slot := NO_LEASE])
    else Grant(s, slot, claim)
  }

  function Release(s: Ledger, slot: Slot): (t: Ledger)
    requires slot in s.leases
  {
    var lease := s.leases[slot];
    if !lease.Live() then s
    else
      var t := s.(leases := s.leases[slot := NO_LEASE]);
      if lease.claim.id !in s.ids then t
      else t.(ids := s.ids - {lease.claim.id},
              input := Sub(s.input, lease.claim.input),
              output := Sub(s.output, lease.claim.output),
              owner := s.owner - {lease.claim.id},
              returned := s.returned + 1)
  }

  /** Hands the lease in `src` over to `dst`, leaving an empty lease behind. */
  function Transfer(s: Ledger, dst: Slot, src: Slot): (t: Ledger)
    requires src in s.leases
  {
    var lease := s.leases[src];
    s.(leases := s.leases[src := NO_LEASE][dst := lease],
       owner := if lease.Live() then s.owner[lease.claim.id := dst] else s.owner)
  }

  function MoveAssign(s: Ledger, dst: Slot, src: Slot): (t: Ledger)
    requires dst in s.leases && src in s.leases
  {
    if dst == src then s else Transfer(Release(s, dst), dst, src)
  }

  function Destroy(s: Ledger, slot: Slot): (t: Ledger)
    requires slot in s.leases
  {
    var t := Release(s, slot);
    t.(leases := t.leases - {slot})
  }

  function Open(s: Ledger): (r: (Ledger, bool)) {
    if s.ids != {} || s.input != 0 || s.output != 0 then (s, false) else (s.(accepting := true), true)
  }

  function Shut(s: Ledger): Ledger { s.(accepting := false) }

  // ---------- invariant

  function LiveInput(l: Lease): nat { if l.Live() then l.claim.input else 0 }
  function LiveOutput(l: Lease): nat { if l.Live() then l.claim.output else 0 }
  function LiveCount(l: Lease): nat { if l.Live() then 1 else 0 }

  /** Active ids and live leases correspond one to one. */
  ghost predicate Owned(s: Ledger) {
    && s.owner.Keys == s.ids
    && (forall id | id in s.owner ::
          s.owner[id] in s.leases && s.leases[s.owner[id]].Live() && s.leases[s.owner[id]].claim.id == id)
    && (forall slot | slot in s.leases && s.leases[slot].Live() ::
          s.leases[slot].claim.id in s.owner && s.owner[s.leases[slot].claim.id] == slot)
  }

  /** The reserved amounts are the sums over the live leases, and no lease is lost or returned twice. */
  ghost predicate Balanced(s: Ledger) {
    && s.input == MapSum(s.leases, LiveInput)
    && s.output == MapSum(s.leases, LiveOutput)
    && |s.ids| == MapSum(s.leases, LiveCount)
    && s.issued == s.returned + |s.ids|
  }

  predicate WithinBudget(b: Budget, s: Ledger) {
    |s.ids| <= b.maxActive && s.input <= b.maxInput && s.output <= b.maxOutput
  }

  ghost predicate LedgerInv(b: Budget, s: Ledger) {
    Owned(s) && Balanced(s) && WithinBudget(b, s)
  }

  lemma SetLease(s: Ledger, slot: Slot, l: Lease)
    ensures MapSum(s.leases[slot := l], LiveInput) == MapSum(s.leases, LiveInput) - At(s.leases, LiveInput, slot) + LiveInput(l)
    ensures MapSum(s.leases[slot := l], LiveOutput) == MapSum(s.leases, LiveOutput) - At(s.leases, LiveOutput, slot) + LiveOutput(l)
    ensures MapSum(s.leases[slot := l], LiveCount) == MapSum(s.leases, LiveCount) - At(s.leases, LiveCount, slot) + LiveCount(l)
  {
    MapSumSet(s.leases, LiveInput, slot, l);
    MapSumSet(s.leases, LiveOutput, slot, l);
    MapSumSet(s.leases, LiveCount, slot, l);
  }

  lemma GrantOwned(s: Ledger, slot: Slot, claim: Claim)
    requires Owned(s) && slot !in s.leases && claim.id !in s.ids
    ensures Owned(Grant(s, slot, claim))
  {
  }

  lemma GrantBalanced(b: Budget, s: Ledger, slot: Slot, claim: Claim)
    requires Balanced(s) && WithinBudget(b, s) && slot !in s.leases && TryAcquire(b, s, claim) == Admitted
    ensures Balanced(Grant(s, slot, claim)) && WithinBudget(b, Grant(s, slot, claim))
  {
    SetLease(s, slot, Lease(true, claim, false));
    AddExact(s.input, claim.input);
    AddExact(s.output, claim.output);
  }

  lemma AcquireInv(b: Budget, s: Ledger, slot: Slot, claim: Claim)
    requires LedgerInv(b, s) && slot !in s.leases
    ensures LedgerInv(b, Acquire(b, s, slot, claim))
  {
    if TryAcquire(b, s, claim) == Admitted {
      GrantOwned(s, slot, claim);
      GrantBalanced(b, s, slot, claim);
    } else {
      SetLease(s, slot, NO_LEASE);
    }
  }

  /**
   Releasing a live lease always finds its id active and gives back exactly its claim, once;
   releasing any other lease changes nothing.
   */
  lemma ReleaseReturnsExactly(b: Budget, s: Ledger, slot: Slot)
    requires LedgerInv(b, s) && slot in s.leases
    ensures
      var (t, l) := (Release(s, slot), s.leases[slot]);
      if l.Live() then
        && l.claim.id in s.ids && t.ids == s.ids - {l.claim.id}
        && t.input == s.input - l.claim.input && t.output == s.output - l.claim.output
        && t.returned == s.returned + 1 && t.leases == s.leases[slot := NO_LEASE]
      else t == s
  {
    MapSumBounds(s.leases, LiveInput, slot);
    MapSumBounds(s.leases, LiveOutput, slot);
  }

  lemma ReleaseInv(b: Budget, s: Ledger, slot: Slot)
    requires LedgerInv(b, s) && slot in s.leases
    ensures LedgerInv(b, Release(s, slot)) && !Release(s, slot).leases[slot].Live()
  {
    ReleaseReturnsExactly(b, s, slot);
    SetLease(s, slot, NO_LEASE);
  }

  lemma TransferOwned(s: Ledger, dst: Slot, src: Slot)
    requires Owned(s) && src in s.leases && dst != src
    requires dst in s.leases ==> !s.leases[dst].Live()
    ensures Owned(Transfer(s, dst, src))
  {
  }

  lemma TransferBalanced(s: Ledger, dst: Slot, src: Slot)
    requires Owned(s) && Balanced(s) && src in s.leases && dst != src
    requires dst in s.leases ==> !s.leases[dst].Live()
    ensures Balanced(Transfer(s, dst, src))
  {
    var t := s.(leases := s.leases[src := NO_LEASE]);
    SetLease(s, src, NO_LEASE);
    SetLease(t, dst, s.leases[src]);
  }

  lemma TransferInv(b: Budget, s: Ledger, dst: Slot, src: Slot)
    requires LedgerInv(b, s) && src in s.leases && dst != src
    requires dst in s.leases ==> !s.leases[dst].Live()
    ensures LedgerInv(b, Transfer(s, dst, src))
  {
    TransferOwned(s, dst, src);
    TransferBalanced(s, dst, src);
  }

  lemma DestroyInv(b: Budget, s: Ledger, slot: Slot)
    requires LedgerInv(b, s) && slot in s.leases
    ensures LedgerInv(b, Destroy(s, slot))
  {
    ReleaseInv(b, s, slot);
    var t := Release(s, slot);
    MapSumDrop(t.leases, LiveInput, slot);
    MapSumDrop(t.leases, LiveOutput, slot);
    MapSumDrop(t.leases, LiveCount, slot);
  }

  // ---------- runs

  datatype LedgerOp =
    | OpAcquire(slot: Slot, claim: Claim)
    | OpMoveConstruct(slot: Slot, src: Slot)
    | OpMoveAssign(slot: Slot, src: Slot)
    | OpRelease(slot: Slot)
    | OpDestroy(slot: Slot)
    | OpOpen
    | OpShut

  /** Construction needs an unused slot and every other operation an existing lease; the rest is not C++. */
  function LedgerStep(b: Budget, s: Ledger, op: LedgerOp): Ledger {
    match op
    case OpAcquire(slot, claim) => if slot in s.leases then s else Acquire(b, s, slot, claim)
    case OpMoveConstruct(slot, src) => if slot in s.leases || src !in s.leases then s else Transfer(s, slot, src)
    case OpMoveAssign(slot, src) => if slot !in s.leases || src !in s.leases then s else MoveAssign(s, slot, src)
    case OpRelease(slot) => if slot !in s.leases then s else Release(s, slot)
    case OpDestroy(slot) => if slot !in s.leases then s else Destroy(s, slot)
    case OpOpen => Open(s).0
    case OpShut => Shut(s)
  }

  lemma LedgerStepInv(b: Budget, s: Ledger, op: LedgerOp)
    requires LedgerInv(b, s)
    ensures LedgerInv(b, LedgerStep(b, s, op))
  {
    match op
    case OpAcquire(slot, claim) => if slot !in s.leases { AcquireInv(b, s, slot, claim); }
    case OpMoveConstruct(slot, src) =>
      if slot !in s.leases && src in s.leases { TransferInv(b, s, slot, src); }
    case OpMoveAssign(slot, src) =>
      if slot in s.leases && src in s.leases && slot != src {
        ReleaseInv(b, s, slot);
        TransferInv(b, Release(s, slot), slot, src);
      }
    case OpRelease(slot) => if slot in s.leases { ReleaseInv(b, s, slot); }
    case OpDestroy(slot) => if slot in s.leases { DestroyInv(b, s, slot); }
    case _ =>
  }

  function LedgerRun(b: Budget, s: Ledger, ops: seq<LedgerOp>): Ledger {
    if |ops| == 0 then s else LedgerStep(b, LedgerRun(b, s, ops[..|ops| - 1]), ops[|ops| - 1])
  }

  /** In every run the ledger balances, one to one with the live leases, inside all three limits. */
  lemma {:induction false} Conservation(b: Budget, ops: seq<LedgerOp>)
    ensures LedgerInv(b, LedgerRun(b, EMPTY_LEDGER, ops))
  {
    if |ops| > 0 {
      Conservation(b, ops[..|ops| - 1]);
      LedgerStepInv(b, LedgerRun(b, EMPTY_LEDGER, ops[..|ops| - 1]), ops[|ops| - 1]);
    }
  }

  /** A claim is refused for lack of budget exactly when granting it would break a limit. */
  lemma AdmittedExactlyWhenItFits(b: Budget, s: Ledger, claim: Claim)
    requires WithinBudget(b, s) && s.accepting
    requires claim.id != 0 && claim.input > 0 && claim.output > 0
    ensures TryAcquire(b, s, claim) == Admitted <==>
      && claim.id !in s.ids
      && |s.ids| + 1 <= b.maxActive
      && s.input + claim.input <= b.maxInput
      && s.output + claim.output <= b.maxOutput
  {
    SubExact(b.maxInput, s.input);
    SubExact(b.maxOutput, s.output);
  }
}
