/**
 The runtime bridge's shared state: the handler thread, the request table, the records with
 their pumps, and the Submit messages still on their way. A `Story` is everything enqueued
 about an id since it was last asked for; the invariant ties every thread to these stories.
 */
module BridgeWork {
  import opened Messages
  import opened RequestModel
  import opened Bridge
  import E = EgressModel

  /** Where the handler thread is with the Submit it took; `ref` is the record it made. */
  datatype Handler =
    | Free
    | Deciding(x: Id)
    | Registering(x: Id, prompt: nat)
    | Inserting(x: Id, prompt: nat)
    | Clashing(x: Id)
    | Rejecting(x: Id)
    | Starting(x: Id, ref: nat)
    | Accepting(x: Id, ref: nat)
    | Opening(x: Id, ref: nat)

  /** What was enqueued about an id since it was last asked for, if it ever was. */
  datatype Story = Silent | Told(ms: seq<Message>)

  /** The conversation is over, or never began. */
  predicate Complete(t: Story) {
    t.Silent? || (|t.ms| > 0 && (t.ms[|t.ms| - 1].Rejected? || t.ms[|t.ms| - 1].Terminal?))
  }

  datatype Work = Work(uplink: seq<Id>, handler: Handler, records: seq<Record>, table: map<Id, nat>)

  const NEW_WORK := Work([], Free, [], map[])

  function SetRecord(k: Work, ref: nat, r: Record): Work
    requires ref < |k.records|
  {
    k.(records := k.records[ref := r])
  }

  /** The pump of `r` may still put something about its request into the egress. */
  predicate Speaks(r: Record) {
    || r.pump.Looping? || r.pump.Holding? || r.pump.Offering? || r.pump.Pressed?
    || (r.pump.AtGate? && r.allowed && !r.abandoned)
  }

  /** Nobody else has answered the Submit of `x`. */
  predicate Unanswered(k: Work, v: Id -> Story, x: Id) { v(x) == Told([]) && x !in k.uplink }

  predicate Holds(k: Work, x: Id, ref: nat) {
    ref < |k.records| && Owner(k.records[ref]) == x && x in k.table && k.table[x] == ref
  }

  /** A record whose pump is still behind the gate, or gave up there. */
  predicate Gated(r: Record) { (r.pump.AtGate? || r.pump.Done?) && !r.allowed && !r.terminalEnqueued }

  /** A record just made. */
  predicate Unstarted(r: Record) { r.pump.NotStarted? && !r.allowed && r.direct == 0 }

  predicate HandlerOk(k: Work, v: Id -> Story) {
    match k.handler
    case Free => true
    case Starting(x, ref) =>
      Unanswered(k, v, x) && Holds(k, x, ref) && Unstarted(k.records[ref])
    case Accepting(x, ref) => Unanswered(k, v, x) && Holds(k, x, ref) && Gated(k.records[ref])
    case Opening(x, ref) => v(x) == Told([Accepted(x)]) && Holds(k, x, ref) && Gated(k.records[ref])
    case _ => Unanswered(k, v, k.handler.x)
  }

  predicate UplinkOk(k: Work, v: Id -> Story) {
    && (forall i | 0 <= i < |k.uplink| :: v(k.uplink[i]) == Told([]))
    && (forall i, j | 0 <= i < j < |k.uplink| :: k.uplink[i] != k.uplink[j])
  }

  predicate TableOk(k: Work) {
    forall x | x in k.table :: Holds(k, x, k.table[x])
  }

  /** At most one record speaks for an id: the one in the table. It has said Accepted and what it forwarded. */
  predicate SpeakersOk(k: Work, v: Id -> Story) {
    forall i | 0 <= i < |k.records| && Speaks(k.records[i]) ::
      Holds(k, Owner(k.records[i]), i) && v(Owner(k.records[i])) == Told([Accepted(Owner(k.records[i]))] + k.records[i].forwarded)
  }

  predicate RecordsOk(l: Limits, rs: seq<Record>) {
    forall i | 0 <= i < |rs| :: RecordOk(l, rs[i])
  }

  predicate WorkOk(l: Limits, k: Work, v: Id -> Story) {
    HandlerOk(k, v) && UplinkOk(k, v) && TableOk(k) && SpeakersOk(k, v) && RecordsOk(l, k.records)
  }

  ghost predicate SameBut(v: Id -> Story, u: Id -> Story, x: Id) {
    forall y: Id | y != x :: u(y) == v(y)
  }

  ghost predicate Same(v: Id -> Story, u: Id -> Story) {
    forall y: Id :: u(y) == v(y)
  }

  lemma WorkSame(l: Limits, k: Work, v: Id -> Story, u: Id -> Story)
    requires WorkOk(l, k, v) && Same(v, u)
    ensures WorkOk(l, k, u)
  {
  }

  lemma SetRecords(l: Limits, rs: seq<Record>, ref: nat, r: Record)
    requires RecordsOk(l, rs) && ref < |rs| && RecordOk(l, r)
    ensures RecordsOk(l, rs[ref := r])
  {
  }

  // ---------- a record changes

  /** The handler is in the middle of setting up record `ref`. */
  predicate Handles(k: Work, ref: nat) {
    (k.handler.Starting? || k.handler.Accepting? || k.handler.Opening?) && k.handler.ref == ref
  }

  /** A step of one record that says nothing. */
  lemma QuietRecord(k: Work, v: Id -> Story, ref: nat, r: Record)
    requires HandlerOk(k, v) && UplinkOk(k, v) && TableOk(k) && SpeakersOk(k, v)
    requires ref < |k.records| && Owner(r) == Owner(k.records[ref])
    requires Speaks(r) ==> Speaks(k.records[ref]) && r.forwarded == k.records[ref].forwarded
    requires Handles(k, ref) && k.handler.Starting? ==> Unstarted(r)
    requires Handles(k, ref) && !k.handler.Starting? ==> Gated(r)
    ensures
      var j := SetRecord(k, ref, r);
      HandlerOk(j, v) && UplinkOk(j, v) && TableOk(j) && SpeakersOk(j, v)
  {
  }

  /** Only its own pump can go on with the story of a request whose record speaks. */
  lemma SpeakerIsAlone(k: Work, v: Id -> Story, ref: nat)
    requires HandlerOk(k, v) && UplinkOk(k, v) && SpeakersOk(k, v) && ref < |k.records| && Speaks(k.records[ref])
    ensures Owner(k.records[ref]) !in k.uplink
    ensures !k.handler.Free? ==> k.handler.x != Owner(k.records[ref])
    ensures forall i | 0 <= i < |k.records| && i != ref && Speaks(k.records[i]) :: Owner(k.records[i]) != Owner(k.records[ref])
  {
  }

  /** A speaking record puts something into the egress: the story of its id goes on and nobody else's. */
  lemma SpeakingRecord(k: Work, v: Id -> Story, u: Id -> Story, ref: nat, r: Record)
    requires HandlerOk(k, v) && UplinkOk(k, v) && TableOk(k) && SpeakersOk(k, v)
    requires ref < |k.records| && Speaks(k.records[ref]) && Owner(r) == Owner(k.records[ref])
    requires SameBut(v, u, Owner(r)) && (Speaks(r) ==> u(Owner(r)) == Told([Accepted(Owner(r))] + r.forwarded))
    ensures
      var j := SetRecord(k, ref, r);
      HandlerOk(j, u) && UplinkOk(j, u) && TableOk(j) && SpeakersOk(j, u)
  {
    SpeakerIsAlone(k, v, ref);
  }

  // ---------- the handler moves

  /** What a record has said so far does not end a conversation. */
  lemma SpokenIsOpen(l: Limits, r: Record)
    requires RecordOk(l, r)
    ensures !Complete(Told([Accepted(Owner(r))] + r.forwarded))
  {
    OnceOnly(l, r);
  }

  /** A client asks for an id whose conversation is over. */
  lemma AskedWork(l: Limits, k: Work, v: Id -> Story, u: Id -> Story, x: Id)
    requires WorkOk(l, k, v) && Complete(v(x)) && u(x) == Told([]) && SameBut(v, u, x)
    ensures WorkOk(l, k.(uplink := k.uplink + [x]), u)
  {
    assert x !in k.uplink;
    forall i | 0 <= i < |k.records| && Speaks(k.records[i]) ensures Owner(k.records[i]) != x {
      SpokenIsOpen(l, k.records[i]);
    }
  }

  lemma TakeWork(l: Limits, k: Work, v: Id -> Story)
    requires WorkOk(l, k, v) && k.handler.Free? && |k.uplink| > 0
    ensures WorkOk(l, k.(uplink := k.uplink[1..], handler := Deciding(k.uplink[0])), v)
  {
    var rest := k.uplink[1..];
    assert forall i | 0 <= i < |rest| :: rest[i] == k.uplink[i + 1];
    assert k.uplink[0] !in rest;
  }

  /** The handler goes on with the same Submit without answering it. */
  lemma MoveWork(l: Limits, k: Work, v: Id -> Story, h: Handler)
    requires WorkOk(l, k, v) && !k.handler.Free? && !k.handler.Opening?
    requires h.Registering? || h.Inserting? || h.Clashing? || h.Rejecting?
    requires h.x == k.handler.x
    ensures WorkOk(l, k.(handler := h), v)
  {
  }

  lemma InsertWork(l: Limits, k: Work, v: Id -> Story)
    requires WorkOk(l, k, v) && k.handler.Inserting? && k.handler.x !in k.table
    ensures
      var (x, ref) := (k.handler.x, |k.records|);
      WorkOk(l, Work(k.uplink, Starting(x, ref), k.records + [NewRecord(x, k.handler.prompt)], k.table[x := ref]), v)
  {
    var (x, ref, r) := (k.handler.x, |k.records|, NewRecord(k.handler.x, k.handler.prompt));
    NewRecordOk(l, x, k.handler.prompt);
    var j := Work(k.uplink, Starting(x, ref), k.records + [r], k.table[x := ref]);
    assert forall i | 0 <= i < |k.records| :: j.records[i] == k.records[i];
    assert TableOk(j);
    assert SpeakersOk(j, v);
  }

  /** The handler answers: the story of the id goes on and the handler is done with asking. */
  lemma AnswerWork(l: Limits, k: Work, v: Id -> Story, u: Id -> Story, h: Handler)
    requires WorkOk(l, k, v) && !k.handler.Free? && !k.handler.Opening? && SameBut(v, u, k.handler.x)
    requires h.Free? || (k.handler.Accepting? && h == Opening(k.handler.x, k.handler.ref) && u(k.handler.x) == Told([Accepted(k.handler.x)]))
    ensures WorkOk(l, k.(handler := h), u)
  {
    assert forall i | 0 <= i < |k.records| && Speaks(k.records[i]) :: Owner(k.records[i]) != k.handler.x;
    assert forall i | 0 <= i < |k.uplink| :: k.uplink[i] != k.handler.x;
  }

  lemma FreeWork(l: Limits, k: Work, v: Id -> Story)
    requires WorkOk(l, k, v)
    ensures WorkOk(l, k.(handler := Free), v)
  {
  }

  /** A record that does not speak leaves the table. */
  lemma DropWork(l: Limits, k: Work, v: Id -> Story, x: Id)
    requires WorkOk(l, k, v) && x in k.table && !Speaks(k.records[k.table[x]])
    requires k.handler.Free? || k.handler.Clashing?
    ensures WorkOk(l, k.(table := k.table - {x}), v)
  {
  }

  /** The gate opens: from here on the record speaks, unless it was abandoned. */
  lemma OpenWork(l: Limits, k: Work, v: Id -> Story)
    requires WorkOk(l, k, v) && k.handler.Opening?
    ensures
      var (ref, r) := (k.handler.ref, k.records[k.handler.ref]);
      WorkOk(l, SetRecord(k, ref, r.(allowed := true)).(handler := Free), v)
  {
    var (ref, r) := (k.handler.ref, k.records[k.handler.ref]);
    var j := SetRecord(k, ref, r.(allowed := true)).(handler := Free);
    assert RecordOk(l, r);
    assert RecordOk(l, r.(allowed := true));
    assert r.pump.AtGate? ==> |r.forwarded| == 0;
    assert SpeakersOk(j, v);
  }

  // ---------- the steps of a record that say nothing

  predicate Quiet(r: Record, q: Record) {
    && Owner(q) == Owner(r)
    && (Speaks(q) ==> Speaks(r) && q.forwarded == r.forwarded)
    && (Unstarted(r) ==> Unstarted(q))
    && (Gated(r) ==> Gated(q))
  }

  /** What can happen to a record without a word to the client. */
  datatype RecordOp =
    | OpGate
    | OpPop
    | OpCheck
    | OpPress
    | OpMark
    | OpEnd
    | OpExit
    | OpCancelRecord(saw: bool)
    | OpAbandon
    | OpBackend(op: PipeOp)

  /**
   `saw` is the value of `terminal_enqueued` that the canceller loaded some time before; the
   flag is never cleared. Pumps exit and records are abandoned only during shutdown.
   */
  function RecordStep(l: Limits, stopping: bool, r: Record, o: RecordOp): Record {
    match o
    case OpGate => PassGate(r)
    case OpPop => PopEvent(r).0
    case OpCheck => Check(r)
    case OpPress => Press(r)
    case OpMark => Mark(r)
    case OpEnd => End(r)
    case OpExit => if stopping then Exit(r) else r
    case OpCancelRecord(saw) => if saw && !r.terminalEnqueued then r else CancelRecord(r, saw)
    case OpAbandon => if stopping then r.(abandoned := true) else r
    case OpBackend(op) => if ByBackend(op) then Backend(l, r, op) else r
  }

  lemma RecordStepOk(l: Limits, stopping: bool, r: Record, o: RecordOp)
    requires RecordOk(l, r)
    ensures RecordOk(l, RecordStep(l, stopping, r, o))
  {
    match o
    case OpGate => GateOk(r);
    case OpPop => PopOk(l, r);
    case OpCheck => CheckOk(r);
    case OpPress => PressOk(r);
    case OpMark => MarkOk(r);
    case OpEnd => EndOk(r);
    case OpExit => EndOk(r);
    case OpCancelRecord(saw) => CancelOk(r, saw);
    case OpAbandon =>
    case OpBackend(op) => if ByBackend(op) { BackendOk(l, r, op); }
  }

  lemma QuietMoves(r: Record)
    ensures Quiet(r, PassGate(r)) && Quiet(r, Check(r)) && Quiet(r, Press(r))
  {
  }

  lemma QuietEnds(r: Record)
    ensures Quiet(r, Mark(r)) && Quiet(r, End(r)) && Quiet(r, Exit(r))
  {
  }

  lemma QuietPop(r: Record)
    ensures Quiet(r, PopEvent(r).0)
  {
  }

  lemma QuietFlags(r: Record, saw: bool)
    ensures Quiet(r, CancelRecord(r, saw)) && Quiet(r, r.(abandoned := true)) && Quiet(r, r)
  {
  }

  /** Unless the egress took it, an offered delta or Terminal leaves the story as it is. */
  lemma QuietRefusal(r: Record, code: E.EnqueueCode)
    requires !code.Enqueued?
    ensures Quiet(r, Offered(r, code)) && Quiet(r, Closed(r, code))
  {
  }

  lemma QuietBackend(l: Limits, r: Record, op: PipeOp)
    requires ByBackend(op)
    ensures Quiet(r, Backend(l, r, op))
  {
    BackendLog(l, r.pipe, op);
  }

  lemma RecordStepQuiet(l: Limits, stopping: bool, r: Record, o: RecordOp)
    ensures Quiet(r, RecordStep(l, stopping, r, o))
  {
    match o
    case OpGate => QuietMoves(r);
    case OpPop => QuietPop(r);
    case OpCheck => QuietMoves(r);
    case OpPress => QuietMoves(r);
    case OpMark => QuietEnds(r);
    case OpEnd => QuietEnds(r);
    case OpExit => QuietEnds(r); QuietFlags(r, false);
    case OpCancelRecord(saw) => QuietFlags(r, saw);
    case OpAbandon => QuietFlags(r, false);
    case OpBackend(op) => QuietFlags(r, false); if ByBackend(op) { QuietBackend(l, r, op); }
  }

  lemma QuietWork(l: Limits, k: Work, v: Id -> Story, ref: nat, q: Record)
    requires WorkOk(l, k, v) && ref < |k.records| && Quiet(k.records[ref], q) && RecordOk(l, q)
    ensures WorkOk(l, SetRecord(k, ref, q), v)
  {
    QuietRecord(k, v, ref, q);
    SetRecords(l, k.records, ref, q);
  }

  lemma SpeakingWork(l: Limits, k: Work, v: Id -> Story, u: Id -> Story, ref: nat, q: Record)
    requires WorkOk(l, k, v) && ref < |k.records| && Speaks(k.records[ref])
    requires Owner(q) == Owner(k.records[ref]) && RecordOk(l, q)
    requires SameBut(v, u, Owner(q)) && (Speaks(q) ==> u(Owner(q)) == Told([Accepted(Owner(q))] + q.forwarded))
    ensures WorkOk(l, SetRecord(k, ref, q), u)
  {
    SpeakingRecord(k, v, u, ref, q);
    SetRecords(l, k.records, ref, q);
  }

  /** The pump thread starts behind the closed gate. */
  lemma StartedWork(l: Limits, k: Work, v: Id -> Story)
    requires WorkOk(l, k, v) && k.handler.Starting?
    ensures
      var (x, ref) := (k.handler.x, k.handler.ref);
      WorkOk(l, SetRecord(k, ref, k.records[ref].(pump := AtGate)).(handler := Accepting(x, ref)), v)
  {
    var (x, ref, r) := (k.handler.x, k.handler.ref, k.records[k.handler.ref]);
    var q := r.(pump := AtGate);
    assert RecordOk(l, r);
    assert RecordOk(l, q);
    MoveWork(l, k, v, Clashing(x));
    var j := k.(handler := Clashing(x));
    QuietRecord(j, v, ref, q);
    SetRecords(l, k.records, ref, q);
    AnnounceWork(l, SetRecord(j, ref, q), v, ref);
  }

  /** The handler, about to answer a Submit, has a record for it waiting at the gate. */
  lemma AnnounceWork(l: Limits, k: Work, v: Id -> Story, ref: nat)
    requires WorkOk(l, k, v) && k.handler.Clashing? && Holds(k, k.handler.x, ref) && Gated(k.records[ref])
    ensures WorkOk(l, k.(handler := Accepting(k.handler.x, ref)), v)
  {
  }

  /** The pump thread could not be started: the record is withdrawn. */
  lemma UnstartedWork(l: Limits, k: Work, v: Id -> Story)
    requires WorkOk(l, k, v) && k.handler.Starting?
    ensures
      var (x, ref) := (k.handler.x, k.handler.ref);
      WorkOk(l, SetRecord(k, ref, Withdraw(k.records[ref])).(handler := Clashing(x), table := k.table - {x}), v)
  {
    var (x, ref, r) := (k.handler.x, k.handler.ref, k.records[k.handler.ref]);
    var j := k.(handler := Clashing(x));
    assert RecordOk(l, r);
    assert RecordOk(l, Withdraw(r));
    MoveWork(l, k, v, Clashing(x));
    QuietRecord(j, v, ref, Withdraw(r));
    SetRecords(l, k.records, ref, Withdraw(r));
    DropWork(l, SetRecord(j, ref, Withdraw(r)), v, x);
  }

  /** The handler gives up on a record it could not announce. */
  lemma AbandonedWork(l: Limits, k: Work, v: Id -> Story, ref: nat)
    requires WorkOk(l, k, v) && ref < |k.records|
    ensures WorkOk(l, SetRecord(k, ref, k.records[ref].(abandoned := true)).(handler := Free), v)
  {
    var q := k.records[ref].(abandoned := true);
    assert RecordOk(l, k.records[ref]);
    assert RecordOk(l, q);
    QuietFlags(k.records[ref], false);
    QuietWork(l, k, v, ref, q);
    FreeWork(l, SetRecord(k, ref, q), v);
  }
}
