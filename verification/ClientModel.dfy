/**
 The Python generation client as a value. Every block the code runs under its state lock is
 one step; putting a Terminal into an event buffer happens outside that lock and is a step
 of its own, and so is each thing a caller of `submit` or a reader of a handle does.
 */
module ClientModel {
  import opened Messages
  import opened RequestModel

  datatype RawSettings = RawSettings(capacity: nat, maxDeltas: nat)

  /** Limits the constructor accepts. */
  type Settings = k: RawSettings | k.capacity > 0 && k.maxDeltas > 0 witness RawSettings(1, 1)

  datatype Buffer = Buffer(deltas: seq<Message>, terminal: Option<Message>, delivered: bool, overflowed: bool)

  /** Where the thread inside `submit` is: its handle is out once it has Returned. */
  datatype Submitter = Sending | Awaiting | Returned | Gone

  /**
   One `_RequestState` with its event buffer. `cancels` counts the Cancel messages sent for
   it and `got` lists the events its handle has returned.
   */
  datatype Entry = Entry(
    id: Id,
    accepted: bool,
    rejected: bool,
    failed: bool,
    nextSeq: nat,
    terminalReceived: bool,
    cancelSent: bool,
    cancels: nat,
    submitter: Submitter,
    buffer: Buffer,
    got: seq<Message>)

  /**
   `entries` holds every request state ever made and `requests` the active ones by id.
   `owed` are the Terminals taken out of `requests` but not yet put into their buffer.
   */
  datatype Client = Client(
    connected: bool,
    entries: seq<Entry>,
    requests: map<Id, nat>,
    owed: map<nat, Message>)

  const NEW_CLIENT := Client(false, [], map[], map[])

  function NewEntry(x: Id): Entry {
    Entry(x, false, false, false, 0, false, false, 0, Sending, Buffer([], None, false, false), [])
  }

  // ---------- event buffer

  function PutDelta(k: Settings, b: Buffer, d: Message): (r: (Buffer, bool)) {
    if b.terminal.Some? then (b, false)
    else if |b.deltas| >= k.maxDeltas then (b.(overflowed := true), false)
    else (b.(deltas := b.deltas + [d]), true)
  }

  function PutTerminal(b: Buffer, t: Message): (r: (Buffer, bool)) {
    if b.terminal.Some? then (b, false) else (b.(terminal := Some(t)), true)
  }

  datatype Next = Got(msg: Message) | Waiting | Exhausted

  function Get(b: Buffer): (r: (Buffer, Next)) {
    if |b.deltas| > 0 then (b.(deltas := b.deltas[1..]), Got(b.deltas[0]))
    else if b.terminal.None? then (b, Waiting)
    else if b.delivered then (b, Exhausted)
    else (b.(delivered := true), Got(b.terminal.value))
  }

  // ---------- client

  datatype Verdict = Fine | Violation | NotConnected

  predicate Listed(c: Client, i: nat) {
    i < |c.entries| && c.entries[i].id in c.requests && c.requests[c.entries[i].id] == i
  }

  function Update(c: Client, i: nat, e: Entry): Client
    requires i < |c.entries|
  {
    c.(entries := c.entries[i := e])
  }

  function Connect(c: Client): Client { c.(connected := true) }

  /** The first block of `submit`: None when it raises. */
  function Submit(k: Settings, c: Client, x: Id): (r: (Client, Option<nat>)) {
    if !c.connected || x in c.requests || |c.requests| >= k.capacity then (c, None)
    else (c.(entries := c.entries + [NewEntry(x)], requests := c.requests[x := |c.entries|]), Some(|c.entries|))
  }

  function SendDone(c: Client, i: nat): Client {
    if i < |c.entries| && c.entries[i].submitter.Sending? then Update(c, i, c.entries[i].(submitter := Awaiting)) else c
  }

  /** The send raised: whatever is active under this id is dropped. */
  function SendFailed(c: Client, i: nat): Client {
    if i < |c.entries| && c.entries[i].submitter.Sending?
    then Update(c, i, c.entries[i].(submitter := Gone)).(requests := c.requests - {c.entries[i].id})
    else c
  }

  /** The last block of `submit`; giving up on a silent worker is followed by `Fail`. */
  function Conclude(c: Client, i: nat): Client {
    if i < |c.entries| && c.entries[i].submitter.Awaiting?
    then Update(c, i, c.entries[i].(submitter := if c.entries[i].accepted then Returned else Gone))
    else c
  }

  /** Marks a Cancel as sent, unless one was sent before. */
  function Cancelled(e: Entry): Entry {
    if e.cancelSent then e else e.(cancelSent := true, cancels := e.cancels + 1)
  }

  function CancelRequest(c: Client, x: Id): (r: (Client, bool)) {
    if !c.connected || x !in c.requests || c.requests[x] >= |c.entries| then (c, false)
    else
      var i := c.requests[x];
      if !c.entries[i].accepted || c.entries[i].terminalReceived then (c, false)
      else (Update(c, i, Cancelled(c.entries[i])), true)
  }

  /** A delta for an entry that expects it: buffered, or, when the buffer is full, dropped and cancelled. */
  function TakeDelta(k: Settings, e: Entry, d: Message): Entry {
    var (b, kept) := PutDelta(k, e.buffer, d);
    var f := e.(nextSeq := e.nextSeq + 1, buffer := b);
    if kept then f else Cancelled(f)
  }

  function Dispatch(k: Settings, c: Client, m: Message): (r: (Client, Verdict)) {
    if !c.connected then (c, NotConnected)
    else if m.Stats? then (c, Fine)
    else if !(m.Accepted? || m.Rejected? || m.Delta? || m.Terminal?) then (c, Violation)
    else if m.id !in c.requests || c.requests[m.id] >= |c.entries| then (c, Violation)
    else
      var i := c.requests[m.id];
      var e := c.entries[i];
      if m.Accepted? then
        if e.accepted || e.rejected then (c, Violation) else (Update(c, i, e.(accepted := true)), Fine)
      else if m.Rejected? then
        if e.accepted then (c, Violation)
        else (Update(c, i, e.(rejected := true)).(requests := c.requests - {m.id}), Fine)
      else if !e.accepted || e.terminalReceived then (c, Violation)
      else if m.Delta? then
        if m.seqNo != e.nextSeq then (c, Violation) else (Update(c, i, TakeDelta(k, e, m)), Fine)
      else
        (Update(c, i, e.(terminalReceived := true)).(requests := c.requests - {m.id}, owed := c.owed[i := m]), Fine)
  }

  /** Puts an owed Terminal into its buffer; false when the buffer already had one. */
  function Deliver(c: Client, i: nat): (r: (Client, bool)) {
    if i !in c.owed || i >= |c.entries| then (c, true)
    else
      var (b, ok) := PutTerminal(c.entries[i].buffer, c.owed[i]);
      (Update(c, i, c.entries[i].(buffer := b)).(owed := c.owed - {i}), ok)
  }

  function Synthesized(x: Id): Message { Terminal(x, Unavailable, None, Usage(0, 0)) }

  /** A disconnect owes entry `i` a synthesized Terminal. */
  predicate Failing(c: Client, i: nat) {
    Listed(c, i) && c.entries[i].accepted && !c.entries[i].terminalReceived
  }

  function LastWords(c: Client): map<nat, Message> {
    map i: nat | 0 <= i < |c.entries| && Failing(c, i) :: Synthesized(c.entries[i].id)
  }

  /** Disconnects: every active request fails, and each accepted one is owed a synthesized Terminal. */
  function Fail(c: Client): Client {
    Client(
      false,
      seq(|c.entries|, i requires 0 <= i < |c.entries| =>
        if Listed(c, i) then c.entries[i].(failed := true) else c.entries[i]),
      map[],
      c.owed + LastWords(c))
  }

  /** The entry after its handle was asked for an event. */
  function Served(e: Entry): Entry {
    var (b, n) := Get(e.buffer);
    e.(buffer := b, got := if n.Got? then e.got + [n.msg] else e.got)
  }

  function Read(c: Client, i: nat): (r: (Client, Next)) {
    if i >= |c.entries| then (c, Waiting)
    else (Update(c, i, Served(c.entries[i])), Get(c.entries[i].buffer).1)
  }

  // ---------- runs

  datatype Op =
    | OpConnect
    | OpSubmit(id: Id)
    | OpSendDone(i: nat)
    | OpSendFailed(i: nat)
    | OpConclude(i: nat)
    | OpCancel(id: Id)
    | OpDispatch(msg: Message)
    | OpDeliver(i: nat)
    | OpFail
    | OpRead(i: nat)

  function Step(k: Settings, c: Client, op: Op): Client {
    match op
    case OpConnect => Connect(c)
    case OpSubmit(x) => Submit(k, c, x).0
    case OpSendDone(i) => SendDone(c, i)
    case OpSendFailed(i) => SendFailed(c, i)
    case OpConclude(i) => Conclude(c, i)
    case OpCancel(x) => CancelRequest(c, x).0
    case OpDispatch(m) => Dispatch(k, c, m).0
    case OpDeliver(i) => Deliver(c, i).0
    case OpFail => Fail(c)
    case OpRead(i) => Read(c, i).0
  }

  function Run(k: Settings, ops: seq<Op>): Client {
    if |ops| == 0 then NEW_CLIENT else Step(k, Run(k, ops[..|ops| - 1]), ops[|ops| - 1])
  }

  // ---------- one entry

  /** Deltas of `id` in strictly increasing order, all numbered below `bound`. */
  predicate Increasing(id: Id, ds: seq<Message>, bound: nat) {
    && (forall i | 0 <= i < |ds| :: ds[i].Delta? && ds[i].id == id && ds[i].seqNo < bound)
    && (forall i, j | 0 <= i < j < |ds| && ds[i].Delta? && ds[j].Delta? :: ds[i].seqNo < ds[j].seqNo)
  }

  /** The deltas the handle has returned, then those still buffered. */
  function Kept(e: Entry): seq<Message> { DeltasOf(e.got) + e.buffer.deltas }

  predicate EntryOk(k: Settings, e: Entry) {
    && Increasing(e.id, Kept(e), e.nextSeq)
    && (!e.buffer.overflowed ==> |Kept(e)| == e.nextSeq)
    && |e.buffer.deltas| <= k.maxDeltas
    && (e.buffer.terminal.Some? ==> e.buffer.terminal.value.Terminal? && e.buffer.terminal.value.id == e.id)
    && (e.buffer.delivered ==> e.buffer.terminal.Some? && |e.buffer.deltas| == 0)
    && (Ended(e.got) <==> e.buffer.delivered)
    && (Ended(e.got) ==> e.buffer.terminal == Some(e.got[|e.got| - 1]))
    && e.cancels == (if e.cancelSent then 1 else 0)
    && (e.buffer.overflowed ==> e.cancelSent)
    && (e.buffer.terminal.Some? || e.submitter.Returned? || e.nextSeq > 0 ==> e.accepted)
  }

  lemma KeptDelta(k: Settings, e: Entry, d: Message)
    requires EntryOk(k, e) && e.accepted && e.buffer.terminal.None?
    requires d.Delta? && d.id == e.id && d.seqNo == e.nextSeq
    ensures EntryOk(k, TakeDelta(k, e, d))
  {
    if |e.buffer.deltas| < k.maxDeltas {
      assert DeltasOf(e.got) + (e.buffer.deltas + [d]) == Kept(e) + [d];
    }
  }

  lemma ServedKept(k: Settings, e: Entry)
    requires EntryOk(k, e)
    ensures Kept(Served(e)) == Kept(e)
    ensures |e.buffer.deltas| > 0 ==> e.buffer.deltas[0].Delta? && !Ended(e.got)
  {
    if |e.buffer.deltas| > 0 {
      var d := e.buffer.deltas[0];
      assert !Ended(e.got);
      assert Kept(e)[|e.got|] == d;
      assert (e.got + [d]) + e.buffer.deltas[1..] == e.got + e.buffer.deltas;
    } else if e.buffer.terminal.Some? && !e.buffer.delivered {
      assert (e.got + [e.buffer.terminal.value])[..|e.got|] == e.got;
    }
  }

  lemma ServedOk(k: Settings, e: Entry)
    requires EntryOk(k, e)
    ensures EntryOk(k, Served(e))
  {
    assert Kept(Served(e)) == Kept(e) by { ServedKept(k, e); }
    if |e.buffer.deltas| > 0 {
      assert e.buffer.deltas[0].Delta? && !Ended(e.got) by { ServedKept(k, e); }
      assert !Ended(Served(e).got) && !Served(e).buffer.delivered;
    } else if e.buffer.terminal.Some? && !e.buffer.delivered {
      assert Ended(Served(e).got);
    } else {
      assert Served(e) == e;
    }
  }

  /** Increasing and as many as there are numbers below the bound: numbered without a gap. */
  lemma {:induction false} NoGaps(id: Id, ds: seq<Message>, bound: nat, i: nat)
    requires Increasing(id, ds, bound) && i < |ds|
    ensures i <= ds[i].seqNo <= bound - (|ds| - i)
    decreases |ds| - i
  {
    AtLeast(id, ds, bound, i);
    if i + 1 < |ds| { NoGaps(id, ds, bound, i + 1); }
  }

  lemma {:induction false} AtLeast(id: Id, ds: seq<Message>, bound: nat, i: nat)
    requires Increasing(id, ds, bound) && i < |ds|
    ensures i <= ds[i].seqNo
  {
    if i > 0 { AtLeast(id, ds, bound, i - 1); }
  }

  // ---------- the whole client

  /** Nothing has ended this request yet. */
  predicate Active(e: Entry) {
    !e.rejected && !e.failed && !e.terminalReceived && e.buffer.terminal.None?
  }

  ghost predicate TableOk(c: Client) {
    forall x | x in c.requests ::
      && c.requests[x] < |c.entries| && c.entries[c.requests[x]].id == x
      && Active(c.entries[c.requests[x]]) && c.requests[x] !in c.owed
  }

  predicate MayGet(e: Entry, t: Message) {
    e.accepted && e.buffer.terminal.None? && t.Terminal? && t.id == e.id
  }

  ghost predicate OwedOk(c: Client) {
    forall i | i in c.owed :: i < |c.entries| && MayGet(c.entries[i], c.owed[i])
  }

  ghost predicate EntriesOk(k: Settings, es: seq<Entry>) {
    forall i | 0 <= i < |es| :: EntryOk(k, es[i])
  }

  ghost predicate Inv(k: Settings, c: Client) {
    && TableOk(c) && OwedOk(c) && EntriesOk(k, c.entries)
    && (!c.connected ==> |c.requests| == 0)
  }

  /** Nobody has answered the Submit of this request, and no disconnect has failed it. */
  predicate Unanswered(e: Entry) { !e.accepted && !e.rejected && !e.failed }

  /** A request whose caller is still there, without an answer, or accepted and without a Terminal. */
  predicate Wanting(e: Entry) {
    !e.submitter.Gone? && e.buffer.terminal.None? && (e.accepted || Unanswered(e))
  }

  /** Every such request is active or owed its Terminal. */
  ghost predicate Accounted(c: Client) {
    forall i | 0 <= i < |c.entries| && Wanting(c.entries[i]) :: Listed(c, i) || i in c.owed
  }

  lemma UpdateTable(c: Client, i: nat, f: Entry)
    requires TableOk(c) && OwedOk(c) && i < |c.entries| && f.id == c.entries[i].id
    requires Listed(c, i) ==> Active(f)
    requires i in c.owed ==> MayGet(f, c.owed[i])
    ensures TableOk(Update(c, i, f)) && OwedOk(Update(c, i, f))
  {
  }

  lemma UpdateEntries(k: Settings, es: seq<Entry>, i: nat, f: Entry)
    requires EntriesOk(k, es) && i < |es| && EntryOk(k, f)
    ensures EntriesOk(k, es[i := f])
  {
  }

  lemma UpdateInv(k: Settings, c: Client, i: nat, f: Entry)
    requires Inv(k, c) && i < |c.entries| && f.id == c.entries[i].id && EntryOk(k, f)
    requires Listed(c, i) ==> Active(f)
    requires i in c.owed ==> MayGet(f, c.owed[i])
    ensures Inv(k, Update(c, i, f))
  {
    UpdateTable(c, i, f);
    UpdateEntries(k, c.entries, i, f);
  }

  lemma UpdateAccounted(c: Client, i: nat, f: Entry)
    requires Accounted(c) && i < |c.entries| && f.id == c.entries[i].id
    requires Wanting(f) ==> Listed(c, i) || i in c.owed
    ensures Accounted(Update(c, i, f))
  {
  }

  lemma DropInv(k: Settings, c: Client, x: Id)
    requires Inv(k, c)
    ensures Inv(k, c.(requests := c.requests - {x}))
  {
  }

  lemma OweInv(k: Settings, c: Client, i: nat, t: Message)
    requires Inv(k, c) && i < |c.entries| && !Listed(c, i) && MayGet(c.entries[i], t)
    ensures Inv(k, c.(owed := c.owed[i := t]))
  {
  }

  lemma SettleInv(k: Settings, c: Client, i: nat)
    requires Inv(k, c)
    ensures Inv(k, c.(owed := c.owed - {i}))
  {
  }

  // ---------- every step keeps the invariant

  lemma SubmitTable(k: Settings, c: Client, x: Id)
    requires TableOk(c) && OwedOk(c)
    ensures TableOk(Submit(k, c, x).0) && OwedOk(Submit(k, c, x).0)
  {
    assert |c.entries| !in c.owed;
  }

  lemma SubmitEntries(k: Settings, es: seq<Entry>, x: Id)
    requires EntriesOk(k, es)
    ensures EntriesOk(k, es + [NewEntry(x)])
  {
    assert EntryOk(k, NewEntry(x));
  }

  lemma SubmitInv(k: Settings, c: Client, x: Id)
    requires Inv(k, c)
    ensures Inv(k, Submit(k, c, x).0)
  {
    SubmitTable(k, c, x);
    SubmitEntries(k, c.entries, x);
  }

  lemma SubmitAccounted(k: Settings, c: Client, x: Id)
    requires TableOk(c) && Accounted(c)
    ensures Accounted(Submit(k, c, x).0)
  {
    var d := Submit(k, c, x).0;
    forall i | 0 <= i < |d.entries| && Wanting(d.entries[i]) ensures Listed(d, i) || i in d.owed {
      if i < |c.entries| {
        assert d.entries[i] == c.entries[i] && (Listed(c, i) ==> Listed(d, i));
      }
    }
  }

  lemma DispatchInv(k: Settings, c: Client, m: Message)
    requires Inv(k, c)
    ensures Inv(k, Dispatch(k, c, m).0)
  {
    if Dispatch(k, c, m).1.Fine? && !m.Stats? {
      var i := c.requests[m.id];
      var e := c.entries[i];
      if m.Accepted? {
        UpdateInv(k, c, i, e.(accepted := true));
      } else if m.Delta? {
        KeptDelta(k, e, m);
        UpdateInv(k, c, i, TakeDelta(k, e, m));
      } else {
        var c0 := c.(requests := c.requests - {m.id});
        DropInv(k, c, m.id);
        if m.Rejected? {
          UpdateInv(k, c0, i, e.(rejected := true));
        } else {
          UpdateInv(k, c0, i, e.(terminalReceived := true));
          OweInv(k, Update(c0, i, e.(terminalReceived := true)), i, m);
        }
      }
    }
  }

  /** Taking a request off the table is fine once it no longer wants a Terminal or is owed one. */
  lemma DropAccounted(c: Client, i: nat)
    requires Accounted(c) && Listed(c, i) && (Wanting(c.entries[i]) ==> i in c.owed)
    ensures Accounted(c.(requests := c.requests - {c.entries[i].id}))
  {
    var d := c.(requests := c.requests - {c.entries[i].id});
    forall j | 0 <= j < |d.entries| && Wanting(d.entries[j]) ensures Listed(d, j) || j in d.owed {
      assert j != i ==> (Listed(c, j) ==> c.entries[j].id != c.entries[i].id);
    }
  }

  lemma DispatchAccounted(k: Settings, c: Client, m: Message)
    requires TableOk(c) && Accounted(c)
    ensures Accounted(Dispatch(k, c, m).0)
  {
    if Dispatch(k, c, m).1.Fine? && !m.Stats? {
      var i := c.requests[m.id];
      var e := c.entries[i];
      if m.Accepted? {
        UpdateAccounted(c, i, e.(accepted := true));
      } else if m.Delta? {
        UpdateAccounted(c, i, TakeDelta(k, e, m));
      } else if m.Rejected? {
        UpdateAccounted(c, i, e.(rejected := true));
        DropAccounted(Update(c, i, e.(rejected := true)), i);
      } else {
        UpdateAccounted(c, i, e.(terminalReceived := true));
        var d := Update(c, i, e.(terminalReceived := true));
        DropAccounted(d.(owed := c.owed[i := m]), i);
      }
    }
  }

  lemma FailEntries(k: Settings, c: Client)
    requires EntriesOk(k, c.entries)
    ensures EntriesOk(k, Fail(c).entries)
  {
    forall i | 0 <= i < |c.entries| ensures EntryOk(k, Fail(c).entries[i]) {
      FailedOk(k, c.entries[i]);
    }
  }

  lemma FailedOk(k: Settings, e: Entry)
    requires EntryOk(k, e)
    ensures EntryOk(k, e.(failed := true))
  {
  }

  lemma FailTable(c: Client)
    requires TableOk(c) && OwedOk(c)
    ensures TableOk(Fail(c)) && OwedOk(Fail(c))
  {
    var d := Fail(c);
    forall i | i in d.owed ensures i < |d.entries| && MayGet(d.entries[i], d.owed[i]) {
      if i in c.owed { assert MayGet(c.entries[i], c.owed[i]); }
    }
  }

  lemma FailInv(k: Settings, c: Client)
    requires Inv(k, c)
    ensures Inv(k, Fail(c))
  {
    FailEntries(k, c);
    FailTable(c);
  }

  /** Whatever the table still listed is owed a Terminal now. */
  lemma FailAccounted(c: Client)
    requires TableOk(c) && Accounted(c)
    ensures Accounted(Fail(c))
  {
    forall i | 0 <= i < |c.entries| && Wanting(Fail(c).entries[i]) ensures i in Fail(c).owed {
      assert Wanting(c.entries[i]);
    }
  }

  /** The entry after the Terminal `t` was put into its buffer. */
  function Finished(e: Entry, t: Message): Entry { e.(buffer := e.buffer.(terminal := Some(t))) }

  lemma FinishedOk(k: Settings, e: Entry, t: Message)
    requires EntryOk(k, e) && MayGet(e, t)
    ensures EntryOk(k, Finished(e, t))
  {
  }

  /** An owed Terminal always finds its buffer empty: no duplicate Terminal is ever reported. */
  lemma DeliverInv(k: Settings, c: Client, i: nat)
    requires Inv(k, c)
    ensures Inv(k, Deliver(c, i).0) && Deliver(c, i).1
  {
    if i in c.owed {
      var f := Finished(c.entries[i], c.owed[i]);
      assert !Listed(c, i);
      SettleInv(k, c, i);
      FinishedOk(k, c.entries[i], c.owed[i]);
      UpdateInv(k, c.(owed := c.owed - {i}), i, f);
      assert Deliver(c, i).0 == Update(c.(owed := c.owed - {i}), i, f);
    }
  }

  lemma DeliverAccounted(c: Client, i: nat)
    requires OwedOk(c) && Accounted(c)
    ensures Accounted(Deliver(c, i).0)
  {
    var d := Deliver(c, i).0;
    forall j | 0 <= j < |d.entries| && Wanting(d.entries[j]) ensures Listed(d, j) || j in d.owed {
      if j != i { assert Wanting(c.entries[j]); }
    }
  }

  lemma ServedInv(k: Settings, c: Client, i: nat)
    requires Inv(k, c)
    ensures Inv(k, Read(c, i).0)
  {
    if i < |c.entries| {
      ServedOk(k, c.entries[i]);
      UpdateInv(k, c, i, Served(c.entries[i]));
    }
  }

  lemma StepInv(k: Settings, c: Client, op: Op)
    requires Inv(k, c)
    ensures Inv(k, Step(k, c, op))
  {
    match op
    case OpSubmit(x) => SubmitInv(k, c, x);
    case OpSendFailed(i) => SendFailedInv(k, c, i);
    case OpSendDone(i) => SubmitterInv(k, c, i, Awaiting);
    case OpConclude(i) =>
      if i < |c.entries| { SubmitterInv(k, c, i, if c.entries[i].accepted then Returned else Gone); }
    case OpCancel(x) => CancelInv(k, c, x);
    case OpDispatch(m) => DispatchInv(k, c, m);
    case OpDeliver(i) => DeliverInv(k, c, i);
    case OpFail => FailInv(k, c);
    case OpRead(i) => ServedInv(k, c, i);
    case OpConnect =>
  }

  lemma SubmitterInv(k: Settings, c: Client, i: nat, w: Submitter)
    requires Inv(k, c) && (i < |c.entries| && w.Returned? ==> c.entries[i].accepted)
    ensures i < |c.entries| ==> Inv(k, Update(c, i, c.entries[i].(submitter := w)))
  {
    if i < |c.entries| { UpdateInv(k, c, i, c.entries[i].(submitter := w)); }
  }

  lemma SendFailedInv(k: Settings, c: Client, i: nat)
    requires Inv(k, c)
    ensures Inv(k, SendFailed(c, i))
  {
    if i < |c.entries| && c.entries[i].submitter.Sending? {
      var f := c.entries[i].(submitter := Gone);
      DropInv(k, c, c.entries[i].id);
      UpdateInv(k, c.(requests := c.requests - {c.entries[i].id}), i, f);
    }
  }

  lemma CancelInv(k: Settings, c: Client, x: Id)
    requires Inv(k, c)
    ensures Inv(k, CancelRequest(c, x).0)
  {
    if CancelRequest(c, x).1 { UpdateInv(k, c, c.requests[x], Cancelled(c.entries[c.requests[x]])); }
  }

  lemma {:induction false} RunInv(k: Settings, ops: seq<Op>)
    ensures Inv(k, Run(k, ops))
  {
    if |ops| > 0 {
      RunInv(k, ops[..|ops| - 1]);
      StepInv(k, Run(k, ops[..|ops| - 1]), ops[|ops| - 1]);
    }
  }

  // ---------- what a handle sees

  /** What the handle of `e` has returned: deltas in increasing order, then at most one Terminal, last. */
  predicate InOrder(e: Entry) {
    && Increasing(e.id, DeltasOf(e.got), e.nextSeq)
    && (!e.buffer.overflowed ==> Numbers(DeltasOf(e.got)))
    && (Ended(e.got) ==> e.buffer.terminal == Some(e.got[|e.got| - 1]) && Get(e.buffer).1.Exhausted?)
  }

  lemma EntryInOrder(k: Settings, e: Entry)
    requires EntryOk(k, e)
    ensures InOrder(e)
  {
    assert forall j | 0 <= j < |DeltasOf(e.got)| :: DeltasOf(e.got)[j] == Kept(e)[j];
    if !e.buffer.overflowed {
      forall j | 0 <= j < |DeltasOf(e.got)| ensures DeltasOf(e.got)[j].Delta? && DeltasOf(e.got)[j].seqNo == j {
        NoGaps(e.id, Kept(e), e.nextSeq, j);
      }
    }
  }

  /**
   In every run: a handle exists only for an accepted request; its events are deltas in
   increasing order, without a gap unless its buffer overflowed, then at most one Terminal,
   which comes last; at most one Cancel is sent; and no Terminal is ever put twice.
   */
  lemma HandleEvents(k: Settings, ops: seq<Op>, i: nat)
    requires i < |Run(k, ops).entries|
    ensures
      var e := Run(k, ops).entries[i];
      && (e.submitter.Returned? ==> e.accepted)
      && InOrder(e)
      && e.cancels <= 1
      && Deliver(Run(k, ops), i).1
  {
    RunInv(k, ops);
    DeliverInv(k, Run(k, ops), i);
    assert EntryOk(k, Run(k, ops).entries[i]);
    EntryInOrder(k, Run(k, ops).entries[i]);
  }

  /** Deltas numbered 0, 1, 2, ... */
  predicate Numbers(ds: seq<Message>) {
    forall j | 0 <= j < |ds| :: ds[j].Delta? && ds[j].seqNo == j
  }

  // ---------- who gets an answer and a Terminal

  /** A failed send drops another caller's request, accepted or not, active under the same id. */
  predicate ForeignPop(c: Client, op: Op) {
    && op.OpSendFailed? && op.i < |c.entries| && c.entries[op.i].submitter.Sending?
    && c.entries[op.i].id in c.requests
    && c.requests[c.entries[op.i].id] != op.i && c.requests[c.entries[op.i].id] < |c.entries|
    && Wanting(c.entries[c.requests[c.entries[op.i].id]])
  }

  /** Nothing will ever answer entry `i` or put a Terminal into its buffer. */
  predicate Stranded(c: Client, i: nat) {
    && i < |c.entries| && !Listed(c, i) && i !in c.owed
    && c.entries[i].buffer.terminal.None? && (c.entries[i].accepted || Unanswered(c.entries[i]))
  }

  lemma PopAccounted(k: Settings, c: Client, i: nat)
    requires TableOk(c) && Accounted(c) && i < |c.entries| && c.entries[i].submitter.Sending?
    ensures !ForeignPop(c, OpSendFailed(i)) ==> Accounted(SendFailed(c, i))
  {
    var (d, x) := (SendFailed(c, i), c.entries[i].id);
    forall j | 0 <= j < |d.entries| && Wanting(d.entries[j]) && !ForeignPop(c, OpSendFailed(i))
      ensures Listed(d, j) || j in d.owed
    {
      assert j != i && d.entries[j] == c.entries[j];
      assert Listed(c, j) ==> c.entries[j].id != x;
    }
  }

  lemma PopStrands(k: Settings, c: Client, op: Op)
    requires TableOk(c) && ForeignPop(c, op)
    ensures Stranded(Step(k, c, op), c.requests[c.entries[op.i].id])
    ensures !Accounted(Step(k, c, op))
  {
    var (d, j) := (Step(k, c, op), c.requests[c.entries[op.i].id]);
    assert d.entries[j] == c.entries[j] && !Listed(d, j) && j !in d.owed;
  }

  /** A step keeps every wanting request accounted for exactly when it is not a foreign pop. */
  lemma StepAccounted(k: Settings, c: Client, op: Op)
    requires Inv(k, c) && Accounted(c)
    ensures Accounted(Step(k, c, op)) <==> !ForeignPop(c, op)
  {
    match op
    case OpSubmit(x) => SubmitAccounted(k, c, x);
    case OpSendFailed(i) =>
      if i < |c.entries| && c.entries[i].submitter.Sending? {
        PopAccounted(k, c, i);
        if ForeignPop(c, op) { PopStrands(k, c, op); }
      }
    case OpSendDone(i) => if i < |c.entries| { UpdateAccounted(c, i, SendDone(c, i).entries[i]); }
    case OpConclude(i) => if i < |c.entries| { UpdateAccounted(c, i, Conclude(c, i).entries[i]); }
    case OpCancel(x) =>
      if CancelRequest(c, x).1 { UpdateAccounted(c, c.requests[x], Cancelled(c.entries[c.requests[x]])); }
    case OpDispatch(m) => DispatchAccounted(k, c, m);
    case OpDeliver(i) => DeliverAccounted(c, i);
    case OpFail => FailAccounted(c);
    case OpRead(i) => if i < |c.entries| { UpdateAccounted(c, i, Served(c.entries[i])); }
    case OpConnect =>
  }

  predicate NoForeignPop(k: Settings, ops: seq<Op>) {
    |ops| == 0 || (NoForeignPop(k, ops[..|ops| - 1]) && !ForeignPop(Run(k, ops[..|ops| - 1]), ops[|ops| - 1]))
  }

  /** No request was left without a way to its answer and its Terminal at any point of the run. */
  ghost predicate AlwaysAccounted(k: Settings, ops: seq<Op>) {
    Accounted(Run(k, ops)) && (|ops| == 0 || AlwaysAccounted(k, ops[..|ops| - 1]))
  }

  lemma {:induction false} AccountedExactly(k: Settings, ops: seq<Op>)
    ensures AlwaysAccounted(k, ops) <==> NoForeignPop(k, ops)
  {
    if |ops| > 0 {
      var before := ops[..|ops| - 1];
      AccountedExactly(k, before);
      RunInv(k, before);
      if NoForeignPop(k, before) {
        StepAccounted(k, Run(k, before), ops[|ops| - 1]);
      }
    }
  }

  /** How many of the three places a Terminal can be in, or be on its way from, hold for entry `i`. */
  function Places(c: Client, i: nat): nat
    requires i < |c.entries|
  {
    (if Listed(c, i) then 1 else 0) + (if i in c.owed then 1 else 0) + (if c.entries[i].buffer.terminal.Some? then 1 else 0)
  }

  /**
   Totality: in every run without a foreign pop, disconnects included, each handle's request
   is in exactly one place (active, owed its Terminal, or in possession of it); so once the
   client is disconnected and has delivered what it owes, every handle has its Terminal.
   */
  lemma Totality(k: Settings, ops: seq<Op>, i: nat)
    requires NoForeignPop(k, ops) && i < |Run(k, ops).entries| && Run(k, ops).entries[i].submitter.Returned?
    ensures
      var c := Run(k, ops);
      && Places(c, i) == 1
      && (!c.connected && |c.owed| == 0 ==> c.entries[i].buffer.terminal.Some?)
  {
    AccountedExactly(k, ops);
    RunInv(k, ops);
    assert EntryOk(k, Run(k, ops).entries[i]);
  }

  /**
   And every caller inside `submit` without an answer is active; so a disconnect answers all
   of them: with the handle, the rejection or the failure.
   */
  lemma CallersAnswered(k: Settings, ops: seq<Op>, i: nat)
    requires NoForeignPop(k, ops) && i < |Run(k, ops).entries|
    requires Run(k, ops).entries[i].submitter.Sending? || Run(k, ops).entries[i].submitter.Awaiting?
    ensures
      var c := Run(k, ops);
      && (Unanswered(c.entries[i]) ==> Listed(c, i))
      && (!c.connected ==> !Unanswered(c.entries[i]))
  {
    AccountedExactly(k, ops);
    RunInv(k, ops);
    assert EntryOk(k, Run(k, ops).entries[i]);
  }

  // ---------- a request nobody will answer

  lemma StrandedStep(k: Settings, c: Client, op: Op, i: nat)
    requires Stranded(c, i) && TableOk(c)
    ensures Stranded(Step(k, c, op), i)
  {
    match op
    case OpDispatch(m) => StrandedDispatch(k, c, m, i);
    case OpRead(j) => if j < |c.entries| { StrandedUpdate(c, j, Served(c.entries[j]), i); }
    case OpCancel(x) =>
      if CancelRequest(c, x).1 { StrandedUpdate(c, c.requests[x], Cancelled(c.entries[c.requests[x]]), i); }
    case OpSendDone(j) => if j < |c.entries| { StrandedUpdate(c, j, SendDone(c, j).entries[j], i); }
    case OpConclude(j) => if j < |c.entries| { StrandedUpdate(c, j, Conclude(c, j).entries[j], i); }
    case OpSubmit(x) => StrandedSubmit(k, c, x, i);
    case OpSendFailed(j) => StrandedSendFailed(c, j, i);
    case OpDeliver(j) => StrandedDeliver(c, j, i);
    case OpFail => StrandedFail(c, i);
    case OpConnect =>
  }

  lemma StrandedSubmit(k: Settings, c: Client, x: Id, i: nat)
    requires Stranded(c, i)
    ensures Stranded(Submit(k, c, x).0, i)
  {
    assert Submit(k, c, x).0.entries[i] == c.entries[i];
  }

  lemma StrandedSendFailed(c: Client, j: nat, i: nat)
    requires Stranded(c, i)
    ensures Stranded(SendFailed(c, j), i)
  {
    if j < |c.entries| { StrandedUpdate(c, j, c.entries[j].(submitter := Gone), i); }
  }

  lemma StrandedDeliver(c: Client, j: nat, i: nat)
    requires Stranded(c, i)
    ensures Stranded(Deliver(c, j).0, i)
  {
    if j in c.owed && j < |c.entries| {
      StrandedUpdate(c, j, Deliver(c, j).0.entries[j], i);
    }
  }

  lemma StrandedFail(c: Client, i: nat)
    requires Stranded(c, i)
    ensures Stranded(Fail(c), i)
  {
    assert Fail(c).entries[i] == c.entries[i] && i !in LastWords(c);
  }

  lemma StrandedUpdate(c: Client, j: nat, f: Entry, i: nat)
    requires Stranded(c, i) && j < |c.entries| && f.id == c.entries[j].id
    requires j == i ==> f.buffer.terminal.None? && (f.accepted || Unanswered(f))
    ensures Stranded(Update(c, j, f), i)
  {
  }

  lemma StrandedDispatch(k: Settings, c: Client, m: Message, i: nat)
    requires Stranded(c, i) && TableOk(c)
    ensures Stranded(Dispatch(k, c, m).0, i)
  {
    if Dispatch(k, c, m).1.Fine? && !m.Stats? {
      var (j, d) := (c.requests[m.id], Dispatch(k, c, m).0);
      assert j != i && d.entries[i] == c.entries[i];
      assert i !in d.owed;
      assert !Listed(d, i);
    }
  }

  /** A stranded request stays stranded, whatever happens later. */
  lemma {:induction false} StrandedForever(k: Settings, ops: seq<Op>, more: seq<Op>, i: nat)
    requires Stranded(Run(k, ops), i)
    ensures Stranded(Run(k, ops + more), i)
  {
    if |more| == 0 {
      assert ops + more == ops;
    } else {
      var (all, before) := (ops + more, more[..|more| - 1]);
      assert all[..|all| - 1] == ops + before;
      StrandedForever(k, ops, before, i);
      assert TableOk(Run(k, ops + before)) by { RunInv(k, ops + before); }
      StrandedStep(k, Run(k, ops + before), more[|more| - 1], i);
      assert Run(k, all) == Step(k, Run(k, ops + before), more[|more| - 1]);
    }
  }

  /** What a foreign pop costs: the request it drops is stranded. */
  lemma ForeignPopStrands(k: Settings, ops: seq<Op>, op: Op, more: seq<Op>)
    requires ForeignPop(Run(k, ops), op)
    ensures
      var c := Run(k, ops);
      Stranded(Run(k, ops + [op] + more), c.requests[c.entries[op.i].id])
  {
    RunInv(k, ops);
    assert (ops + [op])[..|ops|] == ops;
    var c := Run(k, ops);
    PopStrands(k, c, op);
    StrandedForever(k, ops + [op], more, c.requests[c.entries[op.i].id]);
  }

  /** A caller asks for an id while another caller has yet to finish sending a Submit for it. */
  predicate Overlaps(c: Client, op: Op) {
    op.OpSubmit? && exists i | 0 <= i < |c.entries| :: c.entries[i].submitter.Sending? && c.entries[i].id == op.id
  }

  predicate NoOverlap(k: Settings, ops: seq<Op>) {
    |ops| == 0 || (NoOverlap(k, ops[..|ops| - 1]) && !Overlaps(Run(k, ops[..|ops| - 1]), ops[|ops| - 1]))
  }

  /** What is active under the id of a caller still sending is that caller's own request. */
  ghost predicate SendersOwn(c: Client) {
    forall i | 0 <= i < |c.entries| && c.entries[i].submitter.Sending? && c.entries[i].id in c.requests ::
      c.requests[c.entries[i].id] == i
  }

  /** No request became active and no caller went back to sending. */
  ghost predicate NothingAdded(c: Client, d: Client) {
    && |d.entries| == |c.entries|
    && (forall x | x in d.requests :: x in c.requests && d.requests[x] == c.requests[x])
    && (forall i | 0 <= i < |d.entries| :: d.entries[i].id == c.entries[i].id
                                           && (d.entries[i].submitter.Sending? ==> c.entries[i].submitter.Sending?))
  }

  lemma DispatchAddsNothing(k: Settings, c: Client, m: Message)
    ensures NothingAdded(c, Dispatch(k, c, m).0)
  {
  }

  lemma OnlySubmitAdds(k: Settings, c: Client, op: Op)
    requires !op.OpSubmit?
    ensures NothingAdded(c, Step(k, c, op))
  {
    match op
    case OpDispatch(m) => DispatchAddsNothing(k, c, m);
    case _ =>
  }

  lemma SendersOwnStep(k: Settings, c: Client, op: Op)
    requires TableOk(c) && SendersOwn(c) && !Overlaps(c, op)
    ensures SendersOwn(Step(k, c, op))
  {
    if op.OpSubmit? {
      var d := Step(k, c, op);
      assert forall i | 0 <= i < |c.entries| :: d.entries[i] == c.entries[i];
    } else {
      OnlySubmitAdds(k, c, op);
    }
  }

  /** Callers who never reuse an id before the earlier `submit` has sent are safe, reconnects included. */
  lemma {:induction false} NoOverlapNoForeignPop(k: Settings, ops: seq<Op>)
    requires NoOverlap(k, ops)
    ensures NoForeignPop(k, ops) && SendersOwn(Run(k, ops))
  {
    if |ops| > 0 {
      var before := ops[..|ops| - 1];
      NoOverlapNoForeignPop(k, before);
      RunInv(k, before);
      SendersOwnStep(k, Run(k, before), ops[|ops| - 1]);
    }
  }

  const STRANDING: seq<Op> := [OpConnect, OpSubmit(5), OpFail, OpConnect, OpSubmit(5), OpDispatch(Accepted(5))]

  /** The request state of a caller whose connection was lost. */
  const LOST := NewEntry(5).(failed := true)

  /**
   It can happen: a caller still sending on a lost connection pops the id that another
   caller has had accepted on the next one.
   */
  lemma ForeignPopHappens(k: Settings)
    ensures ForeignPop(Run(k, STRANDING), OpSendFailed(0))
  {
    AfterResubmit(k);
    Unroll(k, 6, Client(true, [LOST, NewEntry(5).(accepted := true)], map[5 := 1], map[]));
    assert STRANDING[..6] == STRANDING;
  }

  /** Likewise it pops the id of a caller still waiting for its answer. */
  lemma WaitingCallerPopped(k: Settings)
    ensures
      var c := Run(k, STRANDING[..5] + [OpSendDone(1)]);
      && ForeignPop(c, OpSendFailed(0)) && |c.entries| == 2 && Listed(c, 1)
      && c.entries[1].submitter.Awaiting? && Unanswered(c.entries[1])
  {
    AfterResubmit(k);
    var ops := STRANDING[..5] + [OpSendDone(1)];
    assert ops[..5] == STRANDING[..5];
  }

  lemma AfterReconnect(k: Settings)
    ensures Run(k, STRANDING[..4]) == Client(true, [LOST], map[], map[])
  {
    assert Run(k, STRANDING[..1]) == Client(true, [], map[], map[]) by {
      assert STRANDING[..1] == [OpConnect] && STRANDING[..1][..0] == [];
    }
    Unroll(k, 2, Client(true, [NewEntry(5)], map[5 := 0], map[]));
    Unroll(k, 3, Client(false, [LOST], map[], map[]));
    Unroll(k, 4, Client(true, [LOST], map[], map[]));
  }

  lemma AfterResubmit(k: Settings)
    ensures Run(k, STRANDING[..5]) == Client(true, [LOST, NewEntry(5)], map[5 := 1], map[])
  {
    AfterReconnect(k);
    Unroll(k, 5, Client(true, [LOST, NewEntry(5)], map[5 := 1], map[]));
  }

  lemma Unroll(k: Settings, n: nat, c: Client)
    requires 0 < n <= |STRANDING| && Step(k, Run(k, STRANDING[..n - 1]), STRANDING[n - 1]) == c
    ensures Run(k, STRANDING[..n]) == c
  {
    assert STRANDING[..n][..n - 1] == STRANDING[..n - 1];
  }
}
