/**
 Client, connection, egress, writer, handler, pumps and backend together. A run is any
 interleaving of their steps, failed sends, shutdown and reconnects included; a client asks
 for an id again only when its own table no longer has it, which is what `submit` enforces.
 */
module System {
  import opened Messages
  import opened RequestModel
  import opened Protocol
  import opened Downlink
  import opened Bridge
  import opened BridgeWork
  import opened Word64
  import C = ClientModel
  import E = EgressModel

  datatype Setup = Setup(egress: E.Config, limits: Limits, client: C.Settings)

  datatype World = World(work: Work, line: Line, client: C.Client, stopping: bool)

  /** A connection that has just been set up. */
  function NewWorld(): World { World(NEW_WORK, NewLine(), C.Connect(C.NEW_CLIENT), false) }

  datatype Op =
    | OpAsk(x: Id)
    | OpTransmit(i: nat)
    | OpReconnect
    | OpSendFailed(i: nat)
    | OpReceive
    | OpClient(local: C.Op)
    | OpTakeSubmit
    | OpDecide(accepted: bool, prompt: nat)
    | OpRegister
    | OpInsert
    | OpUnregister
    | OpStart(started: bool)
    | OpAccept(payload: Option<nat>)
    | OpReject(code: StatusCode, payload: Option<nat>)
    | OpOpen
    | OpStats(probe: nat, payload: Option<nat>)
    | OpReap(x: Id)
    | OpRecord(ref: nat, step: RecordOp)
    | OpOffer(ref: nat, payload: Option<nat>)
    | OpFinish(ref: nat, payload: Option<nat>)
    | OpStop
    | OpHalt
    | OpFetch
    | OpSend
    | OpQuit

  // ---------- client

  /** The block of `submit` that makes a request active. */
  function AskStep(s: Setup, w: World, x: Id): World { w.(client := C.Submit(s.client, w.client, x).0) }

  /** The Submit of entry `i` goes out as a whole, if need be just after a disconnect. */
  function TransmitStep(w: World, i: nat): World {
    if !Sending(w.client, i) then w
    else
      var x := w.client.entries[i].id;
      w.(client := C.SendDone(w.client, i), line := Ask(w.line, x), work := w.work.(uplink := w.work.uplink + [x]))
  }

  /** The reader dispatches the next message; a protocol error fails the client. */
  function ReceiveStep(s: Setup, w: World): World {
    if |w.line.wire| == 0 || !w.client.connected then w
    else
      var (c, v) := C.Dispatch(s.client, w.client, w.line.wire[0]);
      w.(client := if v.Fine? then c else C.Fail(c), line := w.line.(wire := w.line.wire[1..]))
  }

  function ClientStep(s: Setup, w: World, o: C.Op): World {
    if Local(o) || o.OpFail? then w.(client := C.Step(s.client, w.client, o)) else w
  }

  /** A new session: the worker starts a new bridge and egress, the client keeps its requests. */
  function ReconnectStep(w: World): World {
    if w.client.connected then w else World(NEW_WORK, NewLine(), C.Connect(w.client), false)
  }

  // ---------- handler

  function TakeStep(w: World): World {
    if !w.work.handler.Free? || |w.work.uplink| == 0 then w
    else w.(work := w.work.(uplink := w.work.uplink[1..], handler := Deciding(w.work.uplink[0])))
  }

  /** The conversion of the message and `runtime.submit`, which may refuse the request. */
  function DecideStep(w: World, accepted: bool, prompt: nat): World {
    var h := w.work.handler;
    if !h.Deciding? then w
    else w.(work := w.work.(handler := if accepted then Registering(h.x, prompt) else Rejecting(h.x)))
  }

  ghost function RegisterStep(s: Setup, w: World): World {
    var h := w.work.handler;
    if !h.Registering? then w
    else
      var (e, status) := E.Register(s.egress, w.line.egress, h.x);
      w.(line := w.line.(egress := e),
         work := w.work.(handler := if status.StatusOk? then Inserting(h.x, h.prompt) else Rejecting(h.x)))
  }

  function InsertStep(w: World): World {
    var (k, h) := (w.work, w.work.handler);
    if !h.Inserting? then w
    else if h.x in k.table then w.(work := k.(handler := Clashing(h.x)))
    else
      w.(work := Work(k.uplink, Starting(h.x, |k.records|), k.records + [NewRecord(h.x, h.prompt)],
                      k.table[h.x := |k.records|]))
  }

  /** `egress.abandonRequest` for a request that could not be set up. */
  function UnregisterStep(w: World): World {
    var h := w.work.handler;
    if !h.Clashing? then w
    else w.(line := w.line.(egress := E.Abandon(w.line.egress, h.x).0), work := w.work.(handler := Rejecting(h.x)))
  }

  function StartStep(w: World, started: bool): World {
    var (k, h) := (w.work, w.work.handler);
    if !h.Starting? || h.ref >= |k.records| then w
    else if started then
      w.(work := SetRecord(k, h.ref, k.records[h.ref].(pump := AtGate)).(handler := Accepting(h.x, h.ref)))
    else
      w.(work := SetRecord(k, h.ref, Withdraw(k.records[h.ref])).(handler := Clashing(h.x), table := k.table - {h.x}))
  }

  function AcceptStep(s: Setup, w: World, payload: Option<nat>): World {
    var (k, h) := (w.work, w.work.handler);
    if !h.Accepting? || h.ref >= |k.records| then w
    else
      var (e, code) := E.EnqueueControl(s.egress, w.line.egress, Accepted(h.x), payload);
      if code.Enqueued? then w.(line := w.line.(egress := e), work := k.(handler := Opening(h.x, h.ref)))
      else w.(work := SetRecord(k, h.ref, k.records[h.ref].(abandoned := true)).(handler := Free), stopping := true)
  }

  function RejectStep(s: Setup, w: World, status: StatusCode, payload: Option<nat>): World {
    var h := w.work.handler;
    if !h.Rejecting? then w
    else
      var (e, code) := E.EnqueueControl(s.egress, w.line.egress, Rejected(h.x, status), payload);
      if code.Enqueued? then w.(line := w.line.(egress := e), work := w.work.(handler := Free))
      else w.(work := w.work.(handler := Free), stopping := true)
  }

  function OpenStep(w: World): World {
    var (k, h) := (w.work, w.work.handler);
    if !h.Opening? || h.ref >= |k.records| then w
    else w.(work := SetRecord(k, h.ref, k.records[h.ref].(allowed := true)).(handler := Free))
  }

  function StatsStep(s: Setup, w: World, probe: nat, payload: Option<nat>): World {
    if !w.work.handler.Free? then w
    else
      var (e, code) := E.EnqueueControl(s.egress, w.line.egress, Stats(probe), payload);
      if code.Enqueued? then w.(line := w.line.(egress := e)) else w.(stopping := true)
  }

  /** Before each message the handler drops the records whose pump has finished. */
  function ReapStep(w: World, x: Id): World {
    var k := w.work;
    if !k.handler.Free? || x !in k.table || k.table[x] >= |k.records| then w
    else if k.records[k.table[x]].pump.Done? && k.records[k.table[x]].terminalEnqueued
    then w.(work := k.(table := k.table - {x})) else w
  }

  // ---------- pumps

  function PumpStep(s: Setup, w: World, ref: nat, o: RecordOp): World {
    if ref >= |w.work.records| then w
    else
      var r := w.work.records[ref];
      w.(work := SetRecord(w.work, ref, RecordStep(s.limits, w.stopping, r, o)),
         stopping := w.stopping || (o.OpPop? && PopEvent(r).1))
  }

  ghost function OfferStep(s: Setup, w: World, ref: nat, payload: Option<nat>): World {
    if ref >= |w.work.records| || !w.work.records[ref].pump.Offering? then w
    else
      var r := w.work.records[ref];
      var (e, code) := E.EnqueueDelta(s.egress, w.line.egress, Owner(r), r.pump.msg, payload);
      w.(line := w.line.(egress := e), work := SetRecord(w.work, ref, Offered(r, code)),
         stopping := w.stopping || Offered(r, code).pump.Done?)
  }

  function FinishStep(s: Setup, w: World, ref: nat, payload: Option<nat>): World {
    if ref >= |w.work.records| || !w.work.records[ref].pump.Holding? || w.work.records[ref].pump.msg.Delta? then w
    else
      var r := w.work.records[ref];
      var (e, code) := E.EnqueueTerminal(s.egress, w.line.egress, Owner(r), WireTerminal(r, r.pump.msg), payload);
      w.(line := w.line.(egress := e), work := SetRecord(w.work, ref, Closed(r, code)),
         stopping := w.stopping || !code.Enqueued?)
  }

  // ---------- runs

  ghost function Step(s: Setup, w: World, op: Op): World {
    match op
    case OpAsk(x) => AskStep(s, w, x)
    case OpTransmit(i) => TransmitStep(w, i)
    case OpSendFailed(i) => w.(client := C.SendFailed(w.client, i))
    case OpReconnect => ReconnectStep(w)
    case OpReceive => ReceiveStep(s, w)
    case OpClient(o) => ClientStep(s, w, o)
    case OpTakeSubmit => TakeStep(w)
    case OpDecide(accepted, prompt) => DecideStep(w, accepted, prompt)
    case OpRegister => RegisterStep(s, w)
    case OpInsert => InsertStep(w)
    case OpUnregister => UnregisterStep(w)
    case OpStart(started) => StartStep(w, started)
    case OpAccept(payload) => AcceptStep(s, w, payload)
    case OpReject(code, payload) => RejectStep(s, w, code, payload)
    case OpOpen => OpenStep(w)
    case OpStats(probe, payload) => StatsStep(s, w, probe, payload)
    case OpReap(x) => ReapStep(w, x)
    case OpRecord(ref, o) => PumpStep(s, w, ref, o)
    case OpOffer(ref, payload) => OfferStep(s, w, ref, payload)
    case OpFinish(ref, payload) => FinishStep(s, w, ref, payload)
    case OpStop => w.(stopping := true)
    case OpHalt => if w.stopping then w.(line := Halt(w.line)) else w
    case OpFetch => w.(line := Fetch(w.line))
    case OpSend => w.(line := Send(w.line))
    case OpQuit => w.(line := Quit(w.line), stopping := true)
  }

  ghost function Run(s: Setup, ops: seq<Op>): World {
    if |ops| == 0 then NewWorld() else Step(s, Run(s, ops[..|ops| - 1]), ops[|ops| - 1])
  }

  // ---------- invariant

  function StoryOf(l: Line, x: Id): Story { if x in l.asked then Told(Track(l, x)) else Silent }

  function Stories(l: Line): Id -> Story { (x: Id) => StoryOf(l, x) }

  /** A Terminal reports at least the tokens of the deltas before it. */
  predicate Honest(ms: seq<Message>) {
    |ms| > 0 && ms[|ms| - 1].Terminal? ==> ms[|ms| - 1].usage.completion >= TotalTokens(ms)
  }

  ghost predicate TracksOk(l: Line) {
    forall x: Id :: ViewOf(l, x) != Broken && Honest(Track(l, x))
  }

  /** The client, once it has read what is on the wire about `x`, stands where the sent messages lead. */
  predicate InSync(l: Line, c: C.Client, x: Id) {
    Consume(HeardOf(c, x), About(l.wire, x)) == Consume(Start(l, x), l.said(x))
  }

  ghost predicate SyncOk(l: Line, c: C.Client) {
    c.connected ==> forall x: Id :: InSync(l, c, x)
  }

  /** Nothing about `x` is under way and its last conversation is complete. */
  predicate Hushed(l: Line, x: Id) { Unsent(l, x) == [] && Complete(StoryOf(l, x)) }

  /** Callers that still have to send after a disconnect may do so: different ids, each of them hushed. */
  ghost predicate SilenceOk(l: Line, c: C.Client) {
    !c.connected ==>
      && (forall i: nat | Sending(c, i) :: Hushed(l, c.entries[i].id))
      && (forall i: nat, j: nat | Sending(c, i) && Sending(c, j) && i != j :: c.entries[i].id != c.entries[j].id)
  }

  ghost predicate WorldOk(s: Setup, w: World) {
    && LineInv(s.egress, w.line)
    && TracksOk(w.line)
    && SyncOk(w.line, w.client)
    && WorkOk(s.limits, w.work, Stories(w.line))
    && C.Inv(s.client, w.client) && C.Accounted(w.client) && SendersOk(w.client)
    && SilenceOk(w.line, w.client)
  }

  /** The worlds that satisfy the invariant. */
  ghost function Good(s: Setup): iset<World> { iset w: World | WorldOk(s, w) }

  // ---------- steps of the line

  /** Moving messages along changes no story. */
  lemma MoveLine(l: Line, k: Line)
    requires TracksOk(l) && k.asked == l.asked && forall x: Id :: Track(k, x) == Track(l, x)
    ensures TracksOk(k) && Same(Stories(l), Stories(k))
  {
  }

  lemma HushedMoves(l: Line, k: Line, x: Id)
    requires Hushed(l, x) && k.asked == l.asked && Track(k, x) == Track(l, x) && |k.said(x)| >= |l.said(x)|
    ensures Hushed(k, x)
  {
    assert |Track(k, x)| == |k.said(x)| + |Unsent(k, x)|;
  }

  lemma SilenceMoves(l: Line, k: Line, c: C.Client)
    requires SilenceOk(l, c) && k.asked == l.asked
    requires forall x: Id :: Track(k, x) == Track(l, x) && |k.said(x)| >= |l.said(x)|
    ensures SilenceOk(k, c)
  {
    forall i: nat | Sending(c, i) && !c.connected ensures Hushed(k, c.entries[i].id) {
      HushedMoves(l, k, c.entries[i].id);
    }
  }

  /** `d` has no more callers sending than `c`. */
  lemma SilenceShrinks(l: Line, c: C.Client, d: C.Client)
    requires SilenceOk(l, c) && (d.connected || !c.connected)
    requires forall i: nat | Sending(d, i) :: Sending(c, i) && d.entries[i].id == c.entries[i].id
    ensures SilenceOk(l, d)
  {
  }

  lemma NewLineOk(s: Setup, w: World, k: Line, stopping: bool)
    requires w in Good(s) && LineInv(s.egress, k) && forall x: Id :: Track(k, x) == Track(w.line, x)
    requires k.asked == w.line.asked && k.wire == w.line.wire && k.said == w.line.said
    ensures w.(line := k, stopping := stopping) in Good(s)
  {
    MoveLine(w.line, k);
    SilenceMoves(w.line, k, w.client);
    WorkSame(s.limits, w.work, Stories(w.line), Stories(k));
    forall x: Id | w.client.connected ensures InSync(k, w.client, x) { assert InSync(w.line, w.client, x); }
  }

  lemma FetchFrame(l: Line)
    ensures Fetch(l).asked == l.asked && Fetch(l).wire == l.wire && Fetch(l).said == l.said
  {
  }

  lemma FetchOk(s: Setup, w: World)
    requires w in Good(s)
    ensures w.(line := Fetch(w.line)) in Good(s)
  {
    FetchInv(s.egress, w.line);
    FetchFrame(w.line);
    forall x: Id ensures Track(Fetch(w.line), x) == Track(w.line, x) { FetchTrack(s.egress, w.line, x); }
    NewLineOk(s, w, Fetch(w.line), w.stopping);
  }

  lemma SendSync(l: Line, c: C.Client, x: Id)
    requires InSync(l, c, x)
    ensures InSync(Send(l), c, x)
  {
    if l.hand.Some? {
      var h := About([l.hand.value], x);
      AboutConcat(l.wire, [l.hand.value], x);
      ConsumeConcat(HeardOf(c, x), About(l.wire, x), h);
      ConsumeConcat(Start(l, x), l.said(x), h);
    }
  }

  lemma SendOk(s: Setup, w: World)
    requires w in Good(s)
    ensures w.(line := Send(w.line)) in Good(s)
  {
    var k := Send(w.line);
    SendInv(s.egress, w.line);
    forall x: Id ensures Track(k, x) == Track(w.line, x) && |k.said(x)| >= |w.line.said(x)| { SendTrack(w.line, x); }
    MoveLine(w.line, k);
    SilenceMoves(w.line, k, w.client);
    WorkSame(s.limits, w.work, Stories(w.line), Stories(k));
    forall x: Id | w.client.connected ensures InSync(k, w.client, x) { SendSync(w.line, w.client, x); }
  }

  lemma QuitOk(s: Setup, w: World)
    requires w in Good(s)
    ensures w.(line := Quit(w.line), stopping := true) in Good(s)
  {
    QuitInv(s.egress, w.line);
    forall x: Id ensures Track(Quit(w.line), x) == Track(w.line, x) { QuitTrack(w.line, x); }
    NewLineOk(s, w, Quit(w.line), true);
  }

  lemma HaltOk(s: Setup, w: World)
    requires w in Good(s)
    ensures w.(line := Halt(w.line)) in Good(s)
  {
    HaltInv(s.egress, w.line);
    forall x: Id ensures Track(Halt(w.line), x) == Track(w.line, x) { HaltTrack(w.line, x); }
    NewLineOk(s, w, Halt(w.line), w.stopping);
  }

  // ---------- steps of the client

  lemma NewClientOk(s: Setup, w: World, c: C.Client)
    requires w in Good(s) && C.Inv(s.client, c) && C.Accounted(c) && SendersOk(c) && SyncOk(w.line, c)
    requires SilenceOk(w.line, c)
    ensures w.(client := c) in Good(s)
  {
  }

  lemma SameHeard(l: Line, c: C.Client, d: C.Client)
    requires SyncOk(l, c) && (d.connected ==> c.connected && forall x: Id :: HeardOf(d, x) == HeardOf(c, x))
    ensures SyncOk(l, d)
  {
    forall x: Id | d.connected ensures InSync(l, d, x) { assert InSync(l, c, x); }
  }

  lemma AskSync(s: Setup, l: Line, c: C.Client, x: Id)
    requires C.TableOk(c) && SyncOk(l, c)
    ensures SyncOk(l, C.Submit(s.client, c, x).0)
  {
    var d := C.Submit(s.client, c, x).0;
    forall y: Id ensures HeardOf(d, y) == HeardOf(c, y) { SubmitHeard(s.client, c, x, y); }
    SameHeard(l, c, d);
  }

  lemma AskOk(s: Setup, w: World, x: Id)
    requires w in Good(s)
    ensures AskStep(s, w, x) in Good(s)
  {
    var c := C.Submit(s.client, w.client, x).0;
    SubmitSenders(s.client, w.client, x);
    AskSync(s, w.line, w.client, x);
    C.SubmitInv(s.client, w.client, x);
    C.SubmitAccounted(s.client, w.client, x);
    assert c.connected == w.client.connected && (!c.connected ==> c == w.client);
    NewClientOk(s, w, c);
  }

  /** A client that may send a Submit for `x` has seen the end of whatever was said about it. */
  lemma AskFindsSilence(s: Setup, w: World, x: Id)
    requires w in Good(s) && w.client.connected && HeardOf(w.client, x) == NotAsked
    ensures About(w.line.wire, x) == [] && Hushed(w.line, x)
  {
    var l := w.line;
    assert InSync(l, w.client, x);
    assert ViewOf(l, x) != Broken;
    SaidIsLegal(l, x);
    SilentUnlessAsked(About(l.wire, x));
    ConsumeConcat(Start(l, x), l.said(x), Unsent(l, x));
    SilentUnlessAsked(Unsent(l, x));
    if x in l.asked { AcceptsExactly(Track(l, x)); }
  }

  lemma AskLine(l: Line, x: Id)
    requires TracksOk(l) && Unsent(l, x) == []
    ensures TracksOk(Ask(l, x)) && StoryOf(Ask(l, x), x) == Told([]) && SameBut(Stories(l), Stories(Ask(l, x)), x)
  {
    var k := Ask(l, x);
    assert Track(k, x) == [];
    forall y: Id | y != x ensures Track(k, y) == Track(l, y) && Start(k, y) == Start(l, y) {
      assert k.said(y) == l.said(y) && Unsent(k, y) == Unsent(l, y);
    }
  }

  lemma TransmitSync(l: Line, c: C.Client, i: nat, x: Id)
    requires C.TableOk(c) && SendersOk(c) && SyncOk(l, c) && Sending(c, i)
    requires x == c.entries[i].id && (c.connected ==> About(l.wire, x) == [])
    ensures SyncOk(Ask(l, x), C.SendDone(c, i))
  {
    forall y: Id | c.connected ensures InSync(Ask(l, x), C.SendDone(c, i), y) {
      assert InSync(l, c, y);
      SendDoneHeard(c, i, y);
    }
  }

  lemma TransmitSilence(l: Line, c: C.Client, i: nat, x: Id)
    requires SilenceOk(l, c) && Sending(c, i) && x == c.entries[i].id
    ensures SilenceOk(Ask(l, x), C.SendDone(c, i))
  {
    var (k, d) := (Ask(l, x), C.SendDone(c, i));
    forall j: nat | Sending(d, j) && !d.connected ensures Hushed(k, d.entries[j].id) {
      assert j != i && Sending(c, j) && d.entries[j] == c.entries[j];
      var y := c.entries[j].id;
      assert Hushed(l, y) && y != x && k.said(y) == l.said(y) && Unsent(k, y) == Unsent(l, y);
    }
  }

  /** A caller about to send finds its id hushed, before and after a disconnect. */
  lemma SenderFindsSilence(s: Setup, w: World, i: nat)
    requires w in Good(s) && Sending(w.client, i)
    ensures
      var x := w.client.entries[i].id;
      Hushed(w.line, x) && (w.client.connected ==> About(w.line.wire, x) == [])
  {
    if w.client.connected {
      SendDoneHeard(w.client, i, w.client.entries[i].id);
      AskFindsSilence(s, w, w.client.entries[i].id);
    }
  }

  lemma TransmitOk(s: Setup, w: World, i: nat)
    requires w in Good(s)
    ensures TransmitStep(w, i) in Good(s)
  {
    if Sending(w.client, i) {
      var x := w.client.entries[i].id;
      SenderFindsSilence(s, w, i);
      AskInv(s.egress, w.line, x);
      AskLine(w.line, x);
      TransmitSync(w.line, w.client, i, x);
      TransmitSilence(w.line, w.client, i, x);
      SendDoneSenders(w.client, i);
      AskedWork(s.limits, w.work, Stories(w.line), Stories(Ask(w.line, x)), x);
      SendDoneKeeps(s.client, w.client, i);
    }
  }

  lemma SendFailedSync(l: Line, c: C.Client, i: nat)
    requires C.TableOk(c) && SendersOk(c) && SyncOk(l, c)
    ensures SyncOk(l, C.SendFailed(c, i))
  {
    var d := C.SendFailed(c, i);
    forall y: Id | d.connected ensures HeardOf(d, y) == HeardOf(c, y) { SendFailedHeard(c, i, y); }
    SameHeard(l, c, d);
  }

  lemma SendFailedSilence(l: Line, c: C.Client, i: nat)
    requires SilenceOk(l, c)
    ensures SilenceOk(l, C.SendFailed(c, i))
  {
    SilenceShrinks(l, c, C.SendFailed(c, i));
  }

  lemma SendFailedOk(s: Setup, w: World, i: nat)
    requires w in Good(s)
    ensures w.(client := C.SendFailed(w.client, i)) in Good(s)
  {
    SendFailedKeeps(s.client, w.client, i);
    SendFailedSenders(w.client, i);
    SendFailedSync(w.line, w.client, i);
    SendFailedSilence(w.line, w.client, i);
    NewClientOk(s, w, C.SendFailed(w.client, i));
  }

  /** The next message on the wire is one the client accepts. */
  lemma ReceiveIsFine(s: Setup, w: World)
    requires w in Good(s) && |w.line.wire| > 0 && w.client.connected
    ensures C.Dispatch(s.client, w.client, w.line.wire[0]).1.Fine?
    ensures w.line.wire[0].Stats? || Expected(w.client, w.line.wire[0])
  {
    var (l, m) := (w.line, w.line.wire[0]);
    assert m in l.wire && FromWorker(m);
    if !m.Stats? {
      assert InSync(l, w.client, m.id) && ViewOf(l, m.id) != Broken;
      HeadIsFine(s.client, l, w.client, m);
    }
  }

  lemma HeadIsFine(k: C.Settings, l: Line, c: C.Client, m: Message)
    requires C.Inv(k, c) && c.connected && |l.wire| > 0 && m == l.wire[0]
    requires m.Accepted? || m.Rejected? || m.Delta? || m.Terminal?
    requires InSync(l, c, m.id) && ViewOf(l, m.id) != Broken
    ensures C.Dispatch(k, c, m).1.Fine? && Expected(c, m)
  {
    SaidIsLegal(l, m.id);
    assert Concerns(m, m.id);
    HeadOfFine(HeardOf(c, m.id), m, About(l.wire[1..], m.id));
    DispatchFollows(k, c, m, m.id);
  }

  lemma ReceiveSync(s: Setup, l: Line, c: C.Client, x: Id)
    requires C.Inv(s.client, c) && c.connected && |l.wire| > 0 && InSync(l, c, x)
    requires l.wire[0].Stats? || Expected(c, l.wire[0])
    requires C.Dispatch(s.client, c, l.wire[0]).1.Fine?
    ensures InSync(l.(wire := l.wire[1..]), C.Dispatch(s.client, c, l.wire[0]).0, x)
  {
    var m := l.wire[0];
    if !m.Stats? {
      DispatchHeard(s.client, c, m, x);
      ConsumeHead(HeardOf(c, x), m, About(l.wire[1..], x));
    }
  }

  lemma ReadLine(c: E.Config, l: Line)
    requires LineInv(c, l) && TracksOk(l) && |l.wire| > 0
    ensures
      var k := l.(wire := l.wire[1..]);
      LineInv(c, k) && TracksOk(k) && Same(Stories(l), Stories(k))
  {
    var k := l.(wire := l.wire[1..]);
    assert forall m | m in k.wire :: m in l.wire;
    assert forall x: Id :: Track(k, x) == Track(l, x);
  }

  /** The client after the next message. */
  lemma ReceivedClient(s: Setup, w: World)
    requires w in Good(s) && |w.line.wire| > 0 && w.client.connected
    ensures
      var (c, v) := C.Dispatch(s.client, w.client, w.line.wire[0]);
      && v.Fine? && c.connected && C.Inv(s.client, c) && C.Accounted(c) && SendersOk(c)
      && SyncOk(w.line.(wire := w.line.wire[1..]), c)
  {
    var m := w.line.wire[0];
    var c := C.Dispatch(s.client, w.client, m).0;
    ReceiveIsFine(s, w);
    forall x: Id ensures InSync(w.line.(wire := w.line.wire[1..]), c, x) {
      assert InSync(w.line, w.client, x);
      ReceiveSync(s, w.line, w.client, x);
    }
    assert SendersOk(c) by { if !m.Stats? { DispatchSenders(s.client, w.client, m); } }
    C.DispatchInv(s.client, w.client, m);
    C.DispatchAccounted(s.client, w.client, m);
  }

  lemma ReceiveOk(s: Setup, w: World)
    requires w in Good(s)
    ensures ReceiveStep(s, w) in Good(s)
  {
    if |w.line.wire| > 0 && w.client.connected {
      ReceivedClient(s, w);
      ReadLine(s.egress, w.line);
      WorkSame(s.limits, w.work, Stories(w.line), Stories(w.line.(wire := w.line.wire[1..])));
    }
  }

  lemma CallersOk(s: Setup, w: World, o: C.Op)
    requires w in Good(s) && Local(o)
    ensures w.(client := C.Step(s.client, w.client, o)) in Good(s)
  {
    var c := C.Step(s.client, w.client, o);
    C.StepInv(s.client, w.client, o);
    C.StepAccounted(s.client, w.client, o);
    LocalSenders(s.client, w.client, o);
    forall x: Id ensures HeardOf(c, x) == HeardOf(w.client, x) { LocalHeard(s.client, w.client, o, x); }
    LocalKeepsPhases(s.client, w.client, o, 0);
    SameHeard(w.line, w.client, c);
    LocalCallers(s.client, w.client, o);
    SilenceShrinks(w.line, w.client, c);
    NewClientOk(s, w, c);
  }

  /** A disconnect finds every caller still sending with a hushed id of its own. */
  lemma FailSilence(s: Setup, w: World)
    requires w in Good(s)
    ensures SilenceOk(w.line, C.Fail(w.client))
  {
    var (c, d) := (w.client, C.Fail(w.client));
    assert forall i: nat | Sending(d, i) :: Sending(c, i) && d.entries[i].id == c.entries[i].id;
    if c.connected {
      forall i: nat | Sending(c, i) ensures Hushed(w.line, c.entries[i].id) && C.Listed(c, i) {
        SenderFindsSilence(s, w, i);
      }
    }
  }

  lemma ClientOk(s: Setup, w: World, o: C.Op)
    requires w in Good(s)
    ensures ClientStep(s, w, o) in Good(s)
  {
    if Local(o) {
      CallersOk(s, w, o);
    } else if o.OpFail? {
      C.FailInv(s.client, w.client);
      C.FailAccounted(w.client);
      FailSenders(w.client);
      FailSilence(s, w);
      NewClientOk(s, w, C.Fail(w.client));
    }
  }

  // ---------- steps of the handler

  /** A change of the egress that neither adds nor removes a message. */
  lemma QuietEgress(s: Setup, w: World, e: E.State)
    requires w in Good(s) && E.Inv(s.egress, e) && SameQueues(w.line.egress, e)
    ensures w.(line := w.line.(egress := e)) in Good(s)
  {
    var k := w.line.(egress := e);
    EgressStepInv(s.egress, w.line, e);
    forall x: Id ensures Track(k, x) == Track(w.line, x) { QuietTrack(w.line, e, x); }
    NewLineOk(s, w, k, w.stopping);
  }

  lemma NewWorkOk(s: Setup, w: World, k: Work, stopping: bool)
    requires w in Good(s) && WorkOk(s.limits, k, Stories(w.line))
    ensures w.(work := k, stopping := stopping) in Good(s)
  {
  }

  lemma MovedOk(s: Setup, w: World, g: Handler)
    requires w in Good(s) && !w.work.handler.Free? && !w.work.handler.Opening?
    requires (g.Registering? || g.Inserting? || g.Clashing? || g.Rejecting?) && g.x == w.work.handler.x
    ensures w.(work := w.work.(handler := g)) in Good(s)
  {
    MoveWork(s.limits, w.work, Stories(w.line), g);
    NewWorkOk(s, w, w.work.(handler := g), w.stopping);
  }

  ghost predicate SameQueues(d: E.State, e: E.State) {
    e.accepting == d.accepting && e.control == d.control && forall x: Id :: E.QueueOf(e, x) == E.QueueOf(d, x)
  }

  lemma RegisterIsQuiet(c: E.Config, e: E.State, x: Id)
    ensures SameQueues(e, E.Register(c, e, x).0)
  {
  }

  lemma AbandonIsQuiet(e: E.State, x: Id)
    requires |E.QueueOf(e, x)| == 0
    ensures SameQueues(e, E.Abandon(e, x).0)
  {
  }

  lemma RegisterOk(s: Setup, w: World)
    requires w in Good(s)
    ensures RegisterStep(s, w) in Good(s)
  {
    var h := w.work.handler;
    if h.Registering? {
      var (e, status) := E.Register(s.egress, w.line.egress, h.x);
      E.RegisterInv(s.egress, w.line.egress, h.x);
      RegisterIsQuiet(s.egress, w.line.egress, h.x);
      QuietEgress(s, w, e);
      var g := if status.StatusOk? then Inserting(h.x, h.prompt) else Rejecting(h.x);
      MovedOk(s, w.(line := w.line.(egress := e)), g);
    }
  }

  lemma UnregisterOk(s: Setup, w: World)
    requires w in Good(s)
    ensures UnregisterStep(w) in Good(s)
  {
    var h := w.work.handler;
    if h.Clashing? {
      var e := E.Abandon(w.line.egress, h.x).0;
      assert Stories(w.line)(h.x) == Told([]);
      NothingSaid(w.line, h.x);
      E.AbandonInv(s.egress, w.line.egress, h.x);
      AbandonIsQuiet(w.line.egress, h.x);
      QuietEgress(s, w, e);
      MovedOk(s, w.(line := w.line.(egress := e)), Rejecting(h.x));
    }
  }

  lemma TakeOk(s: Setup, w: World)
    requires w in Good(s)
    ensures TakeStep(w) in Good(s)
  {
    if w.work.handler.Free? && |w.work.uplink| > 0 {
      TakeWork(s.limits, w.work, Stories(w.line));
      NewWorkOk(s, w, TakeStep(w).work, w.stopping);
    }
  }

  lemma DecideOk(s: Setup, w: World, accepted: bool, prompt: nat)
    requires w in Good(s)
    ensures DecideStep(w, accepted, prompt) in Good(s)
  {
    if w.work.handler.Deciding? {
      MoveWork(s.limits, w.work, Stories(w.line), DecideStep(w, accepted, prompt).work.handler);
      NewWorkOk(s, w, DecideStep(w, accepted, prompt).work, w.stopping);
    }
  }

  lemma InsertOk(s: Setup, w: World)
    requires w in Good(s)
    ensures InsertStep(w) in Good(s)
  {
    var h := w.work.handler;
    if h.Inserting? {
      if h.x in w.work.table {
        MoveWork(s.limits, w.work, Stories(w.line), Clashing(h.x));
      } else {
        InsertWork(s.limits, w.work, Stories(w.line));
      }
      NewWorkOk(s, w, InsertStep(w).work, w.stopping);
    }
  }

  lemma OpenOk(s: Setup, w: World)
    requires w in Good(s)
    ensures OpenStep(w) in Good(s)
  {
    if w.work.handler.Opening? {
      OpenWork(s.limits, w.work, Stories(w.line));
      NewWorkOk(s, w, OpenStep(w).work, w.stopping);
    }
  }

  lemma ReapOk(s: Setup, w: World, x: Id)
    requires w in Good(s)
    ensures ReapStep(w, x) in Good(s)
  {
    var k := w.work;
    if k.handler.Free? && x in k.table {
      assert Holds(k, x, k.table[x]);
      if k.records[k.table[x]].pump.Done? && k.records[k.table[x]].terminalEnqueued {
        DropWork(s.limits, k, Stories(w.line), x);
        NewWorkOk(s, w, k.(table := k.table - {x}), w.stopping);
        assert ReapStep(w, x) == w.(work := k.(table := k.table - {x}));
      } else {
        assert ReapStep(w, x) == w;
      }
    }
  }

  lemma StartForm(w: World, started: bool)
    requires w.work.handler.Starting? && w.work.handler.ref < |w.work.records|
    ensures
      var (k, x, ref) := (w.work, w.work.handler.x, w.work.handler.ref);
      StartStep(w, started) == w.(work :=
        if started then SetRecord(k, ref, k.records[ref].(pump := AtGate)).(handler := Accepting(x, ref))
        else SetRecord(k, ref, Withdraw(k.records[ref])).(handler := Clashing(x), table := k.table - {x}))
  {
  }

  lemma StartOk(s: Setup, w: World, started: bool)
    requires w in Good(s)
    ensures StartStep(w, started) in Good(s)
  {
    var h := w.work.handler;
    if h.Starting? {
      if started { StartedWork(s.limits, w.work, Stories(w.line)); } else { UnstartedWork(s.limits, w.work, Stories(w.line)); }
      StartForm(w, started);
      NewWorkOk(s, w, StartStep(w, started).work, w.stopping);
    }
  }

  // ---------- steps that say something

  /** One more message about `x`, which its conversation allows. */
  lemma SayLine(l: Line, k: Line, x: Id, m: Message)
    requires TracksOk(l) && k.asked == l.asked && x in l.asked
    requires forall y: Id :: Track(k, y) == Track(l, y) + (if y == x then [m] else [])
    requires Advance(ViewOf(l, x), m) != Broken && Honest(Track(l, x) + [m])
    ensures TracksOk(k) && SameBut(Stories(l), Stories(k), x) && StoryOf(k, x) == Told(Track(l, x) + [m])
  {
    SaidMore(l, k, x, m);
    assert forall y: Id | y != x :: Track(k, y) == Track(l, y);
  }

  /** A conversation that goes on is not the one of a hushed id. */
  lemma SaySilence(l: Line, k: Line, c: C.Client, x: Id)
    requires SilenceOk(l, c) && TracksOk(l) && TracksOk(k) && k.asked == l.asked && k.said == l.said
    requires SameBut(Stories(l), Stories(k), x) && !Complete(StoryOf(l, x))
    ensures SilenceOk(k, c)
  {
    forall i: nat | Sending(c, i) && !c.connected ensures Hushed(k, c.entries[i].id) {
      var y := c.entries[i].id;
      assert Hushed(l, y) && y != x;
      assert Stories(k)(y) == Stories(l)(y);
      if y !in l.asked {
        SilentUnlessAsked(Track(l, y));
        SilentUnlessAsked(Track(k, y));
      }
      HushedMoves(l, k, y);
    }
  }

  lemma SayOk(s: Setup, w: World, e: E.State, x: Id, j: Work, stopping: bool)
    requires w in Good(s) && E.Inv(s.egress, e) && e.accepting == w.line.egress.accepting
    requires TracksOk(w.line.(egress := e)) && WorkOk(s.limits, j, Stories(w.line.(egress := e)))
    requires SameBut(Stories(w.line), Stories(w.line.(egress := e)), x) && !Complete(StoryOf(w.line, x))
    ensures World(j, w.line.(egress := e), w.client, stopping) in Good(s)
  {
    EgressStepInv(s.egress, w.line, e);
    SaySilence(w.line, w.line.(egress := e), w.client, x);
    forall y: Id | w.client.connected ensures InSync(w.line.(egress := e), w.client, y) {
      assert InSync(w.line, w.client, y);
    }
  }

  /** The handler's answer to a Submit joins an empty conversation. */
  lemma AnswerLine(s: Setup, w: World, x: Id, m: Message, payload: Option<nat>)
    requires w in Good(s) && StoryOf(w.line, x) == Told([])
    requires m == Accepted(x) || (m.Rejected? && m.id == x)
    requires E.EnqueueControl(s.egress, w.line.egress, m, payload).1.Enqueued?
    ensures
      var k := w.line.(egress := E.EnqueueControl(s.egress, w.line.egress, m, payload).0);
      TracksOk(k) && SameBut(Stories(w.line), Stories(k), x) && StoryOf(k, x) == Told([m])
  {
    var l := w.line;
    var k := l.(egress := E.EnqueueControl(s.egress, l.egress, m, payload).0);
    assert ViewOf(l, x) == Asked;
    NothingSaid(l, x);
    forall y: Id ensures Track(k, y) == Track(l, y) + (if y == x then [m] else []) {
      ControlTrack(s.egress, l, m, payload, y);
    }
    assert [] + [m] == [m];
    SayLine(l, k, x, m);
  }

  lemma AnswerOk(s: Setup, w: World, m: Message, payload: Option<nat>, g: Handler)
    requires w in Good(s) && !w.work.handler.Free? && !w.work.handler.Opening?
    requires m == Accepted(w.work.handler.x) || (m.Rejected? && m.id == w.work.handler.x)
    requires E.EnqueueControl(s.egress, w.line.egress, m, payload).1.Enqueued?
    requires g.Free? || (m.Accepted? && w.work.handler.Accepting? && g == Opening(w.work.handler.x, w.work.handler.ref))
    ensures
      var e := E.EnqueueControl(s.egress, w.line.egress, m, payload).0;
      World(w.work.(handler := g), w.line.(egress := e), w.client, w.stopping) in Good(s)
  {
    var (x, e) := (w.work.handler.x, E.EnqueueControl(s.egress, w.line.egress, m, payload).0);
    var k := w.line.(egress := e);
    assert Stories(w.line)(x) == Told([]);
    AnswerLine(s, w, x, m, payload);
    E.EnqueueControlInv(s.egress, w.line.egress, m, payload);
    AnswerWork(s.limits, w.work, Stories(w.line), Stories(k), g);
    SayOk(s, w, e, x, w.work.(handler := g), w.stopping);
  }

  lemma AcceptForm(s: Setup, w: World, payload: Option<nat>)
    requires w.work.handler.Accepting? && w.work.handler.ref < |w.work.records|
    ensures
      var (k, h) := (w.work, w.work.handler);
      var (e, code) := E.EnqueueControl(s.egress, w.line.egress, Accepted(h.x), payload);
      AcceptStep(s, w, payload) ==
        if code.Enqueued? then World(k.(handler := Opening(h.x, h.ref)), w.line.(egress := e), w.client, w.stopping)
        else w.(work := SetRecord(k, h.ref, k.records[h.ref].(abandoned := true)).(handler := Free), stopping := true)
  {
  }

  lemma AcceptOk(s: Setup, w: World, payload: Option<nat>)
    requires w in Good(s)
    ensures AcceptStep(s, w, payload) in Good(s)
  {
    var h := w.work.handler;
    if h.Accepting? {
      assert Holds(w.work, h.x, h.ref);
      AcceptForm(s, w, payload);
      if E.EnqueueControl(s.egress, w.line.egress, Accepted(h.x), payload).1.Enqueued? {
        AnswerOk(s, w, Accepted(h.x), payload, Opening(h.x, h.ref));
      } else {
        AbandonedWork(s.limits, w.work, Stories(w.line), h.ref);
        NewWorkOk(s, w, AcceptStep(s, w, payload).work, true);
      }
    }
  }

  lemma RejectOk(s: Setup, w: World, code: StatusCode, payload: Option<nat>)
    requires w in Good(s)
    ensures RejectStep(s, w, code, payload) in Good(s)
  {
    var h := w.work.handler;
    if h.Rejecting? {
      if E.EnqueueControl(s.egress, w.line.egress, Rejected(h.x, code), payload).1.Enqueued? {
        AnswerOk(s, w, Rejected(h.x, code), payload, Free);
      } else {
        FreeWork(s.limits, w.work, Stories(w.line));
        NewWorkOk(s, w, w.work.(handler := Free), true);
      }
    }
  }

  lemma StatsOk(s: Setup, w: World, probe: nat, payload: Option<nat>)
    requires w in Good(s)
    ensures StatsStep(s, w, probe, payload) in Good(s)
  {
    var (l, m) := (w.line, Stats(probe));
    if w.work.handler.Free? && E.EnqueueControl(s.egress, l.egress, m, payload).1.Enqueued? {
      var e := E.EnqueueControl(s.egress, l.egress, m, payload).0;
      E.EnqueueControlInv(s.egress, l.egress, m, payload);
      EgressStepInv(s.egress, l, e);
      forall x: Id ensures Track(l.(egress := e), x) == Track(l, x) { ControlTrack(s.egress, l, m, payload, x); }
      NewLineOk(s, w, l.(egress := e), w.stopping);
    }
  }

  // ---------- steps of the pumps

  lemma PumpOk(s: Setup, w: World, ref: nat, o: RecordOp)
    requires w in Good(s)
    ensures PumpStep(s, w, ref, o) in Good(s)
  {
    if ref < |w.work.records| {
      var r := w.work.records[ref];
      assert RecordOk(s.limits, r);
      RecordStepOk(s.limits, w.stopping, r, o);
      RecordStepQuiet(s.limits, w.stopping, r, o);
      QuietWork(s.limits, w.work, Stories(w.line), ref, RecordStep(s.limits, w.stopping, r, o));
      NewWorkOk(s, w, PumpStep(s, w, ref, o).work, PumpStep(s, w, ref, o).stopping);
    }
  }

  /** A record that has said Accepted and its forwarded deltas is in the middle of a conversation. */
  lemma SpeakerView(s: Setup, l: Line, r: Record)
    requires RecordOk(s.limits, r) && StoryOf(l, Owner(r)) == Told([Accepted(Owner(r))] + r.forwarded)
    ensures ViewOf(l, Owner(r)) == Streaming(|r.forwarded|)
  {
    OnceOnly(s.limits, r);
    AcceptsExactly([Accepted(Owner(r))] + r.forwarded);
  }

  /** A pump's message, which its conversation allows, joins the queue of its request. */
  lemma SpeakLine(l: Line, x: Id, said: seq<Message>, m: E.Sized)
    requires TracksOk(l) && StoryOf(l, x) == Told([Accepted(x)] + said) && x in l.egress.queues
    requires Advance(ViewOf(l, x), m.msg) != Broken && Honest([Accepted(x)] + said + [m.msg])
    ensures
      var k := l.(egress := E.Append(l.egress, x, m));
      TracksOk(k) && SameBut(Stories(l), Stories(k), x) && StoryOf(k, x) == Told([Accepted(x)] + (said + [m.msg]))
  {
    var k := l.(egress := E.Append(l.egress, x, m));
    forall y: Id ensures Track(k, y) == Track(l, y) + (if y == x then [m.msg] else []) { AppendTrack(l, x, m, y); }
    SayLine(l, k, x, m.msg);
    assert [Accepted(x)] + said + [m.msg] == [Accepted(x)] + (said + [m.msg]);
  }

  lemma SpeakWork(s: Setup, l: Line, k: Work, ref: nat, m: E.Sized, q: Record)
    requires TracksOk(l) && WorkOk(s.limits, k, Stories(l)) && ref < |k.records| && Speaks(k.records[ref])
    requires RecordOk(s.limits, q) && Owner(q) == Owner(k.records[ref]) && Owner(q) in l.egress.queues
    requires Speaks(q) ==> q.forwarded == k.records[ref].forwarded + [m.msg]
    requires Advance(Streaming(|k.records[ref].forwarded|), m.msg) != Broken
    requires Honest([Accepted(Owner(q))] + k.records[ref].forwarded + [m.msg])
    ensures
      var n := l.(egress := E.Append(l.egress, Owner(q), m));
      && TracksOk(n) && WorkOk(s.limits, SetRecord(k, ref, q), Stories(n))
      && SameBut(Stories(l), Stories(n), Owner(q)) && !Complete(StoryOf(l, Owner(q)))
  {
    var (r, n) := (k.records[ref], l.(egress := E.Append(l.egress, Owner(q), m)));
    assert RecordOk(s.limits, r);
    assert Stories(l)(Owner(r)) == Told([Accepted(Owner(r))] + r.forwarded);
    SpeakerView(s, l, r);
    SpokenIsOpen(s.limits, r);
    SpeakLine(l, Owner(r), r.forwarded, m);
    SpeakingWork(s.limits, k, Stories(l), Stories(n), ref, q);
  }

  /** The egress refused what a pump offered. */
  lemma RefusedOk(s: Setup, w: World, ref: nat, q: Record, stopping: bool)
    requires w in Good(s) && ref < |w.work.records| && Quiet(w.work.records[ref], q) && LocalOk(q)
    requires q.pipe == w.work.records[ref].pipe
    ensures w.(work := SetRecord(w.work, ref, q), stopping := stopping) in Good(s)
  {
    assert RecordOk(s.limits, w.work.records[ref]);
    QuietWork(s.limits, w.work, Stories(w.line), ref, q);
    NewWorkOk(s, w, SetRecord(w.work, ref, q), stopping);
  }

  lemma GoodRecord(s: Setup, w: World, ref: nat)
    requires w in Good(s) && ref < |w.work.records|
    ensures RecordOk(s.limits, w.work.records[ref])
  {
  }

  lemma OfferForm(s: Setup, w: World, ref: nat, r: Record, payload: Option<nat>)
    requires ref < |w.work.records| && r == w.work.records[ref] && r.pump.Offering?
    ensures
      var (e, code) := E.EnqueueDelta(s.egress, w.line.egress, Owner(r), r.pump.msg, payload);
      var (k, stopping) := (SetRecord(w.work, ref, Offered(r, code)), w.stopping || Offered(r, code).pump.Done?);
      if code.Enqueued? then
        var m := E.Sized(r.pump.msg, E.FrameSize(s.egress, payload).value);
        && Owner(r) in w.line.egress.queues && e == E.Append(w.line.egress, Owner(r), m)
        && OfferStep(s, w, ref, payload) == World(k, w.line.(egress := e), w.client, stopping)
      else OfferStep(s, w, ref, payload) == w.(work := k, stopping := stopping)
  {
  }

  lemma OfferWork(s: Setup, l: Line, k: Work, ref: nat, m: E.Sized)
    requires TracksOk(l) && WorkOk(s.limits, k, Stories(l)) && ref < |k.records|
    requires k.records[ref].pump == Offering(m.msg) && Owner(k.records[ref]) in l.egress.queues
    ensures
      var n := l.(egress := E.Append(l.egress, Owner(k.records[ref]), m));
      && TracksOk(n) && WorkOk(s.limits, SetRecord(k, ref, Offered(k.records[ref], E.Enqueued)), Stories(n))
      && SameBut(Stories(l), Stories(n), Owner(k.records[ref])) && !Complete(StoryOf(l, Owner(k.records[ref])))
  {
    var r := k.records[ref];
    assert RecordOk(s.limits, r);
    OfferedOk(r, E.Enqueued);
    OfferIsNext(s.limits, r);
    SpeakWork(s, l, k, ref, m, Offered(r, E.Enqueued));
  }

  lemma OfferTaken(s: Setup, w: World, ref: nat, r: Record, payload: Option<nat>)
    requires w in Good(s) && ref < |w.work.records| && r == w.work.records[ref] && r.pump.Offering?
    requires E.EnqueueDelta(s.egress, w.line.egress, Owner(r), r.pump.msg, payload).1.Enqueued?
    ensures OfferStep(s, w, ref, payload) in Good(s)
  {
    var e := E.EnqueueDelta(s.egress, w.line.egress, Owner(r), r.pump.msg, payload).0;
    OfferForm(s, w, ref, r, payload);
    E.EnqueueDeltaInv(s.egress, w.line.egress, Owner(r), r.pump.msg, payload);
    OfferWork(s, w.line, w.work, ref, E.Sized(r.pump.msg, E.FrameSize(s.egress, payload).value));
    SayOk(s, w, e, Owner(r), SetRecord(w.work, ref, Offered(r, E.Enqueued)), w.stopping);
  }

  lemma OfferOk(s: Setup, w: World, ref: nat, payload: Option<nat>)
    requires w in Good(s)
    ensures OfferStep(s, w, ref, payload) in Good(s)
  {
    if ref < |w.work.records| && w.work.records[ref].pump.Offering? {
      var r := w.work.records[ref];
      var code := E.EnqueueDelta(s.egress, w.line.egress, Owner(r), r.pump.msg, payload).1;
      if code.Enqueued? {
        OfferTaken(s, w, ref, r, payload);
      } else {
        OfferForm(s, w, ref, r, payload);
        GoodRecord(s, w, ref);
        OfferedOk(r, code);
        QuietRefusal(r, code);
        RefusedOk(s, w, ref, Offered(r, code), w.stopping || Offered(r, code).pump.Done?);
      }
    }
  }

  lemma TerminalIsHonest(s: Setup, r: Record)
    requires RecordOk(s.limits, r) && r.pump.Holding? && !r.pump.msg.Delta?
    ensures Honest([Accepted(Owner(r))] + r.forwarded + [WireTerminal(r, r.pump.msg)])
  {
    var (a, t) := ([Accepted(Owner(r))], WireTerminal(r, r.pump.msg));
    UsageCoversForwarded(s.limits, r);
    TotalConcat(a, r.forwarded);
    TotalSnoc(a + r.forwarded, t);
    TotalSnoc([], a[0]);
    assert [] + [a[0]] == a;
  }

  lemma FinishForm(s: Setup, w: World, ref: nat, r: Record, payload: Option<nat>)
    requires ref < |w.work.records| && r == w.work.records[ref] && r.pump.Holding? && !r.pump.msg.Delta?
    ensures
      var t := WireTerminal(r, r.pump.msg);
      var (e, code) := E.EnqueueTerminal(s.egress, w.line.egress, Owner(r), t, payload);
      var (k, stopping) := (SetRecord(w.work, ref, Closed(r, code)), w.stopping || !code.Enqueued?);
      if code.Enqueued? then
        var m := E.Sized(t, E.FrameSize(s.egress, payload).value);
        && Owner(r) in w.line.egress.queues && e == E.Append(w.line.egress, Owner(r), m)
        && FinishStep(s, w, ref, payload) == World(k, w.line.(egress := e), w.client, stopping)
      else FinishStep(s, w, ref, payload) == w.(work := k, stopping := stopping)
  {
  }

  lemma FinishWork(s: Setup, l: Line, k: Work, ref: nat, m: E.Sized)
    requires TracksOk(l) && WorkOk(s.limits, k, Stories(l)) && ref < |k.records|
    requires k.records[ref].pump.Holding? && !k.records[ref].pump.msg.Delta?
    requires m.msg == WireTerminal(k.records[ref], k.records[ref].pump.msg) && Owner(k.records[ref]) in l.egress.queues
    ensures
      var n := l.(egress := E.Append(l.egress, Owner(k.records[ref]), m));
      && TracksOk(n) && WorkOk(s.limits, SetRecord(k, ref, Closed(k.records[ref], E.Enqueued)), Stories(n))
      && SameBut(Stories(l), Stories(n), Owner(k.records[ref])) && !Complete(StoryOf(l, Owner(k.records[ref])))
  {
    var r := k.records[ref];
    assert RecordOk(s.limits, r);
    HeldTerminal(s.limits, r);
    ClosedOk(r, E.Enqueued);
    TerminalIsHonest(s, r);
    SpeakWork(s, l, k, ref, m, Closed(r, E.Enqueued));
  }

  lemma FinishTaken(s: Setup, w: World, ref: nat, r: Record, payload: Option<nat>)
    requires w in Good(s) && ref < |w.work.records| && r == w.work.records[ref]
    requires r.pump.Holding? && !r.pump.msg.Delta?
    requires E.EnqueueTerminal(s.egress, w.line.egress, Owner(r), WireTerminal(r, r.pump.msg), payload).1.Enqueued?
    ensures FinishStep(s, w, ref, payload) in Good(s)
  {
    var t := WireTerminal(r, r.pump.msg);
    var e := E.EnqueueTerminal(s.egress, w.line.egress, Owner(r), t, payload).0;
    FinishForm(s, w, ref, r, payload);
    E.EnqueueTerminalInv(s.egress, w.line.egress, Owner(r), t, payload);
    FinishWork(s, w.line, w.work, ref, E.Sized(t, E.FrameSize(s.egress, payload).value));
    SayOk(s, w, e, Owner(r), SetRecord(w.work, ref, Closed(r, E.Enqueued)), w.stopping);
  }

  lemma FinishOk(s: Setup, w: World, ref: nat, payload: Option<nat>)
    requires w in Good(s)
    ensures FinishStep(s, w, ref, payload) in Good(s)
  {
    if ref < |w.work.records| && w.work.records[ref].pump.Holding? && !w.work.records[ref].pump.msg.Delta? {
      var r := w.work.records[ref];
      var code := E.EnqueueTerminal(s.egress, w.line.egress, Owner(r), WireTerminal(r, r.pump.msg), payload).1;
      if code.Enqueued? {
        FinishTaken(s, w, ref, r, payload);
      } else {
        FinishForm(s, w, ref, r, payload);
        GoodRecord(s, w, ref);
        HeldTerminal(s.limits, r);
        ClosedOk(r, code);
        QuietRefusal(r, code);
        RefusedOk(s, w, ref, Closed(r, code), true);
      }
    }
  }

  // ---------- runs

  lemma WriterOk(s: Setup, w: World, op: Op)
    requires w in Good(s) && (op.OpFetch? || op.OpSend?)
    ensures Step(s, w, op) in Good(s)
  {
    if op.OpFetch? { FetchOk(s, w); } else { SendOk(s, w); }
  }

  lemma StopOk(s: Setup, w: World)
    requires w in Good(s)
    ensures Step(s, w, OpStop) in Good(s)
  {
    NewWorkOk(s, w, w.work, true);
    assert w.(work := w.work, stopping := true) == w.(stopping := true);
  }

  lemma ShutdownOk(s: Setup, w: World, op: Op)
    requires w in Good(s) && (op.OpHalt? || op.OpQuit?)
    ensures Step(s, w, op) in Good(s)
  {
    if op.OpHalt? { HaltOk(s, w); } else { QuitOk(s, w); }
  }

  /** The handler at work on a Submit. */
  predicate OfIntake(op: Op) { op.OpTakeSubmit? || op.OpDecide? || op.OpRegister? }

  lemma IntakeOk(s: Setup, w: World, op: Op)
    requires w in Good(s) && OfIntake(op)
    ensures Step(s, w, op) in Good(s)
  {
    match op
    case OpTakeSubmit => TakeOk(s, w);
    case OpDecide(accepted, prompt) => DecideOk(s, w, accepted, prompt);
    case OpRegister => RegisterOk(s, w);
  }

  predicate OfSetup(op: Op) { op.OpInsert? || op.OpUnregister? || op.OpStart? }

  lemma SetupOk(s: Setup, w: World, op: Op)
    requires w in Good(s) && OfSetup(op)
    ensures Step(s, w, op) in Good(s)
  {
    match op
    case OpInsert => InsertOk(s, w);
    case OpUnregister => UnregisterOk(s, w);
    case OpStart(started) => StartOk(s, w, started);
  }

  /** The handler answering a message. */
  predicate OfAnswer(op: Op) {
    op.OpAccept? || op.OpReject? || op.OpOpen? || op.OpStats? || op.OpReap?
  }

  lemma AnswerStepOk(s: Setup, w: World, op: Op)
    requires w in Good(s) && OfAnswer(op)
    ensures Step(s, w, op) in Good(s)
  {
    match op
    case OpAccept(payload) => AcceptOk(s, w, payload);
    case OpReject(code, payload) => RejectOk(s, w, code, payload);
    case OpOpen => OpenOk(s, w);
    case OpStats(probe, payload) => StatsOk(s, w, probe, payload);
    case OpReap(x) => ReapOk(s, w, x);
  }

  /** Nobody is still sending. */
  ghost predicate Settled(c: C.Client) { forall i: nat :: !Sending(c, i) }

  lemma NewLineTracks(c: E.Config)
    ensures LineInv(c, NewLine()) && TracksOk(NewLine())
  {
    E.FreshInv(c);
    forall x: Id ensures Track(NewLine(), x) == [] {
      assert Pending(E.FRESH, x) == [];
    }
  }

  /** The client keeps its requests, none of which is active. */
  lemma ConnectKeeps(k: C.Settings, c: C.Client)
    requires C.Inv(k, c) && C.Accounted(c) && !c.connected && Settled(c)
    ensures
      var d := C.Connect(c);
      && C.Inv(k, d) && C.Accounted(d) && SendersOk(d) && SyncOk(NewLine(), d) && SilenceOk(NewLine(), d)
  {
    var d := C.Connect(c);
    assert forall i: nat :: Sending(d, i) == Sending(c, i);
    assert forall i: nat | i < |c.entries| :: C.Listed(d, i) == C.Listed(c, i);
  }

  lemma ReconnectOk(s: Setup, w: World)
    requires w in Good(s) && (w.client.connected || Settled(w.client))
    ensures ReconnectStep(w) in Good(s)
  {
    if !w.client.connected {
      NewLineTracks(s.egress);
      ConnectKeeps(s.client, w.client);
    }
  }

  lemma StepOk(s: Setup, w: World, op: Op)
    requires w in Good(s) && (op.OpReconnect? ==> w.client.connected || Settled(w.client))
    ensures Step(s, w, op) in Good(s)
  {
    if OfIntake(op) {
      IntakeOk(s, w, op);
    } else if OfSetup(op) {
      SetupOk(s, w, op);
    } else if OfAnswer(op) {
      AnswerStepOk(s, w, op);
    } else {
      match op
      case OpAsk(x) => AskOk(s, w, x);
      case OpTransmit(i) => TransmitOk(s, w, i);
      case OpSendFailed(i) => SendFailedOk(s, w, i);
      case OpReconnect => ReconnectOk(s, w);
      case OpReceive => ReceiveOk(s, w);
      case OpClient(o) => ClientOk(s, w, o);
      case OpRecord(ref, o) => PumpOk(s, w, ref, o);
      case OpOffer(ref, payload) => OfferOk(s, w, ref, payload);
      case OpFinish(ref, payload) => FinishOk(s, w, ref, payload);
      case OpFetch => WriterOk(s, w, op);
      case OpSend => WriterOk(s, w, op);
      case OpStop => StopOk(s, w);
      case OpHalt => ShutdownOk(s, w, op);
      case OpQuit => ShutdownOk(s, w, op);
    }
  }

  lemma NewWorldOk(s: Setup)
    ensures NewWorld() in Good(s)
  {
    var w := NewWorld();
    NewLineTracks(s.egress);
    assert SyncOk(w.line, w.client);
  }

  /** Every reconnect finds no caller still sending on the lost connection. */
  ghost predicate Calm(s: Setup, ops: seq<Op>) {
    |ops| == 0 ||
    var (w, op) := (Run(s, ops[..|ops| - 1]), ops[|ops| - 1]);
    Calm(s, ops[..|ops| - 1]) && (op.OpReconnect? ==> w.client.connected || Settled(w.client))
  }

  /** One connection is always calm. */
  lemma {:induction false} OneConnectionIsCalm(s: Setup, ops: seq<Op>)
    requires OpReconnect !in ops
    ensures Calm(s, ops)
  {
    if |ops| > 0 {
      assert ops[|ops| - 1] in ops;
      OneConnectionIsCalm(s, ops[..|ops| - 1]);
    }
  }

  lemma {:induction false} RunOk(s: Setup, ops: seq<Op>)
    requires Calm(s, ops)
    ensures Run(s, ops) in Good(s)
  {
    if |ops| == 0 {
      NewWorldOk(s);
    } else {
      RunOk(s, ops[..|ops| - 1]);
      StepOk(s, Run(s, ops[..|ops| - 1]), ops[|ops| - 1]);
    }
  }

  // ---------- what holds in every calm run

  /** Whatever the worker sends, the client's dispatch never raises a protocol error. */
  lemma NoProtocolError(s: Setup, ops: seq<Op>)
    requires Calm(s, ops)
    ensures
      var w := Run(s, ops);
      |w.line.wire| > 0 && w.client.connected ==> C.Dispatch(s.client, w.client, w.line.wire[0]).1.Fine?
  {
    RunOk(s, ops);
    var w := Run(s, ops);
    if |w.line.wire| > 0 && w.client.connected { ReceiveIsFine(s, w); }
  }

  /**
   The messages sent about an id since it was last asked for are all about it and form a
   prefix of `Rejected` or of `Accepted, Delta(0), ..., Delta(k - 1), Terminal`; the Terminal
   reports at least the tokens of those deltas. So do those still to be sent, or dropped.
   */
  lemma WireLanguage(s: Setup, ops: seq<Op>, x: Id)
    requires Calm(s, ops)
    ensures
      var l := Run(s, ops).line;
      && LegalWord(l.said(x)) && Honest(l.said(x))
      && (forall m | m in l.said(x) :: Concerns(m, x))
      && (x in l.asked ==> LegalWord(Track(l, x)))
      && (x !in l.asked ==> Track(l, x) == [])
  {
    RunOk(s, ops);
    var l := Run(s, ops).line;
    assert ViewOf(l, x) != Broken && Honest(Track(l, x));
    SaidIsLegal(l, x);
    if x in l.asked { AcceptsExactly(Track(l, x)); } else { SilentUnlessAsked(Track(l, x)); }
    EndOfWord(l, x);
  }

  /** If the sent messages end with the Terminal, nothing else is under way. */
  lemma EndOfWord(l: Line, x: Id)
    requires ViewOf(l, x) != Broken && Honest(Track(l, x)) && LegalWord(l.said(x))
    ensures Honest(l.said(x))
  {
    var (a, b) := (l.said(x), Unsent(l, x));
    if |a| > 0 && a[|a| - 1].Terminal? {
      assert x in l.asked by { if x !in l.asked { SilentUnlessAsked(Track(l, x)); } }
      AcceptsExactly(a);
      assert Consume(Asked, a) == NotAsked;
      ConsumeConcat(Asked, a, b);
      SilentUnlessAsked(b);
      assert a + b == a;
    }
  }

  /**
   For every record: `cancelRecord` calls `runtime.cancel` at most once, and there is a second
   call exactly when the pump could not be started and someone else cancelled the record as
   well; backpressure is counted at most once; and the forwarded deltas are the first deltas
   of the request. While its pump can speak, what was enqueued about the request is exactly
   Accepted followed by these deltas; once its Terminal is enqueued, all deltas were forwarded
   unless a cancel was requested.
   */
  lemma RecordGuarantees(s: Setup, ops: seq<Op>, ref: nat)
    requires Calm(s, ops) && ref < |Run(s, ops).work.records|
    ensures
      var (w, r) := (Run(s, ops), Run(s, ops).work.records[ref]);
      && r.cancels <= 1 && r.pressures <= 1
      && (r.cancels + r.direct > 1 <==> r.direct > 0 && r.cancelRequested)
      && (r.direct > 0 ==> r.pump.NotStarted?)
      && r.forwarded <= Committeds(r.pipe) && Numbered(Owner(r), r.forwarded)
      && (Speaks(r) ==> Track(w.line, Owner(r)) == [Accepted(Owner(r))] + r.forwarded)
      && (r.terminalEnqueued && !r.cancelRequested ==> r.forwarded == Committeds(r.pipe))
  {
    RunOk(s, ops);
    var (w, r) := (Run(s, ops), Run(s, ops).work.records[ref]);
    GoodRecord(s, w, ref);
    OnceOnly(s.limits, r);
    if r.terminalEnqueued && !r.cancelRequested { NothingHeldBack(s.limits, r); }
    if Speaks(r) {
      assert Stories(w.line)(Owner(r)) == Told([Accepted(Owner(r))] + r.forwarded);
    }
  }

  // ---------- the second call of runtime.cancel

  const TWICE: seq<Op> :=
    [OpAsk(1), OpTransmit(0), OpTakeSubmit, OpDecide(true, 1), OpRegister, OpInsert,
     OpStop, OpRecord(0, OpCancelRecord(false)), OpStart(false)]

  /** It can happen: shutdown cancels a record between its insertion and the failed start of its pump. */
  lemma CancelledTwice(s: Setup)
    ensures
      var k := Run(s, TWICE).work;
      |k.records| == 1 && k.records[0].cancels + k.records[0].direct == 2
  {
    UntilCancelled(s);
    NextStep(s, 8);
    assert TWICE[..9] == TWICE;
  }

  lemma UntilStopping(s: Setup)
    ensures
      var k := Run(s, TWICE[..7]).work;
      k.handler == Starting(1, 0) && k.records == [NewRecord(1, 1)]
  {
    UntilInserted(s);
    NextStep(s, 6);
  }

  lemma UntilCancelled(s: Setup)
    ensures
      var k := Run(s, TWICE[..8]).work;
      k.handler == Starting(1, 0) && k.records == [NewRecord(1, 1).(cancelRequested := true, cancels := 1)]
  {
    UntilStopping(s);
    NextStep(s, 7);
    var w := Run(s, TWICE[..7]);
    assert CancelRecord(w.work.records[0], false) == NewRecord(1, 1).(cancelRequested := true, cancels := 1);
  }

  lemma NextStep(s: Setup, n: nat)
    requires n < |TWICE|
    ensures Run(s, TWICE[..n + 1]) == Step(s, Run(s, TWICE[..n]), TWICE[n])
  {
    assert TWICE[..n + 1][..n] == TWICE[..n];
  }

  lemma UntilAsked(s: Setup)
    ensures
      var w := Run(s, TWICE[..1]);
      && w.work == NEW_WORK && w.line.egress == E.FRESH && w.client.connected
      && |w.client.entries| == 1 && w.client.entries[0] == C.NewEntry(1)
  {
    assert TWICE[..0] == [];
    NextStep(s, 0);
  }

  lemma UntilSent(s: Setup)
    ensures
      var w := Run(s, TWICE[..2]);
      w.work == Work([1], Free, [], map[]) && w.line.egress == E.FRESH
  {
    UntilAsked(s);
    NextStep(s, 1);
    assert [] + [1] == [1];
  }

  lemma UntilTaken(s: Setup)
    ensures
      var w := Run(s, TWICE[..3]);
      w.work == Work([], Deciding(1), [], map[]) && w.line.egress == E.FRESH
  {
    UntilSent(s);
    NextStep(s, 2);
    assert [1][1..] == [];
  }

  lemma UntilInserted(s: Setup)
    ensures Run(s, TWICE[..6]).work == Work([], Starting(1, 0), [NewRecord(1, 1)], map[1 := 0])
  {
    UntilTaken(s);
    NextStep(s, 3);
    NextStep(s, 4);
    NextStep(s, 5);
    FirstRegistration(s.egress);
  }

  lemma FirstRegistration(c: E.Config)
    ensures E.Register(c, E.FRESH, 1).1 == StatusOk
  {
    assert E.Frames(E.FRESH) == 0 && E.TotalBytes(E.FRESH) == 0 && E.Reservations(E.FRESH) == 0;
    assert Times(1, c.terminalReserve) == c.terminalReserve;
  }

  /**
   Every handle's request is active, owed its Terminal, or has it, and only one of these; its
   events are in order.
   */
  lemma HandlesEnd(s: Setup, ops: seq<Op>, i: nat)
    requires Calm(s, ops) && i < |Run(s, ops).client.entries| && Run(s, ops).client.entries[i].submitter.Returned?
    ensures
      var c := Run(s, ops).client;
      && C.Places(c, i) == 1 && C.InOrder(c.entries[i]) && c.entries[i].cancels <= 1
      && (!c.connected && |c.owed| == 0 ==> c.entries[i].buffer.terminal.Some?)
  {
    RunOk(s, ops);
    var c := Run(s, ops).client;
    assert C.EntryOk(s.client, c.entries[i]);
    C.EntryInOrder(s.client, c.entries[i]);
  }

  /** Every caller inside `submit` without an answer is active, so a disconnect answers all of them. */
  lemma CallersEnd(s: Setup, ops: seq<Op>, i: nat)
    requires Calm(s, ops) && i < |Run(s, ops).client.entries|
    requires Run(s, ops).client.entries[i].submitter.Sending? || Run(s, ops).client.entries[i].submitter.Awaiting?
    ensures
      var c := Run(s, ops).client;
      && (C.Unanswered(c.entries[i]) ==> C.Listed(c, i))
      && (!c.connected ==> !C.Unanswered(c.entries[i]))
  {
    RunOk(s, ops);
    assert C.EntryOk(s.client, Run(s, ops).client.entries[i]);
  }
}
