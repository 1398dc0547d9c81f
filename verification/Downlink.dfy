/**
 The way from the bridge to the client: the session egress, the writer thread that empties
 it, and the connection. Histories record what was said to the client about each request
 since it last asked, and what was dropped at shutdown.
 */
module Downlink {
  import opened Messages
  import opened Protocol
  import E = EgressModel

  /**
   `hand` is the message the writer has popped and not yet sent. `said` are the messages
   sent about each id since it was last asked for, and `lost` those dropped with the egress
   or the writer. `asked` are the ids asked for at some time.
   */
  datatype Line = Line(
    egress: E.State,
    hand: Option<Message>,
    writing: bool,
    wire: seq<Message>,
    said: Id -> seq<Message>,
    lost: Id -> seq<Message>,
    asked: set<Id>)

  function NewLine(): Line { Line(E.FRESH, None, true, [], x => [], x => [], {}) }

  function InHand(h: Option<Message>): seq<Message> { if h.Some? then [h.value] else [] }

  function Msgs(q: E.Queue): seq<Message> {
    seq(|q|, i requires 0 <= i < |q| => q[i].msg)
  }

  /** What the egress still holds about `x`, in the order it will be sent. */
  function Pending(e: E.State, x: Id): seq<Message> {
    About(Msgs(e.control), x) + Msgs(E.QueueOf(e, x))
  }

  /** Accepted for the wire but not sent. */
  function Unsent(l: Line, x: Id): seq<Message> {
    About(InHand(l.hand), x) + l.lost(x) + Pending(l.egress, x)
  }

  /** Everything ever enqueued about `x` since it was last asked for. */
  function Track(l: Line, x: Id): seq<Message> { l.said(x) + Unsent(l, x) }

  function Start(l: Line, x: Id): View { if x in l.asked then Asked else NotAsked }

  /** Where the conversation about `x` stands for someone who has received all of it. */
  function ViewOf(l: Line, x: Id): View { Consume(Start(l, x), Track(l, x)) }

  predicate FromWorker(m: Message) { IsControl(m) || m.Delta? || m.Terminal? }

  ghost predicate SaidAbout(l: Line) {
    forall x, m | m in l.said(x) :: Concerns(m, x)
  }

  ghost predicate LineInv(c: E.Config, l: Line) {
    && E.Inv(c, l.egress)
    && (l.writing && l.egress.accepting ==> forall x :: |l.lost(x)| == 0)
    && (l.hand.Some? ==> l.writing && FromWorker(l.hand.value))
    && (forall m | m in l.wire :: FromWorker(m))
    && SaidAbout(l)
  }

  // ---------- steps

  function Ask(l: Line, x: Id): Line {
    l.(asked := l.asked + {x}, said := (y: Id) => if y == x then [] else l.said(y))
  }

  /** The writer pops one message, waits in vain, or finds the egress stopped and ends. */
  function Fetch(l: Line): Line {
    if !l.writing || l.hand.Some? then l
    else
      var (e, r) := E.Pop(l.egress);
      match r
      case Popped(m) => l.(egress := e, hand := Some(m))
      case PopTimeout => l
      case PopStopped => l.(writing := false)
  }

  function Send(l: Line): Line {
    if l.hand.None? then l
    else l.(hand := None, wire := l.wire + [l.hand.value], said := (x: Id) => l.said(x) + About([l.hand.value], x))
  }

  /** The writer ends, dropping what it holds. */
  function Quit(l: Line): Line {
    l.(hand := None, writing := false, lost := (x: Id) => About(InHand(l.hand), x) + l.lost(x))
  }

  /** `egress.stop()` drops everything queued. */
  function Halt(l: Line): Line {
    l.(egress := E.HALTED, lost := (x: Id) => l.lost(x) + Pending(l.egress, x))
  }

  // ---------- the steps that say nothing new

  lemma AboutOne(m: Message, x: Id)
    ensures About([m], x) == if Concerns(m, x) then [m] else []
  {
    assert [m][1..] == [];
  }

  lemma MsgsTail(q: E.Queue)
    requires |q| > 0
    ensures Msgs(q) == [q[0].msg] + Msgs(q[1..])
  {
  }

  lemma MsgsSnoc(q: E.Queue, m: E.Sized)
    ensures Msgs(q + [m]) == Msgs(q) + [m.msg]
  {
  }

  /** A pop takes the first pending message of the id it speaks about. */
  lemma PopPending(c: E.Config, e: E.State, x: Id)
    requires E.Inv(c, e) && E.Pop(e).1.Popped?
    ensures Pending(e, x) == About([E.Pop(e).1.msg], x) + Pending(E.Pop(e).0, x)
    ensures FromWorker(E.Pop(e).1.msg)
  {
    var (d, m) := (E.Pop(e).0, E.Pop(e).1.msg);
    AboutOne(m, x);
    if |e.control| > 0 {
      MsgsTail(e.control);
      AboutConcat([m], Msgs(e.control[1..]), x);
      assert E.QueueOf(d, x) == E.QueueOf(e, x);
    } else {
      PopQueue(c, e, x);
      assert Msgs(e.control) == [] && Msgs(d.control) == [];
    }
  }

  lemma PopQueue(c: E.Config, e: E.State, x: Id)
    requires E.Inv(c, e) && E.Pop(e).1.Popped? && |e.control| == 0
    ensures FromWorker(E.Pop(e).1.msg) && E.Pop(e).0.control == e.control
    ensures Msgs(E.QueueOf(e, x)) ==
              (if Concerns(E.Pop(e).1.msg, x) then [E.Pop(e).1.msg] else []) + Msgs(E.QueueOf(E.Pop(e).0, x))
  {
    var id := e.ring[0];
    var q := E.QueueOf(e, id);
    assert id in e.queues && E.QueueOk(c, id, q);
    assert q[0].msg.id == id && (q[0].msg.Delta? || q[0].msg.Terminal?);
    MsgsTail(q);
    if x == id {
      assert E.QueueOf(E.Pop(e).0, x) == q[1..];
    } else {
      assert E.QueueOf(E.Pop(e).0, x) == E.QueueOf(e, x);
    }
  }

  lemma MovePending(l: Line, e: E.State, m: Message, x: Id)
    requires l.hand.None? && |l.lost(x)| == 0 && Pending(l.egress, x) == About([m], x) + Pending(e, x)
    ensures Track(l.(egress := e, hand := Some(m)), x) == Track(l, x)
  {
    assert About(InHand(None), x) == [];
    assert Unsent(l.(egress := e, hand := Some(m)), x) == Unsent(l, x);
  }

  lemma FetchTrack(c: E.Config, l: Line, x: Id)
    requires LineInv(c, l)
    ensures Track(Fetch(l), x) == Track(l, x)
  {
    if l.writing && l.hand.None? && E.Pop(l.egress).1.Popped? {
      assert l.egress.accepting;
      PopPending(c, l.egress, x);
      MovePending(l, E.Pop(l.egress).0, E.Pop(l.egress).1.msg, x);
    }
  }

  lemma FetchInv(c: E.Config, l: Line)
    requires LineInv(c, l)
    ensures LineInv(c, Fetch(l))
  {
    if l.writing && l.hand.None? {
      E.PopInv(c, l.egress);
      if E.Pop(l.egress).1.Popped? { PopPending(c, l.egress, 0); }
    }
  }

  lemma SendInv(c: E.Config, l: Line)
    requires LineInv(c, l)
    ensures LineInv(c, Send(l))
  {
    if l.hand.Some? {
      forall x, m | m in Send(l).said(x) ensures Concerns(m, x) {
        AboutOne(l.hand.value, x);
      }
    }
  }

  lemma QuitInv(c: E.Config, l: Line)
    requires LineInv(c, l)
    ensures LineInv(c, Quit(l))
  {
  }

  lemma HaltInv(c: E.Config, l: Line)
    requires LineInv(c, l)
    ensures LineInv(c, Halt(l))
  {
    E.FreshInv(c);
  }

  lemma AskInv(c: E.Config, l: Line, x: Id)
    requires LineInv(c, l)
    ensures LineInv(c, Ask(l, x))
  {
  }

  lemma EgressStepInv(c: E.Config, l: Line, e: E.State)
    requires LineInv(c, l) && E.Inv(c, e) && e.accepting == l.egress.accepting
    ensures LineInv(c, l.(egress := e))
  {
  }

  lemma SendTrack(l: Line, x: Id)
    ensures Track(Send(l), x) == Track(l, x)
    ensures l.hand.Some? ==> Send(l).said(x) == l.said(x) + About([l.hand.value], x)
  {
    if l.hand.Some? {
      var h := About([l.hand.value], x);
      assert (l.said(x) + h) + (l.lost(x) + Pending(l.egress, x)) == l.said(x) + (h + l.lost(x) + Pending(l.egress, x));
      assert About(InHand(None), x) == [];
    }
  }

  lemma QuitTrack(l: Line, x: Id)
    ensures Track(Quit(l), x) == Track(l, x)
  {
    assert About(InHand(None), x) == [];
  }

  lemma HaltTrack(l: Line, x: Id)
    ensures Track(Halt(l), x) == Track(l, x)
  {
    assert Pending(E.HALTED, x) == [];
    assert About(InHand(l.hand), x) + (l.lost(x) + Pending(l.egress, x)) == Unsent(l, x);
  }

  // ---------- the steps that enqueue

  /** A control message is sent before the request's own queue, so it goes last only if that is empty. */
  lemma ControlTrack(c: E.Config, l: Line, m: Message, payload: Option<nat>, x: Id)
    requires E.EnqueueControl(c, l.egress, m, payload).1.Enqueued?
    requires Concerns(m, x) ==> |E.QueueOf(l.egress, x)| == 0
    ensures Track(l.(egress := E.EnqueueControl(c, l.egress, m, payload).0), x) ==
              Track(l, x) + (if Concerns(m, x) then [m] else [])
  {
    var e := E.EnqueueControl(c, l.egress, m, payload).0;
    var q := l.egress.control;
    assert e.control == q + [e.control[|q|]] && e.control[|q|].msg == m;
    MsgsSnoc(q, e.control[|q|]);
    AboutConcat(Msgs(q), [m], x);
    AboutOne(m, x);
    assert E.QueueOf(e, x) == E.QueueOf(l.egress, x);
    assert Pending(e, x) == Pending(l.egress, x) + (if Concerns(m, x) then [m] else []);
  }

  lemma AppendTrack(l: Line, id: Id, m: E.Sized, x: Id)
    requires id in l.egress.queues
    ensures Track(l.(egress := E.Append(l.egress, id, m)), x) == Track(l, x) + (if x == id then [m.msg] else [])
  {
    var e := E.Append(l.egress, id, m);
    MsgsSnoc(E.QueueOf(l.egress, id), m);
    assert x != id ==> E.QueueOf(e, x) == E.QueueOf(l.egress, x);
    assert Pending(e, x) == Pending(l.egress, x) + (if x == id then [m.msg] else []);
  }

  /** Registering, or abandoning an empty queue, says nothing. */
  lemma QuietTrack(l: Line, e: E.State, x: Id)
    requires e.control == l.egress.control && E.QueueOf(e, x) == E.QueueOf(l.egress, x)
    ensures Track(l.(egress := e), x) == Track(l, x)
  {
  }

  // ---------- views

  lemma SaidMore(l: Line, k: Line, x: Id, m: Message)
    requires k.asked == l.asked && Track(k, x) == Track(l, x) + [m]
    ensures ViewOf(k, x) == Advance(ViewOf(l, x), m)
  {
    ConsumeSnoc(Start(l, x), Track(l, x), m);
  }

  /** While a request is merely asked for, nothing about it is under way anywhere. */
  lemma NothingSaid(l: Line, x: Id)
    requires ViewOf(l, x) == Asked
    ensures Track(l, x) == [] && |E.QueueOf(l.egress, x)| == 0 && x in l.asked
  {
    AskedIsInitial(Start(l, x), Track(l, x));
    assert |Track(l, x)| == |l.said(x)| + |About(InHand(l.hand), x)| + |l.lost(x)| + |Pending(l.egress, x)|;
    assert |Msgs(E.QueueOf(l.egress, x))| == |E.QueueOf(l.egress, x)|;
  }

  /** What was sent about `x` is a legal word as long as everything enqueued is. */
  lemma SaidIsLegal(l: Line, x: Id)
    requires ViewOf(l, x) != Broken
    ensures Consume(Start(l, x), l.said(x)) != Broken
    ensures LegalWord(l.said(x))
  {
    PrefixIsFine(Start(l, x), l.said(x), Unsent(l, x));
    if x in l.asked { AcceptsExactly(l.said(x)); } else { SilentUnlessAsked(l.said(x)); }
  }
}
