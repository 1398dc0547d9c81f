/**
 The conversation about one request id, as the client sees it: an automaton over the
 worker's messages, the words it accepts, and its agreement with the client's dispatch.
 */
module Protocol {
  import opened Messages
  import C = ClientModel

  datatype View = NotAsked | Asked | Streaming(next: nat) | Broken

  function Advance(v: View, m: Message): View {
    if v.Asked? && m.Accepted? then Streaming(0)
    else if v.Asked? && m.Rejected? then NotAsked
    else if v.Streaming? && m.Delta? && m.seqNo == v.next then Streaming(v.next + 1)
    else if v.Streaming? && m.Terminal? then NotAsked
    else Broken
  }

  function Consume(v: View, ms: seq<Message>): View {
    if |ms| == 0 then v else Advance(Consume(v, ms[..|ms| - 1]), ms[|ms| - 1])
  }

  lemma ConsumeSnoc(v: View, ms: seq<Message>, m: Message)
    ensures Consume(v, ms + [m]) == Advance(Consume(v, ms), m)
  {
    assert (ms + [m])[..|ms|] == ms;
  }

  lemma {:induction false} ConsumeConcat(v: View, a: seq<Message>, b: seq<Message>)
    ensures Consume(v, a + b) == Consume(Consume(v, a), b)
  {
    if |b| == 0 {
      assert a + b == a;
    } else {
      var n := |b| - 1;
      assert (a + b)[..|a| + n] == a + b[..n];
      ConsumeConcat(v, a, b[..n]);
    }
  }

  lemma ConsumeHead(v: View, m: Message, ms: seq<Message>)
    ensures Consume(v, [m] + ms) == Consume(Advance(v, m), ms)
  {
    ConsumeConcat(v, [m], ms);
    ConsumeSnoc(v, [], m);
    assert [] + [m] == [m];
  }

  lemma {:induction false} BrokenStays(ms: seq<Message>)
    ensures Consume(Broken, ms) == Broken
  {
    if |ms| > 0 { BrokenStays(ms[..|ms| - 1]); }
  }

  /** A word that goes well goes well up to any point. */
  lemma PrefixIsFine(v: View, a: seq<Message>, b: seq<Message>)
    requires Consume(v, a + b) != Broken
    ensures Consume(v, a) != Broken
  {
    ConsumeConcat(v, a, b);
    BrokenStays(b);
  }

  /** A word that goes well begins well. */
  lemma HeadOfFine(v: View, m: Message, ms: seq<Message>)
    requires Consume(v, [m] + ms) != Broken
    ensures Advance(v, m) != Broken
  {
    ConsumeHead(v, m, ms);
    BrokenStays(ms);
  }

  /** Nothing may be said about a request nobody asked for. */
  lemma {:induction false} SilentUnlessAsked(ms: seq<Message>)
    ensures Consume(NotAsked, ms) == if |ms| == 0 then NotAsked else Broken
  {
    if |ms| > 0 {
      assert ms == [ms[0]] + ms[1..];
      ConsumeHead(NotAsked, ms[0], ms[1..]);
      BrokenStays(ms[1..]);
    }
  }

  /** A request is merely asked for only while nothing has been said. */
  lemma AskedIsInitial(v: View, ms: seq<Message>)
    requires Consume(v, ms) == Asked
    ensures ms == [] && v == Asked
  {
  }

  // ---------- the words

  /** A prefix of `Rejected`, or of `Accepted, Delta(0), ..., Delta(k - 1), Terminal`. */
  predicate LegalWord(ms: seq<Message>) {
    || |ms| == 0
    || (|ms| == 1 && ms[0].Rejected?)
    || (ms[0].Accepted?
        && forall i | 1 <= i < |ms| ::
             (ms[i].Delta? && ms[i].seqNo == i - 1) || (ms[i].Terminal? && i == |ms| - 1))
  }

  /** The automaton accepts exactly those words. */
  lemma {:induction false} AcceptsExactly(ms: seq<Message>)
    ensures Consume(Asked, ms) != Broken <==> LegalWord(ms)
    ensures Consume(Asked, ms).Streaming? <==> LegalWord(ms) && |ms| > 0 && (ms[|ms| - 1].Accepted? || ms[|ms| - 1].Delta?)
    ensures Consume(Asked, ms).Streaming? ==> Consume(Asked, ms).next == |ms| - 1
  {
    if |ms| > 0 {
      var (before, m) := (ms[..|ms| - 1], ms[|ms| - 1]);
      AcceptsExactly(before);
      assert forall i | 0 <= i < |before| :: before[i] == ms[i];
      if LegalWord(ms) && |ms| > 1 {
        assert LegalWord(before) && ms[|ms| - 2] == before[|before| - 1];
        assert before[|before| - 1].Accepted? || before[|before| - 1].Delta?;
      }
      if LegalWord(before) && |before| > 0 && Consume(Asked, ms) != Broken {
        assert before[0].Accepted?;
      }
    }
  }

  // ---------- the client follows the automaton

  /** Where the client is with request id `x`. */
  function PhaseOf(c: C.Client, x: Id): View {
    if x !in c.requests || c.requests[x] >= |c.entries| then NotAsked
    else if c.entries[c.requests[x]].accepted then Streaming(c.entries[c.requests[x]].nextSeq)
    else Asked
  }

  /**
   Dispatch raises a protocol error exactly when the automaton of the message's id breaks,
   moves that id as the automaton does, and leaves every other id where it was.
   */
  lemma DispatchFollows(k: C.Settings, c: C.Client, m: Message, x: Id)
    requires C.Inv(k, c) && c.connected && (exists y :: Concerns(m, y))
    ensures C.Dispatch(k, c, m).1.Fine? <==> Advance(PhaseOf(c, m.id), m) != Broken
    ensures C.Dispatch(k, c, m).1.Fine? ==>
              PhaseOf(C.Dispatch(k, c, m).0, x) == if x == m.id then Advance(PhaseOf(c, x), m) else PhaseOf(c, x)
  {
    if C.Dispatch(k, c, m).1.Fine? {
      var d := C.Dispatch(k, c, m).0;
      assert x != m.id && x in c.requests ==> c.requests[x] != c.requests[m.id] && d.requests[x] == c.requests[x];
    }
  }

  lemma SubmitFollows(k: C.Settings, c: C.Client, x: Id, y: Id)
    requires C.Inv(k, c) && C.Submit(k, c, x).1.Some?
    ensures PhaseOf(c, x) == NotAsked
    ensures PhaseOf(C.Submit(k, c, x).0, y) == if y == x then Asked else PhaseOf(c, y)
  {
  }

  /** What callers and handle readers do on their own. */
  predicate Local(op: C.Op) { op.OpConclude? || op.OpCancel? || op.OpDeliver? || op.OpRead? }

  lemma LocalKeepsPhases(k: C.Settings, c: C.Client, op: C.Op, x: Id)
    requires Local(op)
    ensures PhaseOf(C.Step(k, c, op), x) == PhaseOf(c, x) && C.Step(k, c, op).connected == c.connected
  {
  }

  // ---------- requests whose Submit is still to be sent

  predicate Sending(c: C.Client, i: nat) { i < |c.entries| && c.entries[i].submitter.Sending? }

  /** Where the worker can have brought the client with `x`: nowhere before the Submit is sent. */
  function HeardOf(c: C.Client, x: Id): View {
    if x in c.requests && Sending(c, c.requests[x]) then NotAsked else PhaseOf(c, x)
  }

  /** Such a request was not accepted, and is active as long as the connection lasts. */
  ghost predicate SendersOk(c: C.Client) {
    forall i: nat | Sending(c, i) :: !c.entries[i].accepted && (c.connected ==> C.Listed(c, i))
  }

  lemma SubmitHeard(k: C.Settings, c: C.Client, x: Id, y: Id)
    requires C.TableOk(c)
    ensures HeardOf(C.Submit(k, c, x).0, y) == HeardOf(c, y)
  {
  }

  lemma SubmitSenders(k: C.Settings, c: C.Client, x: Id)
    requires SendersOk(c) && C.TableOk(c)
    ensures SendersOk(C.Submit(k, c, x).0)
  {
    var d := C.Submit(k, c, x).0;
    forall i: nat | Sending(d, i) ensures !d.entries[i].accepted && (d.connected ==> C.Listed(d, i)) {
      if i < |c.entries| { assert Sending(c, i) && d.entries[i] == c.entries[i]; }
    }
  }

  lemma SendDoneHeard(c: C.Client, i: nat, y: Id)
    requires C.TableOk(c) && SendersOk(c) && c.connected && Sending(c, i)
    ensures HeardOf(c, c.entries[i].id) == NotAsked
    ensures HeardOf(C.SendDone(c, i), y) == if y == c.entries[i].id then Asked else HeardOf(c, y)
  {
    assert C.Listed(c, i);
  }

  lemma SendDoneSenders(c: C.Client, i: nat)
    requires SendersOk(c)
    ensures SendersOk(C.SendDone(c, i))
  {
    var d := C.SendDone(c, i);
    assert forall j: nat | Sending(d, j) :: Sending(c, j) && d.entries[j] == c.entries[j];
  }

  lemma SendFailedHeard(c: C.Client, i: nat, y: Id)
    requires C.TableOk(c) && SendersOk(c) && c.connected
    ensures HeardOf(C.SendFailed(c, i), y) == HeardOf(c, y)
  {
    if Sending(c, i) { assert C.Listed(c, i); }
  }

  lemma SendFailedSenders(c: C.Client, i: nat)
    requires SendersOk(c)
    ensures SendersOk(C.SendFailed(c, i))
  {
    var d := C.SendFailed(c, i);
    if Sending(c, i) {
      forall j: nat | Sending(d, j) ensures !d.entries[j].accepted && (d.connected ==> C.Listed(d, j)) {
        assert j != i && Sending(c, j) && d.entries[j] == c.entries[j];
        assert c.connected ==> C.Listed(c, i) && C.Listed(c, j);
      }
    }
  }

  /** As long as that holds a failed send finds its own request active, or none at all. */
  lemma OwnPopOnly(k: C.Settings, c: C.Client, i: nat)
    requires C.Inv(k, c) && SendersOk(c)
    ensures !C.ForeignPop(c, C.OpSendFailed(i))
  {
    if Sending(c, i) && c.connected { assert C.Listed(c, i); }
  }

  /** So a failed send keeps the client consistent and every other request accounted for. */
  lemma SendFailedKeeps(k: C.Settings, c: C.Client, i: nat)
    requires C.Inv(k, c) && C.Accounted(c) && SendersOk(c)
    ensures C.Inv(k, C.SendFailed(c, i)) && C.Accounted(C.SendFailed(c, i))
  {
    C.SendFailedInv(k, c, i);
    OwnPopOnly(k, c, i);
    if Sending(c, i) { C.PopAccounted(k, c, i); }
  }

  lemma SendDoneKeeps(k: C.Settings, c: C.Client, i: nat)
    requires C.Inv(k, c) && C.Accounted(c) && Sending(c, i)
    ensures C.Inv(k, C.SendDone(c, i)) && C.Accounted(C.SendDone(c, i))
  {
    C.SubmitterInv(k, c, i, C.Awaiting);
    C.UpdateAccounted(c, i, c.entries[i].(submitter := C.Awaiting));
  }

  /** A message that concerns a request whose Submit was sent. */
  predicate Expected(c: C.Client, m: Message) {
    (m.Accepted? || m.Rejected? || m.Delta? || m.Terminal?) && HeardOf(c, m.id) != NotAsked
  }

  /** Dispatch moves no caller and takes at most its own id off the table. */
  lemma DispatchCallers(k: C.Settings, c: C.Client, m: Message)
    requires C.TableOk(c) && c.connected && Expected(c, m) && C.Dispatch(k, c, m).1.Fine?
    ensures
      var d := C.Dispatch(k, c, m).0;
      && |d.entries| == |c.entries|
      && (forall i | 0 <= i < |c.entries| :: d.entries[i].submitter == c.entries[i].submitter)
      && (forall x | x in d.requests :: x in c.requests && d.requests[x] == c.requests[x])
      && (forall x | x in c.requests && x != m.id :: x in d.requests)
  {
  }

  lemma DispatchHeard(k: C.Settings, c: C.Client, m: Message, x: Id)
    requires C.Inv(k, c) && c.connected && Expected(c, m) && C.Dispatch(k, c, m).1.Fine?
    ensures HeardOf(C.Dispatch(k, c, m).0, x) == if x == m.id then Advance(HeardOf(c, x), m) else HeardOf(c, x)
  {
    assert Concerns(m, m.id);
    DispatchFollows(k, c, m, x);
    DispatchCallers(k, c, m);
  }

  lemma DispatchSenders(k: C.Settings, c: C.Client, m: Message)
    requires C.TableOk(c) && SendersOk(c) && c.connected && Expected(c, m) && C.Dispatch(k, c, m).1.Fine?
    ensures SendersOk(C.Dispatch(k, c, m).0)
  {
    var (d, j) := (C.Dispatch(k, c, m).0, c.requests[m.id]);
    assert !Sending(c, j) && d.entries[j].submitter == c.entries[j].submitter;
    forall i: nat | Sending(d, i) ensures !d.entries[i].accepted && C.Listed(d, i) {
      assert i != j && d.entries[i] == c.entries[i] && Sending(c, i);
      assert C.Listed(c, i) && c.entries[i].id != m.id;
    }
  }

  lemma LocalHeard(k: C.Settings, c: C.Client, o: C.Op, x: Id)
    requires C.TableOk(c) && Local(o)
    ensures HeardOf(C.Step(k, c, o), x) == HeardOf(c, x)
  {
    LocalKeepsPhases(k, c, o, x);
  }

  lemma LocalSenders(k: C.Settings, c: C.Client, o: C.Op)
    requires SendersOk(c) && Local(o)
    ensures SendersOk(C.Step(k, c, o))
  {
    var d := C.Step(k, c, o);
    assert |d.entries| == |c.entries| && d.requests == c.requests && d.connected == c.connected;
    forall i: nat | Sending(d, i) ensures !d.entries[i].accepted && (d.connected ==> C.Listed(d, i)) {
      assert Sending(c, i) && d.entries[i].id == c.entries[i].id;
    }
  }

  /** Nobody starts sending on their own. */
  lemma LocalCallers(k: C.Settings, c: C.Client, o: C.Op)
    requires Local(o)
    ensures
      var d := C.Step(k, c, o);
      && d.connected == c.connected
      && (forall i: nat | Sending(d, i) :: Sending(c, i) && d.entries[i].id == c.entries[i].id)
  {
  }

  lemma FailSenders(c: C.Client)
    requires SendersOk(c)
    ensures SendersOk(C.Fail(c))
  {
    forall i: nat | Sending(C.Fail(c), i) ensures !C.Fail(c).entries[i].accepted {
      assert Sending(c, i);
    }
  }
}
