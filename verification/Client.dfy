/** The generation client as the code writes it: methods over the request table and its entries. */
module GenerationClient {
  import opened Messages
  import opened ClientModel
  import opened Protocol

  lemma Extend(k: Settings, h: seq<Op>, op: Op)
    ensures Run(k, h + [op]) == Step(k, Run(k, h), op)
  {
    assert (h + [op])[..|h|] == h;
  }

  /** `es` is what failing the listed requests of `c` makes of its entries, those with an id in `todo` left out. */
  ghost predicate FailedBut(c: Client, es: seq<Entry>, todo: set<Id>) {
    && |es| == |c.entries|
    && (forall j | 0 <= j < |es| ::
          es[j] == if Listed(c, j) && c.entries[j].id !in todo then c.entries[j].(failed := true) else c.entries[j])
  }

  /** `words` are the Terminals this owes. */
  ghost predicate OwesBut(c: Client, words: map<nat, Message>, todo: set<Id>) {
    && (forall j: nat :: j in words <==> Failing(c, j) && c.entries[j].id !in todo)
    && (forall j | j in words :: j < |c.entries| && words[j] == Synthesized(c.entries[j].id))
  }

  lemma FailedNext(c: Client, es: seq<Entry>, todo: set<Id>, x: Id)
    requires TableOk(c) && FailedBut(c, es, todo) && x in todo && x in c.requests
    ensures es[c.requests[x]] == c.entries[c.requests[x]]
    ensures FailedBut(c, es[c.requests[x] := es[c.requests[x]].(failed := true)], todo - {x})
  {
    var i := c.requests[x];
    assert Listed(c, i);
    assert forall j | 0 <= j < |es| && Listed(c, j) && c.entries[j].id == x :: j == i;
  }

  lemma OwesNext(c: Client, words: map<nat, Message>, todo: set<Id>, x: Id)
    requires TableOk(c) && OwesBut(c, words, todo) && x in todo && x in c.requests
    ensures OwesBut(c, if Failing(c, c.requests[x]) then words[c.requests[x] := Synthesized(x)] else words, todo - {x})
  {
    var i := c.requests[x];
    assert Listed(c, i);
    assert forall j: nat | Listed(c, j) && c.entries[j].id == x :: j == i;
  }

  lemma FailedEntries(c: Client, es: seq<Entry>)
    requires FailedBut(c, es, {})
    ensures Fail(c).entries == es
  {
    assert forall j | 0 <= j < |es| :: Fail(c).entries[j] == es[j];
  }

  lemma FailedWords(c: Client, words: map<nat, Message>)
    requires OwesBut(c, words, {})
    ensures LastWords(c) == words
  {
    assert forall j: nat :: j in words <==> j in LastWords(c);
  }

  /** `c` is `from` after the Terminals it owed to `paid` were delivered. */
  ghost predicate DeliveredBut(from: Client, c: Client, paid: set<nat>) {
    && c == from.(entries := c.entries, owed := c.owed)
    && |c.entries| == |from.entries|
    && c.owed == from.owed - paid
    && (forall i | 0 <= i < |c.entries| ::
          c.entries[i] == if i in paid && i in from.owed then Finished(from.entries[i], from.owed[i]) else from.entries[i])
  }

  lemma NothingPaid(c: Client)
    ensures DeliveredBut(c, c, {})
  {
    assert c.owed - {} == c.owed;
  }

  lemma DeliveredNext(from: Client, c: Client, paid: set<nat>, i: nat)
    requires OwedOk(from) && DeliveredBut(from, c, paid) && i in from.owed && i !in paid
    ensures DeliveredBut(from, Deliver(c, i).0, paid + {i})
  {
  }

  /** What `_fail` leaves behind once it has delivered the Terminals it synthesized. */
  ghost predicate AllFailed(c: Client, d: Client) {
    && !d.connected && d.requests == map[] && d.owed == c.owed && |d.entries| == |c.entries|
    && (forall i | 0 <= i < |d.entries| ::
          d.entries[i].buffer.terminal ==
          if Failing(c, i) then Some(Synthesized(c.entries[i].id)) else c.entries[i].buffer.terminal)
  }

  lemma AllPaid(c: Client, d: Client)
    requires TableOk(c) && DeliveredBut(Fail(c), d, LastWords(c).Keys)
    ensures AllFailed(c, d)
  {
    assert c.owed.Keys !! LastWords(c).Keys;
    assert (c.owed + LastWords(c)) - LastWords(c).Keys == c.owed;
    forall i | 0 <= i < |d.entries|
      ensures d.entries[i].buffer.terminal ==
              if Failing(c, i) then Some(Synthesized(c.entries[i].id)) else c.entries[i].buffer.terminal
    {
      assert Failing(c, i) <==> i in LastWords(c);
    }
  }

  // ---------- what the operations mean to a caller

  /** Refused, changing nothing, or exactly the id `x` goes from unknown to asked. */
  ghost predicate Submitted(k: Settings, c: Client, x: Id, r: Option<nat>, d: Client) {
    && (r.None? <==> !c.connected || PhaseOf(c, x) != NotAsked || |c.requests| >= k.capacity)
    && (r.None? ==> d == c)
    && (r.Some? ==> forall y :: PhaseOf(d, y) == if y == x then Asked else PhaseOf(c, y))
  }

  lemma SubmitMeaning(k: Settings, c: Client, x: Id)
    requires Inv(k, c)
    ensures Submitted(k, c, x, ClientModel.Submit(k, c, x).1, ClientModel.Submit(k, c, x).0)
  {
    if ClientModel.Submit(k, c, x).1.Some? {
      forall y ensures PhaseOf(ClientModel.Submit(k, c, x).0, y) == if y == x then Asked else PhaseOf(c, y) {
        SubmitFollows(k, c, x, y);
      }
    }
  }

  /** True exactly for a request that is streaming, which then has had one Cancel; no id moves. */
  ghost predicate CancelSent(c: Client, x: Id, sent: bool, d: Client) {
    && (sent <==> c.connected && PhaseOf(c, x).Streaming?)
    && (sent ==> x in d.requests && d.requests[x] < |d.entries| && d.entries[d.requests[x]].cancels == 1)
    && (!sent ==> d == c)
    && (forall y :: PhaseOf(d, y) == PhaseOf(c, y))
  }

  lemma CancelMeaning(k: Settings, c: Client, x: Id)
    requires Inv(k, c)
    ensures CancelSent(c, x, CancelRequest(c, x).1, CancelRequest(c, x).0)
  {
    forall y ensures PhaseOf(CancelRequest(c, x).0, y) == PhaseOf(c, y) {
      LocalKeepsPhases(k, c, OpCancel(x), y);
    }
    if CancelRequest(c, x).1 { assert EntryOk(k, c.entries[c.requests[x]]); }
  }

  predicate OfRequest(m: Message) { m.Accepted? || m.Rejected? || m.Delta? || m.Terminal? }

  /** An error exactly when the automaton of the message's id breaks; otherwise that id moves as it does, and no other. */
  ghost predicate Dispatched(c: Client, m: Message, v: Verdict, d: Client) {
    && (v.NotConnected? <==> !c.connected)
    && (!v.Fine? || m.Stats? ==> d == c)
    && (c.connected && !OfRequest(m) ==> (v.Fine? <==> m.Stats?))
    && (c.connected && OfRequest(m) ==>
          && (v.Violation? <==> Advance(PhaseOf(c, m.id), m) == Broken)
          && (v.Fine? ==> forall y :: PhaseOf(d, y) == if y == m.id then Advance(PhaseOf(c, y), m) else PhaseOf(c, y)))
  }

  lemma DispatchMeaning(k: Settings, c: Client, m: Message)
    requires Inv(k, c)
    ensures Dispatched(c, m, Dispatch(k, c, m).1, Dispatch(k, c, m).0)
  {
    if c.connected && OfRequest(m) {
      assert Concerns(m, m.id);
      DispatchFollows(k, c, m, m.id);
      forall y | Dispatch(k, c, m).1.Fine?
        ensures PhaseOf(Dispatch(k, c, m).0, y) == if y == m.id then Advance(PhaseOf(c, y), m) else PhaseOf(c, y)
      {
        DispatchFollows(k, c, m, y);
      }
    }
  }

  class GenerationClient {
    const settings: Settings
    var impl: Client
    ghost var history: seq<Op>

    ghost predicate Valid()
      reads this
    {
      impl == Run(settings, history)
    }

    constructor (settings: Settings)
      ensures Valid() && impl == NEW_CLIENT
    {
      this.settings := settings;
      impl := NEW_CLIENT;
      history := [];
    }

    /** The block of `submit` that makes a request active; None when it raises. */
    method Submit(x: Id) returns (r: Option<nat>)
      requires Valid()
      modifies this
      ensures Valid() && (impl, r) == ClientModel.Submit(settings, old(impl), x)
      ensures Submitted(settings, old(impl), x, r, impl)
    {
      assert Submitted(settings, impl, x, ClientModel.Submit(settings, impl, x).1, ClientModel.Submit(settings, impl, x).0) by {
        RunInv(settings, history);
        SubmitMeaning(settings, impl, x);
      }
      if !impl.connected || x in impl.requests || |impl.requests| >= settings.capacity {
        return None;
      }
      Extend(settings, history, OpSubmit(x));
      history := history + [OpSubmit(x)];
      r := Some(|impl.entries|);
      impl := impl.(entries := impl.entries + [NewEntry(x)], requests := impl.requests[x := |impl.entries|]);
    }

    method Cancel(x: Id) returns (sent: bool)
      requires Valid()
      modifies this
      ensures Valid() && (impl, sent) == CancelRequest(old(impl), x)
      ensures CancelSent(old(impl), x, sent, impl)
    {
      assert TableOk(impl) && CancelSent(impl, x, CancelRequest(impl, x).1, CancelRequest(impl, x).0) by {
        RunInv(settings, history);
        CancelMeaning(settings, impl, x);
      }
      if !impl.connected || x !in impl.requests {
        return false;
      }
      var i := impl.requests[x];
      var e := impl.entries[i];
      if !e.accepted || e.terminalReceived {
        return false;
      }
      Extend(settings, history, OpCancel(x));
      history := history + [OpCancel(x)];
      if !e.cancelSent {
        impl := impl.(entries := impl.entries[i := e.(cancelSent := true, cancels := e.cancels + 1)]);
      }
      sent := true;
    }

    /** The locked block of `_dispatch`. */
    method Dispatch(m: Message) returns (v: Verdict)
      requires Valid()
      modifies this
      ensures Valid() && (impl, v) == ClientModel.Dispatch(settings, old(impl), m)
      ensures Dispatched(old(impl), m, v, impl)
    {
      assert TableOk(impl) && Dispatched(impl, m, ClientModel.Dispatch(settings, impl, m).1, ClientModel.Dispatch(settings, impl, m).0) by {
        RunInv(settings, history);
        DispatchMeaning(settings, impl, m);
      }
      if !impl.connected { return NotConnected; }
      if m.Stats? { return Fine; }
      if !(m.Accepted? || m.Rejected? || m.Delta? || m.Terminal?) { return Violation; }
      if m.id !in impl.requests { return Violation; }
      Extend(settings, history, OpDispatch(m));
      var i := impl.requests[m.id];
      var e := impl.entries[i];
      if m.Accepted? {
        if e.accepted || e.rejected { return Violation; }
        impl := impl.(entries := impl.entries[i := e.(accepted := true)]);
      } else if m.Rejected? {
        if e.accepted { return Violation; }
        impl := impl.(entries := impl.entries[i := e.(rejected := true)], requests := impl.requests - {m.id});
      } else if !e.accepted || e.terminalReceived {
        return Violation;
      } else if m.Delta? {
        if m.seqNo != e.nextSeq { return Violation; }
        impl := impl.(entries := impl.entries[i := TakeDelta(settings, e, m)]);
      } else {
        impl := impl.(entries := impl.entries[i := e.(terminalReceived := true)],
                      requests := impl.requests - {m.id},
                      owed := impl.owed[i := m]);
      }
      history := history + [OpDispatch(m)];
      v := Fine;
    }

    /** `events.put_terminal` after the lock is released; it never finds a Terminal there. */
    method Settle(i: nat) returns (ok: bool)
      requires Valid()
      modifies this
      ensures Valid() && impl == Deliver(old(impl), i).0 && ok
    {
      RunInv(settings, history);
      DeliverInv(settings, impl, i);
      Extend(settings, history, OpDeliver(i));
      history := history + [OpDeliver(i)];
      ok := true;
      if i in impl.owed {
        var (b, put) := PutTerminal(impl.entries[i].buffer, impl.owed[i]);
        ok := put;
        impl := impl.(entries := impl.entries[i := impl.entries[i].(buffer := b)], owed := impl.owed - {i});
      }
    }

    /** The locked block of `_fail`. */
    method Disconnect()
      requires Valid()
      modifies this
      ensures Valid() && impl == ClientModel.Fail(old(impl))
    {
      assert TableOk(impl) by { RunInv(settings, history); }
      ghost var c := impl;
      var (entries, words, todo) := (impl.entries, map[], impl.requests.Keys);
      while todo != {}
        invariant todo <= c.requests.Keys && FailedBut(c, entries, todo) && OwesBut(c, words, todo)
        invariant impl == c && Valid()
      {
        var x :| x in todo;
        FailedNext(c, entries, todo, x);
        OwesNext(c, words, todo, x);
        var i := impl.requests[x];
        if entries[i].accepted && !entries[i].terminalReceived {
          words := words[i := Synthesized(entries[i].id)];
        }
        entries := entries[i := entries[i].(failed := true)];
        todo := todo - {x};
      }
      FailedEntries(c, entries);
      FailedWords(c, words);
      Extend(settings, history, OpFail);
      history := history + [OpFail];
      impl := Client(false, entries, map[], impl.owed + words);
    }

    /**
     `_fail`: disconnects, then puts a synthesized Terminal into the buffer of every request
     that was active and accepted. Terminals other threads still owe are left to them.
     */
    method Fail()
      requires Valid()
      modifies this
      ensures Valid() && AllFailed(old(impl), impl)
    {
      assert TableOk(impl) by { RunInv(settings, history); }
      ghost var before := impl;
      var words := LastWords(impl).Keys;
      Disconnect();
      SettleAll(words);
      AllPaid(before, impl);
    }

    method SettleAll(words: set<nat>)
      requires Valid() && words <= impl.owed.Keys
      modifies this
      ensures Valid() && DeliveredBut(old(impl), impl, words)
    {
      assert OwedOk(impl) by { RunInv(settings, history); }
      ghost var from := impl;
      var todo := words;
      ghost var paid: set<nat> := {};
      assert DeliveredBut(from, impl, paid) by { NothingPaid(impl); }
      while todo != {}
        invariant Valid() && DeliveredBut(from, impl, paid)
        invariant todo + paid == words && todo !! paid
      {
        var i :| i in todo;
        DeliveredNext(from, impl, paid, i);
        var _ := Settle(i);
        todo := todo - {i};
        paid := paid + {i};
      }
    }
  }
}
