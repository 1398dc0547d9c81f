/** The wire messages, status codes and finish reasons shared by the worker and the client. */
module Messages {

  type Id = nat

  datatype Option<+T> = None | Some(value: T)

  datatype StatusCode =
    | StatusOk
    | InvalidInput
    | AlreadyExists
    | NotReady
    | ResourceExhausted
    | SloPredictedMiss
    | Unavailable
    | QueueFull
    | TensorRTError
    | InternalError
    | TimedOut
    | CancelledStatus

  datatype FinishReason = Eos | Length | StopWord | Cancelled | Timeout | Backpressure

  datatype Usage = Usage(prompt: nat, completion: nat)

  datatype Message =
    | Hello
    | HelloAck
    | Submit(id: Id)
    | Cancel(id: Id)
    | Health(probe: nat)
    | Accepted(id: Id)
    | Rejected(id: Id, code: StatusCode)
    | Stats(probe: nat)
    | Delta(id: Id, seqNo: nat, tokens: seq<int>)
    | Terminal(id: Id, code: StatusCode, finish: Option<FinishReason>, usage: Usage)

  /** Messages the worker puts on its control queue. */
  predicate IsControl(m: Message) {
    m.Accepted? || m.Rejected? || m.Stats?
  }

  /** `m` speaks about request `x`. */
  predicate Concerns(m: Message, x: Id) {
    match m
    case Accepted(id) => id == x
    case Rejected(id, _) => id == x
    case Delta(id, _, _) => id == x
    case Terminal(id, _, _, _) => id == x
    case _ => false
  }

  /** The messages of `ms` about request `x`, in order. */
  function About(ms: seq<Message>, x: Id): (r: seq<Message>) {
    if ms == [] then []
    else if Concerns(ms[0], x) then [ms[0]] + About(ms[1..], x)
    else About(ms[1..], x)
  }

  lemma {:induction false} AboutConcat(a: seq<Message>, b: seq<Message>, x: Id)
    ensures About(a + b, x) == About(a, x) + About(b, x)
  {
    if a == [] {
      assert a + b == b;
    } else {
      assert (a + b)[1..] == a[1..] + b;
      AboutConcat(a[1..], b, x);
      if Concerns(a[0], x) {
        assert [a[0]] + (About(a[1..], x) + About(b, x)) == ([a[0]] + About(a[1..], x)) + About(b, x);
      }
    }
  }
}
