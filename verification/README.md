# Verified model of the generation data plane

This project models what happens to one generation request between the worker, its
egress and the client: admission, the request state and its mailbox, the executor backend,
the runtime bridge with its pumps, the session egress, framing, and the Python client's
dispatch. Two small refinements of the gateway and of the latency policy complete it.

Layout, from the inside out:

- `Messages`, `Sums`, `Word64`: wire messages, sums over maps, wrapping 64-bit arithmetic.
- `EgressModel`, `EgressRuns`, `SessionEgress`: the bounded scheduler as a value in exact
  arithmetic, what holds over all its runs, and the class with cached 64-bit counters that
  refines it.
- `RequestModel`, `RequestState`: phase machine and mailbox, as values and as classes.
- `Admission`, `Runtime`: the lease ledger, the admission controller and the lifecycle.
- `BackendModel`, `Backend`: the two id tables as a transition system and as a class.
- `Serving`: runtime, ledger, mailboxes and backend together.
- `ClientModel`, `Client`: the client's table, entries and buffers, and the class.
- `Protocol`: the conversation about one id as an automaton, the language it accepts, and
  its agreement with the client's dispatch.
- `Bridge`, `PumpLoop`, `BridgeWork`, `Downlink`, `System`: request records and pumps, the
  pump loop, handler and table, egress with writer and wire, and all of it composed.
- `Reservation`, `Reconnect`: on top of the composed system, that pumps find their Terminal
  reservations, and what a second connection changes.
- `Framing`, `FrameDecoder`, `SloPolicy`, `Gateway`.

Concurrency is modelled by steps: each block of code under one lock, and each atomic access
to state that other threads change, is one step, and a run is any sequence of steps. Two
places are coarser. The pump's bookkeeping after a refused delta is one step with the
exchange that ends it (`Press`). When a pump thread cannot be started, closing the record's
gate, erasing it from the table and the handler's own `runtime.cancel` are one step
(`StartStep`); giving back the registration and the refusal follow as steps of their own.

A reconnect gives the client a new bridge, handler, egress and writer; the threads of the old
ones are dropped from the state, as they reach neither the new connection nor the client. A
run is called calm if each of its reconnects finds no caller that is still sending.

Where an object is updated by one caller at a time it is a class whose methods are proved against the value
model; the bridge, whose threads interleave inside one operation, is the transition system
itself. Mailbox, egress and tables appear in it as the values their classes refine.

Abstract inputs are parameters of the steps: the encoded size of a message, the executor's
answers and responses, whether a thread starts, what the writer's socket does, timeouts.

Some properties do not hold as one would first state them; for each the exact condition is
proved, with a concrete run where it fails.

- The backend's tables stay inverse exactly in the runs where the executor never answers a
  submission with an id still in the table (`BackendModel.InverseExactlyWithoutClash`).
- Every waiting caller keeps its request active, and every handle a way to its Terminal,
  exactly in the runs where a failed send does not pop another caller's active request with
  the same id (`ClientModel.AccountedExactly`). It is enough that no caller submits an id
  while an earlier `submit` of it is still sending (`ClientModel.NoOverlapNoForeignPop`), and
  in calm runs, where answers follow the Submit they answer, it cannot happen
  (`System.HandlesEnd`, `System.CallersEnd`).
- A caller overtaken by a disconnect may still send its Submit. Over the lost connection that
  is harmless (`System.TransmitOk`); over a new one its answer is a protocol error, so a
  reconnect is safe exactly when nobody is still sending, or the control partition is too
  small for any answer (`Reconnect.ReconnectExactly`).
- The egress's 64-bit registration check is exact in exactly those states where no frame is
  left or the byte sum fits a word (`SessionEgress.RegisterAgreesExactly`), and likewise the
  two checks for a delta; the code answers exactly throughout a run if and only if no check
  of it is made in any other state (`SessionEgress.ExactWithoutWrap`), and session limits up
  to 2^63 bytes are always safe (`SessionEgress.HalfRangeIsSafe`).
- A failing `feed` loses exactly the payloads completed in that call
  (`Framing.FailureLosesExactly`).
- `runtime.cancel` is called twice for a record exactly when its pump could not be started
  and someone else cancelled it too (`System.RecordGuarantees`, `System.CancelledTwice`). The
  handler's calls for requests that never got a record (lines 407 and 431 of the bridge) are
  not counted to any record.

## Model

| member | source | states |
|---|---|---|
| System.NoProtocolError | clients/python/kim_llm_client/generation_client.py:430-492 | in every interleaving of client, handler, pumps, egress, writer, backend, shutdown and reconnects that find nobody still sending, the next message on the wire is never one that makes `_dispatch` raise a protocol error |
| System.WireLanguage | src/worker/runtime_bridge.cpp:388-493 | in every calm run the messages sent about an id since it was last asked for all concern it and are a prefix of `Rejected` or of `Accepted, Delta(0)..Delta(k-1), Terminal`; so is everything enqueued, sent or dropped; a Terminal reports at least the tokens of the deltas before it |
| System.RecordGuarantees | src/worker/runtime_bridge.cpp:578-680 | in every calm run, for every record: `cancelRecord` calls `runtime.cancel` at most once, and there is a second call exactly when the pump could not be started and someone else cancelled too; backpressure counted at most once; forwarded deltas are the first committed ones (nothing follows a dropped delta), all of them when the Terminal went out without a cancel; while the pump can speak exactly `Accepted` and these deltas were enqueued |
| System.CancelledTwice | src/worker/runtime_bridge.cpp:442-465 | a concrete run with two calls: shutdown cancels a record between its insertion and the failed start of its pump |
| System.HandlesEnd | clients/python/kim_llm_client/generation_client.py:294-352 | in every such run of the whole system, failed sends, late sends and reconnects included, each handle's request is in exactly one of: active, owed its Terminal, holding its Terminal; after a disconnect with nothing owed it holds it; its events are in order and at most one Cancel was sent |
| System.CallersEnd | clients/python/kim_llm_client/generation_client.py:328-345 | in every such run each caller inside `submit` that has no answer has its request active, and after a disconnect every caller has an answer |
| System.OneConnectionIsCalm | clients/python/kim_llm_client/generation_client.py:230-292 | a run without a reconnect is always such a run, so all results about them hold for every interleaving over one connection |
| System.StepOk | src/worker/runtime_bridge.cpp:242-789 | every step of every thread keeps the system invariant: line, stories, client synchronisation, handler, table, records, client |
| System.AskFindsSilence | clients/python/kim_llm_client/generation_client.py:294-327 | when a caller that `submit` let through sends its Submit, nothing about that id is on the wire, in the writer's hand, dropped or queued, and its last conversation is complete |
| System.TransmitOk | clients/python/kim_llm_client/generation_client.py:494-502 | sending a Submit, before or just after a disconnect, starts a new conversation about its id and keeps the system invariant |
| System.SenderFindsSilence | clients/python/kim_llm_client/generation_client.py:494-502 | a caller about to send finds nothing about its id under way and its last conversation complete, also when a disconnect has already failed its request |
| System.ReconnectOk | clients/python/kim_llm_client/generation_client.py:230-275 | a new connection, with a new bridge and egress and the client's old requests, keeps the system invariant if nobody is still sending |
| Reconnect.ReconnectExactly | clients/python/kim_llm_client/generation_client.py:494-502 | after a disconnect, no continuation over a new connection meets a protocol error if and only if nobody is still sending on the lost one, or the control partition cannot hold any frame |
| Reconnect.StaleSubmit | clients/python/kim_llm_client/generation_client.py:448-452 | whoever is still sending, there is a continuation in which the worker refuses the late Submit and the refusal is an unknown request to the client |
| Reconnect.StaleSenderHappens | clients/python/kim_llm_client/generation_client.py:294-326 | a concrete run that ends disconnected with a caller still sending |
| Reconnect.MuteAfter | src/worker/session_egress.cpp:213-259 | with a control partition of at most four bytes nothing is ever sent over a new connection |
| Reservation.TerminalGetsIn | src/worker/runtime_bridge.cpp:638-667 | in every calm run a pump that holds a Terminal gets it into the egress if and only if the egress accepts and the Terminal fits its reserve, however full the egress is; unknown request and full request are unreachable there, and the session goes on |
| Reservation.DeltaGetsInOrPresses | src/worker/runtime_bridge.cpp:601-635 | in every calm run, while the egress accepts, a delta that can be framed is enqueued exactly when the whole egress invariant survives it, and otherwise refused for want of room, never as unknown or finished; it never ends the pump or the session |
| Reservation.RunReserves | src/worker/runtime_bridge.cpp:404-476 | in every calm run, while the egress accepts, every record whose pump can speak and every request the handler is setting up is registered there without a Terminal |
| Reservation.StepReserves | src/worker/runtime_bridge.cpp:242-789 | each step of each thread keeps these registrations; in particular a pop removes one only with its Terminal, and abandoning never hits a request with a pump |
| System.SendFailedOk | clients/python/kim_llm_client/generation_client.py:322-326 | a send that fails, with or without a disconnect, keeps the system invariant |
| System.ReceiveIsFine | clients/python/kim_llm_client/generation_client.py:430-492 | in a state satisfying the invariant the head of the wire is dispatched without an error |
| System.SpeakWork | src/worker/runtime_bridge.cpp:601-667 | a pump's enqueued delta or Terminal continues the story of its id only, and the tie between all threads and stories survives |
| System.TerminalIsHonest | src/worker/runtime_bridge.cpp:638-661 | the Terminal a pump is about to enqueue reports at least the tokens of the deltas it forwarded |
| BridgeWork.SpeakerIsAlone | src/worker/runtime_bridge.cpp:405-476 | while a record's pump can speak, no Submit of its id is under way, the handler is not busy with it and no other record speaks for it, although an old record of a reused id may still be in the table |
| BridgeWork.AskedWork | src/worker/runtime_bridge.cpp:388-403 | a new Submit for an id whose conversation is complete disturbs no thread |
| BridgeWork.InsertWork | src/worker/runtime_bridge.cpp:414-423 | inserting a record for an id that is not in the table keeps table, records and handler consistent |
| BridgeWork.AnswerWork | src/worker/runtime_bridge.cpp:467-493 | answering a Submit with Accepted or Rejected touches no other id |
| BridgeWork.OpenWork | src/worker/runtime_bridge.cpp:61-84 | opening the accept gate is the only way a record starts to speak, and its story then is just `Accepted` |
| BridgeWork.DropWork | src/worker/runtime_bridge.cpp:770-789 | reaping a record whose pump finished after its Terminal keeps table, records and handler consistent |
| BridgeWork.RecordStepOk | src/worker/runtime_bridge.cpp:578-680 | gate, pop, cancel check, backpressure, marking, exit, cancel and backend steps in any order keep the record invariant |
| Bridge.OnceOnly | src/worker/runtime_bridge.cpp:278-298 | per record at most one `runtime.cancel` through `cancelRecord` and one backpressure count, two calls in all exactly when the handler withdrew the record and it was cancelled as well; the forwarded deltas are a prefix of the committed ones, numbered from zero |
| Bridge.NothingHeldBack | src/worker/runtime_bridge.cpp:601-667 | a Terminal enqueued with no cancel requested means every committed delta was forwarded |
| Bridge.UsageCoversForwarded | src/worker/runtime_bridge.cpp:638-661 | the wire Terminal's completion count is at least the forwarded tokens, and equal to them when no cancel was requested, with or without the backpressure override |
| Bridge.OfferIsNext | src/worker/runtime_bridge.cpp:601-616 | a delta offered to the egress carries the number of deltas forwarded so far |
| Bridge.HeldTerminal | src/worker/runtime_bridge.cpp:638-657 | an event that is not a delta is the request's own Terminal, and so is its wire form |
| PumpLoop.HandleDelta | src/worker/runtime_bridge.cpp:601-635 | a delta goes out exactly when no cancel was requested and the egress takes it; a dropped delta leaves a cancel requested |
| PumpLoop.HandleTerminal | src/worker/runtime_bridge.cpp:638-667 | the Terminal goes out exactly when the egress takes it, and only then is `terminal_enqueued` set |
| PumpLoop.RequestPumpLoop | src/worker/runtime_bridge.cpp:578-680 | whatever backend, cancellers and egress do in each round, `Accepted` and what the loop sent form a legal word; it has sent all deltas when it ends uncancelled, and nothing if abandoned at the gate |
| Downlink.PopPending | src/worker/session_egress.cpp:404-462 | a pop takes the first pending message of the id it concerns, control messages first |
| Downlink.FetchTrack | src/worker/runtime_bridge.cpp:691-706 | the writer's pop moves a message without changing what was enqueued about any id, or its order |
| Downlink.SendTrack | src/worker/runtime_bridge.cpp:708-722 | sending moves the held message to the wire and changes nothing else |
| Downlink.QuitTrack | src/worker/runtime_bridge.cpp:713-720 | a writer that ends drops at most the message it holds |
| Downlink.HaltTrack | src/worker/session_egress.cpp:464-484 | stopping the egress drops exactly what was queued |
| Downlink.ControlTrack | src/worker/session_egress.cpp:213-259 | a control message joins the end of an id's messages when its own queue is empty |
| Downlink.NothingSaid | src/worker/runtime_bridge.cpp:467-493 | while a request is only asked for, nothing about it is sent, held, dropped or queued |
| Protocol.AcceptsExactly | clients/python/kim_llm_client/generation_client.py:430-483 | the per-id automaton accepts exactly the prefixes of `Rejected` and of `Accepted, Delta(0)..Delta(k-1), Terminal` |
| Protocol.DispatchFollows | clients/python/kim_llm_client/generation_client.py:430-492 | dispatch raises a protocol error if and only if the automaton of the message's id breaks; otherwise that id moves as the automaton does and every other id stays |
| Protocol.SubmitFollows | clients/python/kim_llm_client/generation_client.py:294-320 | a successful `submit` moves exactly its own id from unknown to asked |
| Protocol.LocalKeepsPhases | clients/python/kim_llm_client/generation_client.py:354-365 | cancelling, reading a handle, delivering an owed Terminal and returning from `submit` change no id's phase |
| Protocol.OwnPopOnly | clients/python/kim_llm_client/generation_client.py:322-326 | while answers follow the Submit they answer, a failed send finds its own request active, or none |
| Protocol.DispatchHeard | clients/python/kim_llm_client/generation_client.py:430-492 | dispatch of a message about a request whose Submit was sent moves exactly that id, as the automaton does |
| ClientModel.HandleEvents | clients/python/kim_llm_client/generation_client.py:68-119 | in every run: a handle only for an accepted request; events are deltas in increasing order, without a gap unless the buffer overflowed, then at most one Terminal, last; at most one Cancel; no Terminal put twice |
| ClientModel.Totality | clients/python/kim_llm_client/generation_client.py:508-544 | in every run without a foreign pop, disconnects included, each handle's request is active, owed its Terminal or holding it, and only one of these |
| ClientModel.AccountedExactly | clients/python/kim_llm_client/generation_client.py:322-326 | every caller without an answer keeps its request active, and every accepted request a way to its Terminal, throughout a run if and only if no failed send pops another caller's active request of the same id, accepted or not |
| ClientModel.StepAccounted | clients/python/kim_llm_client/generation_client.py:294-365 | the same for one step: it keeps all callers and requests accounted for exactly when it is not such a pop |
| ClientModel.ForeignPopStrands | clients/python/kim_llm_client/generation_client.py:322-326 | a request dropped by such a pop never gets an answer or a Terminal, whatever follows, disconnects included |
| ClientModel.StrandedForever | clients/python/kim_llm_client/generation_client.py:430-544 | a request without an answer, or accepted, that is neither active nor owed a Terminal stays so in every continuation |
| ClientModel.ForeignPopHappens | clients/python/kim_llm_client/generation_client.py:322-326 | a concrete run over two connections in which such a pop is about to happen |
| ClientModel.WaitingCallerPopped | clients/python/kim_llm_client/generation_client.py:322-335 | a concrete run over two connections in which such a pop is about to hit a caller that still waits for its answer |
| ClientModel.CallersAnswered | clients/python/kim_llm_client/generation_client.py:328-345 | in every run without such a pop each caller inside `submit` without an answer has its request active, and a disconnect answers every one |
| ClientModel.NoOverlapNoForeignPop | clients/python/kim_llm_client/generation_client.py:294-327 | no such pop happens, reconnects included, if no caller submits an id while an earlier `submit` of it is still sending |
| ClientModel.RunInv | clients/python/kim_llm_client/generation_client.py:294-544 | table, owed Terminals, buffers and cancel flags stay consistent in every run |
| ClientModel.DeliverInv | clients/python/kim_llm_client/generation_client.py:486-489 | an owed Terminal always finds its buffer without one, so the duplicate-Terminal error is unreachable |
| ClientModel.FailAccounted | clients/python/kim_llm_client/generation_client.py:508-540 | a disconnect leaves every accepted active request owed a synthesized Terminal |
| ClientModel.KeptDelta | clients/python/kim_llm_client/generation_client.py:82-91 | an expected delta is kept in order or dropped with overflow and one Cancel |
| ClientModel.ServedKept | clients/python/kim_llm_client/generation_client.py:101-119 | reading a handle moves the next event out of the buffer and loses nothing |
| GenerationClient.GenerationClient.Submit | clients/python/kim_llm_client/generation_client.py:294-320 | refused, changing nothing, exactly when disconnected, the id not idle or the table full; otherwise exactly this id goes from unknown to asked |
| GenerationClient.GenerationClient.Cancel | clients/python/kim_llm_client/generation_client.py:354-365 | true exactly for a streaming request over a live connection, which then has had exactly one Cancel; no id's phase moves; false changes nothing |
| GenerationClient.GenerationClient.Dispatch | clients/python/kim_llm_client/generation_client.py:430-484 | an error exactly when the automaton of the message's id breaks, and then nothing changes; otherwise that id moves as the automaton does and every other stays |
| GenerationClient.GenerationClient.Settle | clients/python/kim_llm_client/generation_client.py:486-489 | puts an owed Terminal; always succeeds |
| GenerationClient.GenerationClient.Disconnect | clients/python/kim_llm_client/generation_client.py:508-521 | the loop over the active requests reaches the model's failed state |
| GenerationClient.GenerationClient.Fail | clients/python/kim_llm_client/generation_client.py:508-540 | disconnected, table empty, a synthesized Terminal in exactly the buffers of requests that were active and accepted, other threads' owed Terminals untouched |
| EgressRuns.ReachableInv | src/worker/session_egress.cpp:139-152 | in every run: ring duplicate-free and holding exactly the ids with something queued, every queue deltas then at most one Terminal inside its own limits, partition capacity kept including all reservations |
| EgressRuns.TerminalAlwaysFits | src/worker/session_egress.cpp:335-402 | in every reachable state of a running egress a Terminal within its reserve is accepted for every registered request without one, and the partition stays within capacity |
| EgressRuns.DeltaAcceptedExactlyWhenSafe | src/worker/session_egress.cpp:261-333 | a well-formed delta is accepted if and only if the whole invariant, reservations included, survives it |
| EgressRuns.RegisteredExactlyWhenSafe | src/worker/session_egress.cpp:162-189 | a new request is registered if and only if its Terminal can still be reserved |
| EgressRuns.PopFindsWhatIsQueued | src/worker/session_egress.cpp:404-462 | in every run a pop returns a message if and only if something is queued |
| EgressRuns.FifoLog | src/worker/session_egress.cpp:213-462 | per lane, queued plus accepted messages equal delivered plus still queued messages, in order; rejected enqueues contribute nothing |
| EgressRuns.ServedWithinItsTurn | src/worker/session_egress.cpp:429-457 | a request with n others ahead of it in the ring is served by the (n+1)-th request pop at the latest |
| EgressRuns.WhileWaiting | src/worker/session_egress.cpp:429-457 | while a request waits only requests ahead of it are served, each at most once, and those not abandoned are served or still ahead |
| EgressRuns.RoundBetweenDeliveries | src/worker/session_egress.cpp:429-457 | between two deliveries of a backlogged request no request is delivered twice and each one already scheduled and not abandoned is delivered exactly once |
| EgressModel.RegisterInv | src/worker/session_egress.cpp:162-189 | registration keeps the invariant |
| EgressModel.AbandonInv | src/worker/session_egress.cpp:191-211 | abandoning returns the request's queue, its ring entry and its reservation, and keeps the invariant |
| EgressModel.EnqueueDeltaInv | src/worker/session_egress.cpp:261-333 | a delta never uses a reserved frame or byte: the invariant is kept |
| EgressModel.EnqueueTerminalInv | src/worker/session_egress.cpp:335-402 | a Terminal uses exactly its own reservation: the invariant is kept |
| EgressModel.PopInv | src/worker/session_egress.cpp:404-462 | delivery and round-robin rotation keep the invariant |
| SessionEgress.ValidateConfiguration | src/worker/session_egress.cpp:86-112 | accepts exactly the configurations whose control, request and Terminal partitions fit each other |
| SessionEgress.RegisterAgreesExactly | src/worker/session_egress.cpp:176-187 | for every valid configuration and run, the wrapping 64-bit registration check gives the exact answer if and only if no frame is left anyway or the byte sum fits a word |
| SessionEgress.SessionAgreesExactly | src/worker/session_egress.cpp:309-319 | likewise, if and only if, for the partition check of a delta |
| SessionEgress.RequestAgreesExactly | src/worker/session_egress.cpp:300-308 | likewise, if and only if, for the per-request check of a delta |
| SessionEgress.ControlFullExactly | src/worker/session_egress.cpp:243-250 | the control check is exact in every run of every valid configuration |
| SessionEgress.ExactWithoutWrap | src/worker/session_egress.cpp:162-484 | for every valid configuration and every run: each answer of the 64-bit code is the exact one throughout if and only if no check of the run is made in a wrapping state, and then its state refines the exact one |
| SessionEgress.StepExactly | src/worker/session_egress.cpp:162-484 | one operation of the code answers as the exact one does if and only if it makes no check that wraps, and then keeps the refinement |
| SessionEgress.SafeNeverWraps | src/worker/session_egress.cpp:86-112 | with room for one more reservation and one more frame below 2^64 no run ever wraps |
| SessionEgress.TerminalFullExactly | src/worker/session_egress.cpp:373-386 | the Terminal check is exact in every run of every valid configuration |
| SessionEgress.RegisterWraps | src/worker/session_egress.cpp:176-187 | a valid configuration and a run that ends in a wrapping state, where the code registers a request beyond the capacity |
| SessionEgress.NothingStale | src/worker/session_egress.cpp:429-436 | the ring never holds a stale entry, so the skip branch of `waitPop` is dead |
| SessionEgress.PushRefines | src/worker/session_egress.cpp:321-333 | a push updates queue, counters, reservation, ring and watermarks so that all cached values equal the recomputed ones |
| SessionEgress.ForgetRefines | src/worker/session_egress.cpp:191-211 | the same for abandoning a request |
| SessionEgress.TakeRequestRefines | src/worker/session_egress.cpp:437-457 | the same for delivering a request message |
| SessionEgress.SessionEgress.RegisterRequest | src/worker/session_egress.cpp:162-189 | registration, for every valid configuration: as long as no check of the object's history wrapped, which is stated exactly, result code and new state are those of the exact model |
| SessionEgress.SessionEgress.AbandonRequest | src/worker/session_egress.cpp:191-211 | abandoning, for every valid configuration: as long as no check of the object's history wrapped, which is stated exactly, result code and new state are those of the exact model |
| SessionEgress.SessionEgress.EnqueueControl | src/worker/session_egress.cpp:213-259 | control messages, for every valid configuration: as long as no check of the object's history wrapped, which is stated exactly, result code and new state are those of the exact model |
| SessionEgress.SessionEgress.EnqueueDelta | src/worker/session_egress.cpp:261-333 | deltas, for every valid configuration: as long as no check of the object's history wrapped, which is stated exactly, result code and new state are those of the exact model |
| SessionEgress.SessionEgress.EnqueueTerminal | src/worker/session_egress.cpp:335-402 | Terminals, for every valid configuration: as long as no check of the object's history wrapped, which is stated exactly, result code and new state are those of the exact model |
| SessionEgress.SessionEgress.WaitPop | src/worker/session_egress.cpp:404-462 | one pop by the skipping loop, for every valid configuration: unless an earlier check wrapped, result and new state are those of the exact model; a negative timeout changes nothing |
| SessionEgress.SessionEgress.Stop | src/worker/session_egress.cpp:464-484 | everything queued and registered is gone and nothing is accepted any more |
| RequestModel.ConsumerStream | src/runtime/request_state.cpp:89-163 | in every run the consumer has taken deltas numbered 0..n-1, none empty, then at most one Terminal whose completion count is the total of their tokens |
| RequestModel.NothingLost | src/runtime/request_state.cpp:89-131 | taken and queued deltas carry exactly the tokens whose commit succeeded, in commit order |
| RequestModel.TerminalAlwaysFits | src/runtime/generation_mailbox.cpp:62-91 | unless the mailbox is closed by hand, a Terminal commits exactly when none was committed, however full the queue, and Closed is seen exactly after Terminal |
| RequestModel.TerminalIsFinal | src/runtime/request_state.cpp:133-163 | after the Terminal no operation changes the request or the deltas |
| RequestModel.PipeRunInv | src/runtime/request_state.cpp:60-163 | numbering, token totals, mailbox limits and the single Terminal hold in every run |
| RequestModel.TakeInv | src/runtime/generation_mailbox.cpp:93-125 | a pop hands out the next delta, or the Terminal once all deltas are gone |
| RequestState.GenerationMailbox.TryPushDelta | src/runtime/generation_mailbox.cpp:28-60 | pushes within both limits or changes nothing; the cached token count stays right |
| RequestState.GenerationMailbox.PushTerminal | src/runtime/generation_mailbox.cpp:62-91 | taken: the Terminal joins the events the consumer has still to take, after all deltas; refused: nothing changes; either way nothing can be pushed any more |
| RequestState.GenerationMailbox.WaitPop | src/runtime/generation_mailbox.cpp:93-125 | deltas first, then the Terminal, then closed; the cached token count stays right |
| RequestState.GenerationMailbox.Close | src/runtime/generation_mailbox.cpp:127-141 | keeps the events the consumer has still to take, lets nothing more in, and an empty mailbox reports closed |
| RequestState.RequestState.MarkRunning | src/runtime/request_state.cpp:60-73 | true exactly if the request is running afterwards; leaves every phase but Accepted as it is and touches no event; request and mailbox together move as the model does |
| RequestState.RequestState.MarkCancelling | src/runtime/request_state.cpp:75-87 | afterwards no tokens can be committed; true exactly for the call that changed the phase; touches no event; request and mailbox together move as the model does |
| RequestState.RequestState.TryCommitDelta | src/runtime/request_state.cpp:89-131 | number and token count advance exactly on success; request and mailbox together move as the model does |
| RequestState.RequestState.Finalize | src/runtime/request_state.cpp:133-163 | one Terminal with the totals so far; request and mailbox together move as the model does |
| Admission.Conservation | src/runtime/admission_controller.cpp:27-97 | through any sequence of acquire, move, release, destruction, open and close: reserved tokens and active ids are the sums and the set over live leases, all limits hold, leases issued = returned + live |
| Admission.ReleaseReturnsExactly | src/runtime/admission_controller.cpp:74-97 | releasing a live lease finds its id active and returns exactly its claim once; any other release changes nothing |
| Admission.AdmittedExactlyWhenItFits | src/runtime/admission_controller.cpp:140-217 | a valid claim is admitted if and only if its id is new and all three limits still hold with it |
| Admission.TransferInv | src/runtime/admission_controller.cpp:38-56 | moving a lease neither loses nor duplicates it |
| Runtime.Lifecycle | src/runtime/generation_runtime.cpp:136-183 | in every run Running means admission accepts (outside `stop`), Stopped means nothing reserved and every lease returned, and `start` never finds admission unable to open |
| Runtime.IdleLedgerOpens | src/runtime/admission_controller.cpp:116-128 | admission opens if and only if no id is active |
| Runtime.GrantThenRelease | src/runtime/generation_runtime.cpp:185-294 | a lease granted and dropped again restores the books |
| Runtime.AdmissionController.Open | src/runtime/admission_controller.cpp:116-128 | opens exactly when no id is active |
| Runtime.AdmissionController.TryAcquire | src/runtime/admission_controller.cpp:140-217 | admitted exactly when a legal claim with a new id fits all three limits of the open budget, in exact sums; then exactly this claim is added and held by the slot, otherwise nothing is reserved |
| Runtime.AdmissionController.ReleaseLease | src/runtime/admission_controller.cpp:74-97 | removes exactly the released lease's id, the books stay balanced |
| Runtime.AdmissionController.MoveLease | src/runtime/admission_controller.cpp:43-56 | the destination gets the source's lease and the source none; exactly what the destination held before is given back, once; nothing else changes |
| Runtime.GenerationRuntime.Start | src/runtime/generation_runtime.cpp:136-183 | outcome and state of the lifecycle model; never the branch where admission cannot open |
| Runtime.GenerationRuntime.Submit | src/runtime/generation_runtime.cpp:185-294 | accepted exactly when running, within budget, admitted by the policy and taken by the backend; otherwise nothing stays reserved |
| Runtime.GenerationRuntime.Stop | src/runtime/generation_runtime.cpp:312-343 | ends in Stopped exactly when the backend did not throw and no id is left |
| Serving.LeaseFollowsTerminal | src/runtime/generation_mailbox.cpp:62-91 | in every run of runtime, ledger, mailboxes and backend together: a live lease belongs to a submission not yet answered, to a request without a Terminal, or to one that committed it a moment ago; every listed request without a Terminal holds its lease; the books balance |
| Serving.StopFollowsBackend | src/runtime/generation_runtime.cpp:312-343 | in every such run a backend that ended in Stopped leaves no live lease, so `stop` of the runtime ends in Stopped |
| Serving.PlantStepOk | src/runtime/generation_runtime.cpp:136-343 | start, both halves of submit, backend threads, the release after a Terminal, a dropped mailbox and the parts of stop keep leases, requests and lifecycles consistent |
| BackendModel.Convergence | src/backends/trtllm/trtllm_executor_backend.cpp:156-324 | in every run, whatever ids the executor answers with, Stopped means every request ever accepted has exactly one Terminal; with fresh executor ids the two id tables are moreover inverse to each other and every accepted request without a Terminal is listed |
| BackendModel.RunHolders | src/backends/trtllm/trtllm_executor_backend.cpp:176-324 | in every run each request that owes its Terminal or is listed has an external id of its own in the table, which keeps the backend from Stopped |
| BackendModel.InverseExactlyWithoutClash | src/backends/trtllm/trtllm_executor_backend.cpp:182-224 | the tables stay inverse throughout a run if and only if no submission is answered with an executor id still in the table |
| BackendModel.RepeatedExecutorIdLosesARequest | src/backends/trtllm/trtllm_executor_backend.cpp:210-221 | a concrete run in which the recovery path of `submit` unlists another request that has no Terminal |
| BackendModel.FreshIdsNeverClash | src/backends/trtllm/trtllm_executor_backend.cpp:182-208 | fresh executor ids rule such answers out |
| BackendModel.LateResponsesAreHarmless | src/backends/trtllm/trtllm_executor_backend.cpp:518-551 | acting on a request after its Terminal changes neither its state nor its events, and no second Terminal appears |
| BackendModel.RunLinked | src/backends/trtllm/trtllm_executor_backend.cpp:671-688 | every listed object knows the id it is listed under, even when executor ids repeat |
| TrtLlmBackend.FinishEffect | src/backends/trtllm/trtllm_executor_backend.cpp:690-707 | finalizing unlists a request exactly when its mailbox could take the Terminal, and touches no other request |
| TrtLlmBackend.AnswerFinal | src/backends/trtllm/trtllm_executor_backend.cpp:518-627 | a response that ends a request leaves its tokens delivered first and then exactly one Terminal with the response's status, reason and totals |
| TrtLlmBackend.DeliveredTokens | src/backends/trtllm/trtllm_executor_backend.cpp:553-596 | a response adds exactly its tokens as the next delta, or nothing |
| TrtLlmBackend.TrtLlmExecutorBackend.Start | src/backends/trtllm/trtllm_executor_backend.cpp:108-145 | a start that takes effect finds nothing listed and every earlier request with exactly one Terminal; a failed one changes nothing |
| TrtLlmBackend.TrtLlmExecutorBackend.Submit | src/backends/trtllm/trtllm_executor_backend.cpp:156-225 | accepted: exactly one new request object, listed and reachable by its external id, all others untouched; refused: no object and no external id changes, and nothing at all unless the executor repeated an id in use |
| TrtLlmBackend.TrtLlmExecutorBackend.Cancel | src/backends/trtllm/trtllm_executor_backend.cpp:227-252 | only the request listed under the id can change, it takes no further tokens, and no table and no event is touched |
| TrtLlmBackend.TrtLlmExecutorBackend.HandleResponse | src/backends/trtllm/trtllm_executor_backend.cpp:518-627 | an unknown id changes nothing; otherwise only that request changes, it is answered as its response says, and it is unlisted exactly when it got its Terminal |
| TrtLlmBackend.TrtLlmExecutorBackend.EraseRequest | src/backends/trtllm/trtllm_executor_backend.cpp:671-688 | afterwards the request is not listed, exactly its external id went with it if it was, and every other request is listed as before |
| TrtLlmBackend.TrtLlmExecutorBackend.FinalizeRequest | src/backends/trtllm/trtllm_executor_backend.cpp:690-707 | a request whose mailbox was closed before its Terminal stays as it is, listed; any other has exactly one Terminal, the same deltas, and is not listed; no other request changes |
| TrtLlmBackend.TrtLlmExecutorBackend.FinalizeAll | src/backends/trtllm/trtllm_executor_backend.cpp:709-720 | afterwards exactly the requests whose mailbox cannot take a Terminal are listed, all others have theirs |
| TrtLlmBackend.TrtLlmExecutorBackend.Stop | src/backends/trtllm/trtllm_executor_backend.cpp:254-324 | Stopped means every request ever accepted has exactly one Terminal, whatever ids the executor used; without a repeated id it ends in Stopped exactly when no listed mailbox was closed before its Terminal |
| Framing.EncodeFrame | src/ipc/ipc_protocol.cpp:1165-1195 | a frame exactly for payloads of 1 to the limit bytes: the big-endian length in four bytes, then the payload; too long and empty give different errors |
| Framing.ChunkingIndependence | src/ipc/ipc_protocol.cpp:1211-1269 | for every cut of the bytes the final state is that of the bytes alone; without a failure all completed payloads are handed out, with one a prefix of them |
| Framing.AnyTwoSplits | src/ipc/ipc_protocol.cpp:1211-1269 | two cuts of the same bytes end in the same state; equal output without a failure, one a prefix of the other with one |
| Framing.FailureLosesExactly | src/ipc/ipc_protocol.cpp:1234-1242 | for every cut of a failing stream the output is exactly the payloads completed before the call that fails, and it is the full output if and only if that call completed none |
| Framing.SomeCallFails | src/ipc/ipc_protocol.cpp:1211-1269 | every failing stream has such a call |
| Framing.FailureDropsOwnPayloads | src/ipc/ipc_protocol.cpp:1234-1242 | a concrete stream where one cut delivers a payload and another does not |
| Framing.FeedOk | src/ipc/ipc_protocol.cpp:1211-1269 | the buffered payload stays below the announced size and the limit, every payload handed out is legal |
| Framing.RoundTrip | src/ipc/ipc_protocol.cpp:1165-1286 | encoded payloads cut up in any way decode to exactly these payloads with no partial frame left |
| Framing.PullAgreesWithPush | clients/python/kim_llm_client/generation_client.py:600-623 | on every byte stream the client's pull reader yields the payloads of the push decoder and stops on a bad header exactly when it fails, with the same error |
| Framing.PullReadsBack | clients/python/kim_llm_client/generation_client.py:600-623 | the pull reader gets back exactly the framed payloads and then the end of the stream |
| FrameDecoder.FrameDecoder.Feed | src/ipc/ipc_protocol.cpp:1211-1269 | the block-copying loop ends in the state of the byte-by-byte decoder and hands out its payloads, or nothing if it fails |
| FrameDecoder.FrameDecoder.Reset | src/ipc/ipc_protocol.cpp:1271-1278 | back to the idle state |
| FrameDecoder.Connection.ReceiveExact | clients/python/kim_llm_client/generation_client.py:613-623 | the next `size` bytes however they arrive, or end of stream |
| FrameDecoder.Connection.ReceiveFrame | clients/python/kim_llm_client/generation_client.py:600-611 | the next frame of the stream, end of stream, or the same error as the decoder |
| SloPolicy.Configure | src/runtime/slo_admission_policy.cpp:11-48 | succeeds exactly for a named, positive, non-empty profile of valid buckets with distinct keys, and keeps them sorted |
| SloPolicy.SortedFindsDuplicates | src/runtime/slo_admission_policy.cpp:31-47 | after sorting, comparing neighbours finds a duplicate key exactly when the configured entries have one |
| SloPolicy.AnswersByLeastCover | src/runtime/slo_admission_policy.cpp:50-78 | the first match in the sorted profile is the lexicographically least configured bucket covering the request, and there is none exactly when no bucket covers it |
| SloPolicy.AdmitsExactlyWhenInTime | src/runtime/slo_admission_policy.cpp:50-78 | below the active limit a request is admitted exactly when that bucket meets the objective |
| SloPolicy.PermutationInvariance | src/runtime/slo_admission_policy.cpp:31-78 | the answer does not depend on the order of the configured entries |
| Gateway.IncrementalDecoder.Append | gateway/python/kim_llm_gateway/runtime.py:387-402 | returns the text the chunk adds, or an error exactly when decoding would change emitted text |
| Gateway.OnDelta | gateway/python/kim_llm_gateway/runtime.py:487-503 | drops exactly when the decoding breaks or new text is refused |
| Gateway.Pump | gateway/python/kim_llm_gateway/runtime.py:482-503 | the emitted texts concatenate to the decoding at once of all chunks before the first one that breaks or is refused |
| Gateway.GrowingDecodeNeverBreaks | gateway/python/kim_llm_gateway/runtime.py:393-402 | with a tokenizer whose decoding only grows, no chunking breaks the stream |
| Gateway.GaugeIsExact | gateway/python/kim_llm_gateway/runtime.py:200-213 | in every run the shared gauge equals the buffered deltas over all sessions, so its floor at zero is never used |

## Left out

- Runtime.AdmissionController.TryAcquire: takes the storage slot of the new lease as an unused one, since a lease object is always constructed in fresh storage.
- PumpLoop.RequestPumpLoop: what the other threads do is a finite list of rounds, each with any backend steps, a cancel and an answer of the egress; the full interleavings are in `System`.
- Runtime.GenerationRuntime.Stop: the leases the backend returns are a parameter; that they are all of them when the backend ends in Stopped is `Serving.StopFollowsBackend`.
- Admission.Conservation: a Terminal commit appears as the release it causes; the commit itself is a step of `Serving`.
- SloPolicy.SortProfile: uses only that sorting gives a sorted rearrangement; the library's sorting algorithm is not modelled.
- System.ReconnectOk: a late sender that still holds the closed socket of the lost connection after a reconnect is modelled by a failed send, which is what a closed socket gives it.
- The bridge, the gateway's asynchronous buffer and its metrics are modelled on values: their update in place and the aliasing of records between threads appear as steps on a state, not as heap objects.
- The handshake, sockets, polling, thread creation and joining, and condition-variable timing.
- JSON text and the truncation of status messages; a message has an arbitrary encoded size instead.
- The TensorRT-LLM executor, the tokenizer, clocks and deadlines: arbitrary answers.
- Request validation in the runtime and the backend beyond what admission needs: it reads one request and no shared state, and a refusal is the step that refuses a Submit.
- Rounding, infinities and not-a-number in the latency policy, whose numbers are reals here.
- HTTP and SSE, configuration loading, fingerprints, metrics rendering, benchmarks.
- That a Terminal eventually arrives, which depends on the backend; bounds and safety are proved instead.
