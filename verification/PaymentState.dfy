/** The payment stream dispatcher (`sendPayment` in `oblnd/rpcserver.go`) as a state machine: the receiver
    goroutine, the send loop, one worker goroutine per payment, the token semaphore and the error channel. */
module PaymentState {

  /** `numOutstandingPayments`. */
  const NUM_OUTSTANDING_PAYMENTS := 2000

  datatype Receiver =
    | Reading                 // in stream.recv, or at the top of its loop
    | Replying(req: nat)      // the request was malformed; about to send the error reply
    | Handing(req: nat)       // offering the request on payChan
    | Gone

  datatype Worker =
    | Waiting                 // for a token
    | Dispatching             // holds a token; the payment is under way
    | Blocked                 // the route could not be marshalled; in the blocking send on errChan
    | Releasing               // in the deferred return of the token
    | Finished

  datatype Loop = Looping | Draining | ReturnedNil | ReturnedError

  datatype State = State(
    receiver: Receiver,
    loop: Loop,
    payClosed: bool,            // payChan
    errFull: bool,              // errChan, capacity one
    tokens: nat,                // htlcSema
    workers: map<nat, Worker>,  // by request
    // history
    requests: nat,              // requests received so far; they are numbered from zero
    sends: map<nat, nat>,       // calls of stream.send per request
    failed: set<nat>)           // requests whose dispatch ended in a save or marshal error

  const START: State :=
    State(Reading, Looping, false, false, NUM_OUTSTANDING_PAYMENTS, map[], 0, map[], {})

  datatype Event =
    | RecvEof | RecvError | RecvMalformed | RecvPayment | RecvStop
    | Reply(ok: bool)
    | Hand
    | LoopError | LoopQuit | LoopEof | LoopDone
    | Take(req: nat)
    | GiveUp(req: nat)
    | SaveFails(req: nat)
    | Answer(req: nat, ok: bool)   // the payment error or the preimage is sent; `ok` is the outcome of the send
    | MarshalFails(req: nat)
    | Push(req: nat)
    | Release(req: nat)

  predicate Returned(s: State) {
    s.loop == ReturnedNil || s.loop == ReturnedError
  }

  predicate In(s: State, req: nat, w: Worker) {
    req in s.workers && s.workers[req] == w
  }

  function Sends(s: State, req: nat): nat {
    if req in s.sends then s.sends[req] else 0
  }

  predicate Enabled(s: State, e: Event) {
    match e
    case RecvEof => s.receiver == Reading
    case RecvError => s.receiver == Reading
    case RecvMalformed => s.receiver == Reading
    case RecvPayment => s.receiver == Reading
    case RecvStop => Returned(s) && (s.receiver == Reading || s.receiver.Handing?)
    case Reply(_) => s.receiver.Replying?
    case Hand => s.receiver.Handing? && s.loop == Looping
    case LoopError => s.loop == Looping && s.errFull
    case LoopQuit => s.loop == Looping
    case LoopEof => s.loop == Looping && s.payClosed
    case LoopDone => s.loop == Draining && s.receiver == Gone && forall r :: r in s.workers ==> s.workers[r] == Finished
    case Take(r) => In(s, r, Waiting) && s.tokens > 0
    case GiveUp(r) => In(s, r, Waiting) && Returned(s)
    case SaveFails(r) => In(s, r, Dispatching)
    case Answer(r, _) => In(s, r, Dispatching)
    case MarshalFails(r) => In(s, r, Dispatching)
    case Push(r) => In(s, r, Blocked) && !s.errFull
    case Release(r) => In(s, r, Releasing) && s.tokens < NUM_OUTSTANDING_PAYMENTS
  }

  function Sent(s: State, req: nat): State {
    s.(sends := s.sends[req := Sends(s, req) + 1])
  }

  /** A non-blocking send on errChan: it takes effect only when the channel is empty, so it is full either way. */
  function Reported(s: State): State {
    s.(errFull := true)
  }

  function Moved(s: State, req: nat, w: Worker): State {
    s.(workers := s.workers[req := w])
  }

  function Next(s: State, e: Event): State
    requires Enabled(s, e)
  {
    match e
    case RecvEof => s.(payClosed := true, receiver := Gone)
    case RecvError => Reported(s).(receiver := Gone)
    case RecvMalformed => s.(receiver := Replying(s.requests), requests := s.requests + 1)
    case RecvPayment => s.(receiver := Handing(s.requests), requests := s.requests + 1)
    case RecvStop => s.(receiver := Gone)
    case Reply(ok) =>
      var t := Sent(s, s.receiver.req);
      if ok then t.(receiver := Reading) else Reported(t).(receiver := Gone)
    case Hand => Moved(s, s.receiver.req, Waiting).(receiver := Reading)
    case LoopError => s.(errFull := false, loop := ReturnedError)
    case LoopQuit => s.(loop := ReturnedError)
    case LoopEof => s.(loop := Draining)
    case LoopDone => s.(loop := ReturnedNil)
    case Take(r) => Moved(s, r, Dispatching).(tokens := s.tokens - 1)
    case GiveUp(r) => Moved(s, r, Finished)
    case SaveFails(r) => Reported(Moved(s, r, Releasing)).(failed := s.failed + {r})
    case Answer(r, ok) =>
      var t := Sent(Moved(s, r, Releasing), r);
      if ok then t else Reported(t)
    case MarshalFails(r) => Moved(s, r, Blocked).(failed := s.failed + {r})
    case Push(r) => Moved(s, r, Releasing).(errFull := true)
    case Release(r) => Moved(s, r, Finished).(tokens := s.tokens + 1)
  }

  /** The run exists: every event could happen when it did. */
  predicate IsRun(events: seq<Event>)
    decreases |events|, 0
  {
    events == [] ||
    (IsRun(events[..|events| - 1]) && Enabled(After(events[..|events| - 1]), events[|events| - 1]))
  }

  /** The state a run from the start of the call leads to. */
  function After(events: seq<Event>): State
    requires IsRun(events)
    decreases |events|, 1
  {
    if events == [] then START
    else Next(After(events[..|events| - 1]), events[|events| - 1])
  }
}
