/** The payment stream in imperative form: the shared channels, semaphore and goroutine positions are fields, and
    each method is one atomic step of the receiver, the send loop or a worker, proved to be a step of PaymentState. */
module PaymentStream {
  import opened PaymentState

  /** The loop that fills htlcSema. */
  method FillSemaphore() returns (htlcSema: nat)
    ensures htlcSema == START.tokens
  {
    htlcSema := 0;
    for i := 0 to NUM_OUTSTANDING_PAYMENTS
      invariant htlcSema == i
    {
      htlcSema := htlcSema + 1;
    }
  }

  /** What `stream.recv` and `extractPaymentIntent` produced. */
  datatype Reading = Eof | Failure | Malformed | Payment

  /** How a dispatched payment went: `dispatchPaymentIntent` could not save it, the route could not be marshalled,
      or there is something to send, and the send succeeds or not. */
  datatype Dispatch = SaveError | MarshalError | Response(sendOk: bool)

  class Stream {
    var receiver: Receiver
    var loop: Loop
    var payClosed: bool
    var errFull: bool
    var htlcSema: nat
    var workers: map<nat, Worker>
    var requests: nat
    ghost var sends: map<nat, nat>
    ghost var failed: set<nat>

    ghost function Abs(): State
      reads this
    {
      State(receiver, loop, payClosed, errFull, htlcSema, workers, requests, sends, failed)
    }

    constructor ()
      ensures Abs() == START
    {
      receiver, loop, payClosed, errFull := Receiver.Reading, Looping, false, false;
      workers, requests, sends, failed := map[], 0, map[], {};
      new;
      htlcSema := FillSemaphore();
    }

    ghost function ReadEvent(r: Reading): Event {
      match r
      case Eof => RecvEof
      case Failure => RecvError
      case Malformed => RecvMalformed
      case Payment => RecvPayment
    }

    /** The receiver reads the next request. */
    method Receive(r: Reading)
      requires receiver == Receiver.Reading
      modifies this
      ensures Enabled(old(Abs()), ReadEvent(r)) && Abs() == Next(old(Abs()), ReadEvent(r))
      ensures payClosed == (old(payClosed) || r.Eof?) && errFull == (old(errFull) || r.Failure?)
      ensures r.Malformed? ==> receiver == Replying(old(requests)) && requests == old(requests) + 1
      ensures r.Payment? ==> receiver == Handing(old(requests)) && requests == old(requests) + 1
    {
      match r {
        case Eof =>
          payClosed := true;
          receiver := Gone;
        case Failure =>
          TryReport();
          receiver := Gone;
        case Malformed =>
          receiver := Replying(requests);
          requests := requests + 1;
        case Payment =>
          receiver := Handing(requests);
          requests := requests + 1;
      }
    }

    /** The non-blocking send on errChan. */
    method TryReport()
      modifies this`errFull
      ensures errFull
    {
      if !errFull {
        errFull := true;
      }
    }

    method ReplyMalformed(sendOk: bool)
      requires receiver.Replying?
      modifies this
      ensures Enabled(old(Abs()), Reply(sendOk)) && Abs() == Next(old(Abs()), Reply(sendOk))
    {
      var req := receiver.req;
      sends := sends[req := (if req in sends then sends[req] else 0) + 1];
      if sendOk {
        receiver := Receiver.Reading;
      } else {
        TryReport();
        receiver := Gone;
      }
    }

    /** The receiver's request meets the send loop, which starts a worker for it. */
    method HandOver()
      requires Enabled(Abs(), Hand)
      modifies this
      ensures Abs() == Next(old(Abs()), Hand)
    {
      workers := workers[receiver.req := Waiting];
      receiver := Receiver.Reading;
    }

    /** A worker takes a token, or gives up because the call has returned. */
    method TakeToken(req: nat, quit: bool)
      requires Enabled(Abs(), if quit then GiveUp(req) else Take(req))
      modifies this
      ensures Abs() == Next(old(Abs()), if quit then GiveUp(req) else Take(req))
    {
      if quit {
        workers := workers[req := Finished];
      } else {
        htlcSema := htlcSema - 1;
        workers := workers[req := Dispatching];
      }
    }

    ghost function DispatchEvent(req: nat, d: Dispatch): Event {
      match d
      case SaveError => SaveFails(req)
      case MarshalError => MarshalFails(req)
      case Response(ok) => Answer(req, ok)
    }

    /** A worker's payment completes. */
    method Complete(req: nat, d: Dispatch)
      requires In(Abs(), req, Dispatching)
      modifies this
      ensures Enabled(old(Abs()), DispatchEvent(req, d)) && Abs() == Next(old(Abs()), DispatchEvent(req, d))
      ensures errFull == (old(errFull) || d == SaveError || d == Response(false))
      ensures Sends(Abs(), req) == Sends(old(Abs()), req) + if d.Response? then 1 else 0
      ensures workers == old(workers)[req := if d.MarshalError? then Blocked else Releasing]
    {
      match d {
        case SaveError =>
          failed := failed + {req};
          TryReport();
          workers := workers[req := Releasing];
        case MarshalError =>
          failed := failed + {req};
          workers := workers[req := Blocked];
        case Response(sendOk) =>
          sends := sends[req := (if req in sends then sends[req] else 0) + 1];
          if !sendOk {
            TryReport();
          }
          workers := workers[req := Releasing];
      }
    }

    /** The blocking send of a marshal error. */
    method PushError(req: nat)
      requires Enabled(Abs(), Push(req))
      modifies this
      ensures Abs() == Next(old(Abs()), Push(req))
    {
      errFull := true;
      workers := workers[req := Releasing];
    }

    /** The deferred return of the token. */
    method ReturnToken(req: nat)
      requires Enabled(Abs(), Release(req))
      modifies this
      ensures Abs() == Next(old(Abs()), Release(req))
    {
      htlcSema := htlcSema + 1;
      workers := workers[req := Finished];
    }

    /** The send loop's choices other than accepting a request, and the end of its wait. */
    method Leave(e: Event)
      requires Enabled(Abs(), e) && (e.LoopError? || e.LoopQuit? || e.LoopEof? || e.LoopDone?)
      modifies this`loop, this`errFull
      ensures Abs() == Next(old(Abs()), e)
    {
      match e {
        case LoopError =>
          errFull := false;
          loop := ReturnedError;
        case LoopQuit => loop := ReturnedError;
        case LoopEof => loop := Draining;
        case LoopDone => loop := ReturnedNil;
      }
    }
  }
}
