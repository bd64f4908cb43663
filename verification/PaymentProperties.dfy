/** What holds of the payment stream over every run: tokens are conserved, no request is answered twice, a nil
    return means everything was answered, and the final wait ends with it. */
module PaymentProperties {
  import opened PaymentState

  predicate HoldsToken(w: Worker) {
    w == Dispatching || w == Blocked || w == Releasing
  }

  ghost function HoldersOf(workers: map<nat, Worker>): set<nat> {
    set r | r in workers && HoldsToken(workers[r])
  }

  ghost function Holders(s: State): set<nat> {
    HoldersOf(s.workers)
  }

  predicate InHand(s: State, req: nat) {
    (s.receiver.Replying? || s.receiver.Handing?) && s.receiver.req == req
  }

  ghost predicate TokensOk(s: State) {
    s.tokens + |Holders(s)| == NUM_OUTSTANDING_PAYMENTS
  }

  /** Where a request is, and what it was sent so far. */
  ghost predicate RequestOk(s: State, r: nat) {
    && (r in s.workers || InHand(s, r) ==> r < s.requests)
    && !(r in s.workers && InHand(s, r))
    && Sends(s, r) <= 1
    && ((r >= s.requests || InHand(s, r) || In(s, r, Waiting) || In(s, r, Dispatching) || r in s.failed) ==>
          Sends(s, r) == 0)
    && (r in s.failed ==> r in s.workers && s.workers[r] != Waiting && s.workers[r] != Dispatching)
    && (In(s, r, Blocked) ==> r in s.failed)
    && (r < s.requests && r !in s.workers && !InHand(s, r) ==> Sends(s, r) == 1 || s.loop == ReturnedError)
    && (In(s, r, Releasing) ==> Sends(s, r) == 1 || r in s.failed)
    && (In(s, r, Finished) ==> Sends(s, r) == 1 || r in s.failed || s.loop == ReturnedError)
  }

  ghost predicate LoopOk(s: State) {
    && (s.payClosed ==> s.receiver == Gone)
    && (s.loop == Draining || s.loop == ReturnedNil ==> s.payClosed)
    && (s.loop == ReturnedNil ==> forall r :: r in s.workers ==> s.workers[r] == Finished)
  }

  ghost predicate Inv(s: State) {
    TokensOk(s) && LoopOk(s) && forall r: nat :: RequestOk(s, r)
  }

  lemma MovedHolders(workers: map<nat, Worker>, r: nat, w: Worker)
    ensures |HoldersOf(workers[r := w])| == |HoldersOf(workers)| + (if HoldsToken(w) then 1 else 0)
                                          - (if r in workers && HoldsToken(workers[r]) then 1 else 0)
  {
    var t := workers[r := w];
    if HoldsToken(w) {
      assert HoldersOf(t) == HoldersOf(workers) + {r};
    } else {
      assert HoldersOf(t) == HoldersOf(workers) - {r};
    }
  }

  lemma StepTokens(s: State, e: Event)
    requires Enabled(s, e) && TokensOk(s) && (e.Hand? ==> s.receiver.req !in s.workers)
    ensures TokensOk(Next(s, e))
  {
    match e
    case Hand => MovedHolders(s.workers, s.receiver.req, Waiting);
    case Take(r) => MovedHolders(s.workers, r, Dispatching);
    case GiveUp(r) => MovedHolders(s.workers, r, Finished);
    case SaveFails(r) => MovedHolders(s.workers, r, Releasing);
    case Answer(r, _) => MovedHolders(s.workers, r, Releasing);
    case MarshalFails(r) => MovedHolders(s.workers, r, Blocked);
    case Push(r) => MovedHolders(s.workers, r, Releasing);
    case Release(r) => MovedHolders(s.workers, r, Finished);
    case _ =>
  }

  ghost predicate IsWorkerStep(e: Event) {
    e.Take? || e.GiveUp? || e.SaveFails? || e.Answer? || e.MarshalFails? || e.Push? || e.Release?
  }

  lemma ReceiverStepRequests(s: State, e: Event, r: nat)
    requires Enabled(s, e) && LoopOk(s) && RequestOk(s, r)
    requires e.RecvEof? || e.RecvError? || e.RecvMalformed? || e.RecvPayment? || e.RecvStop? || e.Reply? || e.Hand?
    ensures RequestOk(Next(s, e), r)
  {
  }

  lemma LoopStepRequests(s: State, e: Event, r: nat)
    requires Enabled(s, e) && LoopOk(s) && RequestOk(s, r)
    requires e.LoopError? || e.LoopQuit? || e.LoopEof? || e.LoopDone?
    ensures RequestOk(Next(s, e), r)
  {
  }

  /** A worker's step only concerns its own request. */
  lemma OwnStepRequests(s: State, e: Event)
    requires IsWorkerStep(e) && Enabled(s, e) && LoopOk(s) && RequestOk(s, e.req)
    ensures RequestOk(Next(s, e), e.req)
  {
  }

  /** Nothing about request `r` differs between the two states. */
  ghost predicate Untouched(s: State, t: State, r: nat) {
    && t.receiver == s.receiver && t.loop == s.loop && t.requests == s.requests
    && (r in t.workers <==> r in s.workers) && (r in s.workers ==> t.workers[r] == s.workers[r])
    && (r in t.failed <==> r in s.failed) && Sends(t, r) == Sends(s, r)
  }

  lemma OtherStepUntouched(s: State, e: Event, r: nat)
    requires IsWorkerStep(e) && Enabled(s, e) && e.req != r
    ensures Untouched(s, Next(s, e), r)
  {
  }

  lemma UntouchedRequests(s: State, t: State, r: nat)
    requires RequestOk(s, r) && Untouched(s, t, r)
    ensures RequestOk(t, r)
  {
  }

  lemma StepRequests(s: State, e: Event, r: nat)
    requires Enabled(s, e) && LoopOk(s) && RequestOk(s, r)
    ensures RequestOk(Next(s, e), r)
  {
    if !IsWorkerStep(e) {
      if e.LoopError? || e.LoopQuit? || e.LoopEof? || e.LoopDone? {
        LoopStepRequests(s, e, r);
      } else {
        ReceiverStepRequests(s, e, r);
      }
    } else if e.req == r {
      OwnStepRequests(s, e);
    } else {
      OtherStepUntouched(s, e, r);
      UntouchedRequests(s, Next(s, e), r);
    }
  }

  lemma StepLoop(s: State, e: Event)
    requires Enabled(s, e) && LoopOk(s)
    ensures LoopOk(Next(s, e))
  {
  }

  lemma {:induction false} RunInv(events: seq<Event>)
    requires IsRun(events)
    ensures Inv(After(events))
    decreases |events|
  {
    if events == [] {
      assert Holders(START) == {};
    } else {
      var front := events[..|events| - 1];
      var e := events[|events| - 1];
      RunInv(front);
      var s := After(front);
      assert e.Hand? ==> RequestOk(s, s.receiver.req);
      StepTokens(s, e);
      StepLoop(s, e);
      forall r: nat ensures RequestOk(After(events), r) {
        StepRequests(s, e, r);
      }
    }
  }

  /** Free tokens and their holders always make up the 2000, so giving one back never blocks. */
  lemma TokensConserved(events: seq<Event>, req: nat)
    requires IsRun(events)
    ensures var s := After(events);
            && s.tokens + |Holders(s)| == 2000
            && (In(s, req, Releasing) ==> Enabled(s, Release(req)))
  {
    RunInv(events);
    var s := After(events);
    if In(s, req, Releasing) {
      assert req in Holders(s);
    }
  }

  lemma AtMostOneAnswer(events: seq<Event>, req: nat)
    requires IsRun(events)
    ensures Sends(After(events), req) <= 1
  {
    RunInv(events);
    assert RequestOk(After(events), req);
  }

  /** When the call returns nil, all goroutines are done and every request got exactly one answer, except those
      whose dispatch ended in a save or marshal error: they got none. */
  lemma NilReturnAnsweredAll(events: seq<Event>, req: nat)
    requires IsRun(events) && After(events).loop == ReturnedNil && req < After(events).requests
    ensures var s := After(events);
            && s.receiver == Gone
            && (forall r :: r in s.workers ==> s.workers[r] == Finished)
            && Sends(s, req) == if req in s.failed then 0 else 1
  {
    RunInv(events);
    assert RequestOk(After(events), req);
  }

  // ---- returning an error

  lemma StaysReturned(s: State, e: Event)
    requires Enabled(s, e) && (e.LoopError? || e.LoopQuit? || s.loop == ReturnedError)
    ensures Next(s, e).loop == ReturnedError
  {
  }

  /** Once the send loop takes an error, or sees the server shut down, the call has returned an error for good. */
  lemma {:induction false} ErrorReturnIsFinal(events: seq<Event>, i: nat)
    requires IsRun(events) && i < |events| && (events[i].LoopError? || events[i].LoopQuit?)
    ensures After(events).loop == ReturnedError
    decreases |events|
  {
    var front := events[..|events| - 1];
    if i < |front| {
      ErrorReturnIsFinal(front, i);
    }
    StaysReturned(After(front), events[|events| - 1]);
  }

  /** Returning an error frees the workers: those waiting for a token can give up, a blocked one can push its error
      into the emptied channel, and the receiver need not hand its request over. */
  lemma ErrorReturnFrees(events: seq<Event>, r: nat)
    requires IsRun(events) && Enabled(After(events), LoopError)
    ensures var s := Next(After(events), LoopError);
            && s.loop == ReturnedError
            && (In(s, r, Waiting) ==> Enabled(s, GiveUp(r)))
            && (In(s, r, Blocked) ==> Enabled(s, Push(r)))
            && (s.receiver.Handing? ==> Enabled(s, RecvStop) && !Enabled(s, Hand))
  {
  }

  // ---- where requests go

  /** Of each request received, in order, whether it was well formed. */
  function Kinds(events: seq<Event>): seq<bool> {
    if events == [] then [] else Kinds(events[..|events| - 1]) + Kind(events[|events| - 1])
  }

  function Kind(e: Event): seq<bool> {
    if e.RecvMalformed? then [false] else if e.RecvPayment? then [true] else []
  }

  /** A well-formed request has a worker or is being handed to the send loop, which stops accepting only when the call
      returns; a malformed one was answered by the receiver, or is about to be, and never has a worker. */
  ghost predicate Sorted(s: State, kinds: seq<bool>) {
    && |kinds| == s.requests
    && (forall r :: r in s.workers ==> r < |kinds| && kinds[r])
    && (s.receiver.Handing? ==> s.receiver.req < |kinds| && kinds[s.receiver.req])
    && (s.receiver.Replying? ==> s.receiver.req < |kinds| && !kinds[s.receiver.req])
    && (forall r :: 0 <= r < |kinds| && kinds[r] ==> r in s.workers || s.receiver == Handing(r) || Returned(s))
    && (forall r :: 0 <= r < |kinds| && !kinds[r] ==> Sends(s, r) == 1 || s.receiver == Replying(r))
  }

  lemma ReceiverSorts(s: State, e: Event, kinds: seq<bool>)
    requires Enabled(s, e) && Sorted(s, kinds) && (s.receiver.Replying? ==> Sends(s, s.receiver.req) == 0)
    requires e.RecvEof? || e.RecvError? || e.RecvMalformed? || e.RecvPayment? || e.RecvStop? || e.Reply? || e.Hand?
    ensures Sorted(Next(s, e), kinds + Kind(e))
  {
  }

  lemma WorkersSort(s: State, e: Event, kinds: seq<bool>)
    requires Enabled(s, e) && Sorted(s, kinds) && IsWorkerStep(e)
    ensures Sorted(Next(s, e), kinds)
  {
  }

  lemma SortedStep(s: State, e: Event, kinds: seq<bool>)
    requires Enabled(s, e) && Sorted(s, kinds) && (s.receiver.Replying? ==> Sends(s, s.receiver.req) == 0)
    ensures Sorted(Next(s, e), kinds + Kind(e))
  {
    if IsWorkerStep(e) {
      WorkersSort(s, e, kinds);
      assert kinds + [] == kinds;
    } else if !e.LoopError? && !e.LoopQuit? && !e.LoopEof? && !e.LoopDone? {
      ReceiverSorts(s, e, kinds);
    } else {
      assert kinds + [] == kinds;
    }
  }

  /** Requests are counted as they come, and each goes where it belongs. */
  lemma {:induction false} RequestsAreSorted(events: seq<Event>)
    requires IsRun(events)
    ensures Sorted(After(events), Kinds(events))
    decreases |events|
  {
    if events != [] {
      var front := events[..|events| - 1];
      RequestsAreSorted(front);
      RunInv(front);
      var s := After(front);
      assert s.receiver.Replying? ==> RequestOk(s, s.receiver.req);
      SortedStep(s, events[|events| - 1], Kinds(front));
    }
  }

  /** The receiver reads nothing more after the end of the stream, a failed receive or a failed reply. */
  lemma {:induction false} ReceiverStops(events: seq<Event>, i: nat)
    requires IsRun(events) && i < |events|
    requires events[i].RecvEof? || events[i].RecvError? || events[i] == Reply(false)
    ensures After(events).receiver == Gone
    decreases |events|
  {
    var front := events[..|events| - 1];
    if i < |front| {
      ReceiverStops(front, i);
    }
    GoneStep(After(front), events[|events| - 1]);
  }

  lemma GoneStep(s: State, e: Event)
    requires Enabled(s, e)
    requires e.RecvEof? || e.RecvError? || e == Reply(false) || s.receiver == Gone
    ensures Next(s, e).receiver == Gone
  {
  }

  // ---- the final wait

  ghost function At(workers: map<nat, Worker>, w: Worker): set<nat> {
    set r | r in workers && workers[r] == w
  }

  /** How many steps the workers can still take, one more for the return. */
  ghost function Remaining(s: State): nat {
    4 * |At(s.workers, Waiting)| + 3 * |At(s.workers, Dispatching)| + 2 * |At(s.workers, Blocked)|
    + |At(s.workers, Releasing)| + if s.loop == Draining then 1 else 0
  }

  lemma MovedAt(workers: map<nat, Worker>, r: nat, to: Worker, w: Worker)
    requires r in workers && workers[r] != to
    ensures |At(workers[r := to], w)| == |At(workers, w)| + (if w == to then 1 else 0)
                                       - (if w == workers[r] then 1 else 0)
  {
    if w == to {
      assert At(workers[r := to], w) == At(workers, w) + {r};
    } else {
      assert At(workers[r := to], w) == At(workers, w) - {r};
    }
  }

  lemma MovedRemaining(s: State, r: nat, to: Worker)
    requires r in s.workers && s.workers[r] != to
    ensures forall w :: |At(s.workers[r := to], w)| == |At(s.workers, w)| + (if w == to then 1 else 0)
                                                     - (if w == s.workers[r] then 1 else 0)
  {
    forall w ensures |At(s.workers[r := to], w)| == |At(s.workers, w)| + (if w == to then 1 else 0)
                                                  - (if w == s.workers[r] then 1 else 0) {
      MovedAt(s.workers, r, to, w);
    }
  }

  /** While the call waits for its workers every possible step brings it closer to the return. */
  lemma DrainIsFinite(events: seq<Event>, e: Event)
    requires IsRun(events) && After(events).loop == Draining && Enabled(After(events), e)
    ensures Remaining(Next(After(events), e)) < Remaining(After(events))
    ensures Next(After(events), e).loop == Draining || e == LoopDone
  {
    RunInv(events);
    var s := After(events);
    match e
    case Take(r) => MovedRemaining(s, r, Dispatching);
    case SaveFails(r) => MovedRemaining(s, r, Releasing);
    case Answer(r, _) => MovedRemaining(s, r, Releasing);
    case MarshalFails(r) => MovedRemaining(s, r, Blocked);
    case Push(r) => MovedRemaining(s, r, Releasing);
    case Release(r) => MovedRemaining(s, r, Finished);
    case _ =>
  }

  lemma BlockedStep(s: State, e: Event, r: nat)
    requires Enabled(s, e) && In(Next(s, e), r, Blocked) && !In(s, r, Blocked)
    ensures e == MarshalFails(r)
  {
  }

  /** A worker only ever blocks because its own route could not be marshalled. */
  lemma {:induction false} BlockedByMarshalError(events: seq<Event>, r: nat)
    requires IsRun(events) && In(After(events), r, Blocked)
    ensures MarshalFails(r) in events
    decreases |events|
  {
    var front := events[..|events| - 1];
    var last := events[|events| - 1];
    assert events == front + [last];
    if In(After(front), r, Blocked) {
      BlockedByMarshalError(front, r);
    } else {
      BlockedStep(After(front), last, r);
    }
  }

  lemma Extend(events: seq<Event>, e: Event) returns (longer: seq<Event>)
    requires IsRun(events) && Enabled(After(events), e)
    ensures longer == events + [e] && IsRun(longer) && After(longer) == Next(After(events), e)
  {
    longer := events + [e];
    assert longer[..|longer| - 1] == events;
  }

  /** After the client closed the stream nothing reads errChan any more, so it takes one marshal error at most. */
  ghost predicate CanReturn(s: State) {
    var blocked := |At(s.workers, Blocked)|;
    blocked == 0 || (blocked == 1 && !s.errFull)
  }

  lemma NobodyBlocked(s: State, r: nat)
    requires At(s.workers, Blocked) == {}
    ensures !In(s, r, Blocked)
  {
    assert r !in At(s.workers, Blocked);
  }

  /** Somebody who is not done can move, or the holder of a token can. */
  lemma WorkerCanMove(s: State, r: nat) returns (e: Event)
    requires Inv(s) && At(s.workers, Blocked) == {} && r in s.workers && s.workers[r] != Finished
    ensures Enabled(s, e) && (e.Take? || (e.Answer? && e.ok) || e.Release?)
  {
    NobodyBlocked(s, r);
    if s.workers[r] == Waiting && s.tokens > 0 {
      e := Take(r);
    } else {
      var h := r;
      if s.workers[r] == Waiting {
        assert Holders(s) != {};
        h :| h in Holders(s);
        NobodyBlocked(s, h);
      }
      assert h in Holders(s);
      e := if s.workers[h] == Dispatching then Answer(h, true) else Release(h);
    }
  }

  lemma CanStillReturn(s: State) returns (e: Event)
    requires Inv(s) && s.loop == Draining && CanReturn(s)
    ensures Enabled(s, e) && !e.MarshalFails? && CanReturn(Next(s, e))
  {
    if At(s.workers, Blocked) != {} {
      var r :| r in At(s.workers, Blocked);
      e := Push(r);
      MovedAt(s.workers, r, Releasing, Blocked);
    } else if r :| r in s.workers && s.workers[r] != Finished {
      e := WorkerCanMove(s, r);
      MovedAt(s.workers, e.req, Next(s, e).workers[e.req], Blocked);
    } else {
      e := LoopDone;
    }
  }

  lemma {:induction false} ReturnIsReachable(events: seq<Event>) returns (more: seq<Event>)
    requires IsRun(events) && After(events).loop == Draining && CanReturn(After(events))
    ensures IsRun(events + more) && After(events + more).loop == ReturnedNil
    decreases Remaining(After(events))
  {
    RunInv(events);
    var e := CanStillReturn(After(events));
    var longer := Extend(events, e);
    DrainIsFinite(events, e);
    if e == LoopDone {
      more := [e];
    } else {
      var rest := ReturnIsReachable(longer);
      more := [e] + rest;
      assert events + more == longer + rest;
    }
  }

  // ---- when nil can be returned

  /** The call has returned nil, or has not returned yet, can still finish its workers, and the client has closed the
      stream or may still do so. */
  ghost predicate MayReturnNil(s: State) {
    || s.loop == ReturnedNil
    || ((s.loop == Looping || s.loop == Draining) && CanReturn(s) && (s.payClosed || s.receiver != Gone))
  }

  lemma HandKeepsBlocked(s: State)
    requires Enabled(s, Hand) && s.receiver.req !in s.workers
    ensures At(Next(s, Hand).workers, Blocked) == At(s.workers, Blocked)
  {
  }

  /** How far the receiver and the send loop are from the final wait. */
  function Distance(s: State): nat {
    if s.loop != Looping then 0 else if s.payClosed then 1 else if s.receiver == Reading then 2 else 3
  }

  lemma TowardsNil(s: State) returns (e: Event)
    requires Inv(s) && MayReturnNil(s) && s.loop == Looping
    ensures Enabled(s, e) && MayReturnNil(Next(s, e)) && Distance(Next(s, e)) < Distance(s)
  {
    e := if s.payClosed then LoopEof else if s.receiver == Reading then RecvEof
         else if s.receiver.Replying? then Reply(true) else Hand;
    if e.Hand? {
      assert RequestOk(s, s.receiver.req);
      HandKeepsBlocked(s);
    }
  }

  lemma {:induction false} NilIsReachable(events: seq<Event>) returns (more: seq<Event>)
    requires IsRun(events) && MayReturnNil(After(events))
    ensures IsRun(events + more) && After(events + more).loop == ReturnedNil
    decreases Distance(After(events))
  {
    var s := After(events);
    if s.loop == ReturnedNil {
      more := [];
      assert events + more == events;
    } else if s.loop == Draining {
      more := ReturnIsReachable(events);
    } else {
      RunInv(events);
      var e := TowardsNil(s);
      var longer := Extend(events, e);
      var rest := NilIsReachable(longer);
      more := [e] + rest;
      assert events + more == longer + rest;
    }
  }

  lemma StaysStuck(s: State, e: Event)
    requires Enabled(s, e) && !CanReturn(s) && (e.Hand? ==> s.receiver.req !in s.workers)
    ensures CanReturn(Next(s, e)) ==> e.LoopError? || (s.loop != Looping && s.loop != Draining)
    ensures e != LoopDone
  {
    assert At(s.workers, Blocked) != {};
    var b :| b in At(s.workers, Blocked);
    if IsWorkerStep(e) {
      MovedAt(s.workers, e.req, Next(s, e).workers[e.req], Blocked);
    } else if e.Hand? {
      HandKeepsBlocked(s);
    }
  }

  lemma NeverAgain(s: State, e: Event)
    requires Inv(s) && Enabled(s, e) && !MayReturnNil(s)
    ensures !MayReturnNil(Next(s, e))
  {
    if e.Hand? {
      assert RequestOk(s, s.receiver.req);
    }
    if !CanReturn(s) {
      StaysStuck(s, e);
    }
  }

  lemma {:induction false} NoReturn(events: seq<Event>, more: seq<Event>)
    requires IsRun(events) && !MayReturnNil(After(events)) && IsRun(events + more)
    ensures !MayReturnNil(After(events + more))
    decreases |more|
  {
    if more == [] {
      assert events + more == events;
    } else {
      var before := more[..|more| - 1];
      assert (events + more)[..|events + more| - 1] == events + before;
      NoReturn(events, before);
      RunInv(events + before);
      NeverAgain(After(events + before), more[|more| - 1]);
    }
  }

  /** After any run the call can still come to return nil if and only if it has not returned an error, its receiver is
      still there or has seen the end of the stream, and nobody is blocked on a marshal error, or one worker is and
      errChan is empty. */
  lemma NilReachableExactlyWhen(events: seq<Event>)
    requires IsRun(events)
    ensures (exists more :: IsRun(events + more) && After(events + more).loop == ReturnedNil)
            <==> MayReturnNil(After(events))
  {
    if MayReturnNil(After(events)) {
      var more := NilIsReachable(events);
      assert IsRun(events + more) && After(events + more).loop == ReturnedNil;
    } else {
      forall more | IsRun(events + more) ensures After(events + more).loop != ReturnedNil {
        NoReturn(events, more);
      }
    }
  }

  /** From the final wait the call can still return nil if and only if nobody is blocked on a marshal error, or
      one worker is and errChan is empty. */
  lemma ReturnsExactlyWhen(events: seq<Event>)
    requires IsRun(events) && After(events).loop == Draining
    ensures (exists more :: IsRun(events + more) && After(events + more).loop == ReturnedNil)
            <==> CanReturn(After(events))
  {
    RunInv(events);
    NilReachableExactlyWhen(events);
  }

  /** Once the client has closed the stream the send loop can leave, and unless a marshal error has left a worker
      blocked the call can then return nil. */
  lemma EofLetsTheCallReturn(events: seq<Event>)
    requires IsRun(events) && RecvEof in events && After(events).loop == Looping
    ensures Enabled(After(events), LoopEof)
    ensures (forall r :: !In(After(events), r, Blocked)) ==>
              exists more :: IsRun(events + more) && After(events + more).loop == ReturnedNil
  {
    var i :| 0 <= i < |events| && events[i] == RecvEof;
    EofCloses(events, i);
    var s := After(events);
    if forall r :: !In(s, r, Blocked) {
      assert forall r :: r in At(s.workers, Blocked) ==> In(s, r, Blocked);
      assert At(s.workers, Blocked) == {};
      NilReachableExactlyWhen(events);
    }
  }

  lemma StaysClosed(s: State, e: Event)
    requires Enabled(s, e) && (s.payClosed || e.RecvEof?)
    ensures Next(s, e).payClosed
  {
  }

  lemma {:induction false} EofCloses(events: seq<Event>, i: nat)
    requires IsRun(events) && i < |events| && events[i].RecvEof?
    ensures After(events).payClosed
    decreases |events|
  {
    var front := events[..|events| - 1];
    if i < |front| {
      EofCloses(front, i);
    }
    StaysClosed(After(front), events[|events| - 1]);
  }

  // ---- errors

  /** Receiving failed, a reply could not be sent, or a payment could not be saved. */
  predicate Fails(e: Event) {
    e.RecvError? || e == Reply(false) || e.SaveFails? || (e.Answer? && !e.ok)
  }

  predicate Causes(e: Event) {
    Fails(e) || e.Push?
  }

  lemma ReportStep(s: State, e: Event)
    requires Enabled(s, e)
    ensures Fails(e) || s.errFull || s.loop != Looping ==> Next(s, e).errFull || Next(s, e).loop != Looping
    ensures Next(s, e).errFull ==> s.errFull || Causes(e)
    ensures Next(s, e).loop == ReturnedError ==> s.loop == ReturnedError || s.errFull || e.LoopQuit?
  {
  }

  /** No error is lost: after any of them errChan is full or the send loop has been left. */
  lemma {:induction false} ErrorsAreReported(events: seq<Event>, i: nat)
    requires IsRun(events) && i < |events| && Fails(events[i])
    ensures After(events).errFull || After(events).loop != Looping
    decreases |events|
  {
    var front := events[..|events| - 1];
    ReportStep(After(front), events[|events| - 1]);
    if i < |front| {
      ErrorsAreReported(front, i);
    }
  }

  ghost predicate HasCause(events: seq<Event>) {
    exists i :: 0 <= i < |events| && Causes(events[i])
  }

  lemma CauseRemains(front: seq<Event>, events: seq<Event>)
    requires front <= events && HasCause(front)
    ensures HasCause(events)
  {
    var i :| 0 <= i < |front| && Causes(front[i]);
    assert events[i] == front[i];
  }

  /** And none is made up: errChan is only full, and the call only returns an error, after one of them, after a
      marshal error was pushed, or when the server shut down. */
  lemma {:induction false} ErrorsHaveCause(events: seq<Event>)
    requires IsRun(events)
    ensures After(events).errFull ==> HasCause(events)
    ensures After(events).loop == ReturnedError ==> HasCause(events) || LoopQuit in events
    decreases |events|
  {
    if events != [] {
      var front := events[..|events| - 1];
      ErrorsHaveCause(front);
      ReportStep(After(front), events[|events| - 1]);
      if HasCause(front) {
        CauseRemains(front, events);
      }
    }
  }

  lemma ReturnIsFinal(s: State, e: Event)
    requires Inv(s) && s.loop == ReturnedNil
    ensures !Enabled(s, e)
  {
  }

  lemma {:induction false} WaitIsBounded(events: seq<Event>, more: seq<Event>)
    requires IsRun(events) && After(events).loop == Draining && IsRun(events + more)
    ensures var t := After(events + more);
            (t.loop == Draining || t.loop == ReturnedNil) && |more| + Remaining(t) <= Remaining(After(events))
    decreases |more|
  {
    if more == [] {
      assert events + more == events;
    } else {
      var before := more[..|more| - 1];
      assert (events + more)[..|events + more| - 1] == events + before;
      WaitIsBounded(events, before);
      RunInv(events + before);
      if After(events + before).loop == Draining {
        DrainIsFinite(events + before, more[|more| - 1]);
      } else {
        ReturnIsFinal(After(events + before), more[|more| - 1]);
      }
    }
  }

  /** Without marshal errors, and `MarshallRoute` of this repository never returns one, the final wait takes a
      bounded number of steps, whatever the schedule, and goes on until the call has returned nil. */
  lemma WaitReturnsNil(events: seq<Event>, more: seq<Event>)
    requires IsRun(events) && After(events).loop == Draining && IsRun(events + more)
    requires forall r :: MarshalFails(r) !in events + more
    ensures |more| <= Remaining(After(events))
    ensures var t := After(events + more);
            if t.loop == Draining then exists e :: Enabled(t, e) && !e.MarshalFails?
            else t.loop == ReturnedNil && forall e :: !Enabled(t, e)
  {
    WaitIsBounded(events, more);
    RunInv(events + more);
    var t := After(events + more);
    if t.loop == Draining {
      if r :| r in At(t.workers, Blocked) {
        BlockedByMarshalError(events + more, r);
        assert false;
      }
      var e := CanStillReturn(t);
    } else {
      forall e ensures !Enabled(t, e) {
        ReturnIsFinal(t, e);
      }
    }
  }
}
