/** The proxy loop inside `SubscribeChans` (`oblnd/channel_notifier.go`): which channel events reach the backup, what
    the backup ends up holding, and what cancelling does to the stream. */
module ChannelNotifier {
  import opened Wrappers

  datatype Event =
    | PendingOpen(chan: nat)
    | Open(chan: nat)
    | Closed(chan: nat, localForceClose: bool)
    | FullyResolved(chan: nat)
    | Other

  /** The `ChannelEvent` pushed to the sub-swapper. */
  datatype Update = NewChan(chan: nat) | ClosedChan(chan: nat)

  function Translate(e: Event): Option<Update> {
    match e
    case PendingOpen(c) => Some(NewChan(c))
    case Open(c) => Some(NewChan(c))
    case Closed(c, localForceClose) => if localForceClose then None else Some(ClosedChan(c))
    case FullyResolved(c) => Some(ClosedChan(c))
    case Other => None
  }

  predicate IsOpen(e: Event) {
    e.PendingOpen? || e.Open?
  }

  predicate Sendable(events: seq<Event>, positions: seq<nat>) {
    forall k :: 0 <= k < |positions| ==> positions[k] < |events| && Translate(events[positions[k]]).Some?
  }

  /** The positions of the events to be forwarded among the first `n`. */
  function Forwarded(events: seq<Event>, n: nat): (r: seq<nat>)
    requires n <= |events|
    ensures Sendable(events, r)
  {
    if n == 0 then []
    else if Translate(events[n - 1]).Some? then Forwarded(events, n - 1) + [n - 1]
    else Forwarded(events, n - 1)
  }

  // ---- the loop

  /** What happens around one event. Once `quit` is closed, `select` may pick it instead of the event (`stop`) or,
      unless `send` is chosen, instead of the send. `read` tells whether the consumer then empties the channel. */
  datatype Choice = Choice(stop: bool, send: bool, read: bool)

  /** The consumer has cancelled by the time event `cancelAt` is forwarded, and goes on reading or not. */
  datatype Schedule = Schedule(cancelAt: nat, readsOn: bool, choices: seq<Choice>)

  /** `out` was put into the one-slot update channel; `full` says that the last of it is still there. */
  datatype Progress = Progress(out: seq<nat>, full: bool, running: bool)

  /** One iteration. Before the cancel a send waits until there is room. After it a send needs an empty slot; when
      quit wins over the send of an open event, only the closure `sendChanOpenUpdate` returns and the loop goes on,
      while for a closed channel the goroutine itself returns. */
  function Iterate(p: Progress, e: Event, i: nat, cancelled: bool, c: Choice): Progress {
    if !p.running then p
    else if cancelled && c.stop then p.(running := false)
    else if Translate(e).None? then p
    else if !cancelled || (c.send && !p.full) then p.(out := p.out + [i], full := true)
    else if IsOpen(e) then p
    else p.(running := false)
  }

  function Drain(p: Progress, empties: bool): Progress {
    if empties then p.(full := false) else p
  }

  /** After the first `n` events. */
  function Proxied(events: seq<Event>, sched: Schedule, n: nat): (p: Progress)
    requires n <= |events| == |sched.choices|
    ensures Sendable(events, p.out) && (p.full ==> p.out != [])
  {
    if n == 0 then Progress([], false, true)
    else
      var cancelled := sched.cancelAt <= n - 1;
      var c := sched.choices[n - 1];
      Drain(Iterate(Proxied(events, sched, n - 1), events[n - 1], n - 1, cancelled, c),
            c.read && (sched.readsOn || !cancelled))
  }

  /** What the consumer has taken out of the channel. */
  function Received(p: Progress): seq<nat>
    requires p.full ==> p.out != []
  {
    if p.full then p.out[..|p.out| - 1] else p.out
  }

  method ProxyEvents(events: seq<Event>, sched: Schedule) returns (out: seq<nat>)
    requires |events| == |sched.choices|
    ensures out == Proxied(events, sched, |events|).out
  {
    out := [];
    var full := false;
    var i := 0;
    while i < |events|
      invariant 0 <= i <= |events|
      invariant Proxied(events, sched, i) == Progress(out, full, true)
    {
      var cancelled := sched.cancelAt <= i;
      var choice := sched.choices[i];
      if cancelled && choice.stop {
        StoppedStays(events, sched, i + 1, |events|);
        return;
      }
      var quit := cancelled && (full || !choice.send);
      match events[i] {
        case PendingOpen(_) =>
          if !quit {
            out, full := out + [i], true;
          }
        case Open(_) =>
          if !quit {
            out, full := out + [i], true;
          }
        case Closed(_, localForceClose) =>
          if !localForceClose {
            if quit {
              StoppedStays(events, sched, i + 1, |events|);
              return;
            }
            out, full := out + [i], true;
          }
        case FullyResolved(_) =>
          if quit {
            StoppedStays(events, sched, i + 1, |events|);
            return;
          }
          out, full := out + [i], true;
        case Other =>
      }
      if choice.read && (sched.readsOn || !cancelled) {
        full := false;
      }
      i := i + 1;
    }
  }

  lemma {:induction false} StoppedStays(events: seq<Event>, sched: Schedule, m: nat, n: nat)
    requires m <= n <= |events| == |sched.choices| && !Proxied(events, sched, m).running
    ensures Proxied(events, sched, n).out == Proxied(events, sched, m).out && !Proxied(events, sched, n).running
  {
    if m < n {
      StoppedStays(events, sched, m, n - 1);
    }
  }

  predicate Ascending(s: seq<nat>) {
    forall i, j :: 0 <= i < j < |s| ==> s[i] < s[j]
  }

  /** The positions to forward are those of the events the backup cares about, in order. */
  lemma {:induction false} ForwardedAreUpdates(events: seq<Event>, n: nat)
    requires n <= |events|
    ensures forall k: nat :: k in Forwarded(events, n) <==> k < n && Translate(events[k]).Some?
    ensures Ascending(Forwarded(events, n))
  {
    if n > 0 {
      ForwardedAreUpdates(events, n - 1);
      var before := Forwarded(events, n - 1);
      forall i | 0 <= i < |before| ensures before[i] < n - 1 {
        assert before[i] in before;
      }
      assert Ascending(before + [n - 1]);
    }
  }

  /** Before a cancel everything is forwarded, in order. */
  lemma {:induction false} ForwardsEverything(events: seq<Event>, sched: Schedule, n: nat)
    requires n <= |events| == |sched.choices| && n <= sched.cancelAt
    ensures Proxied(events, sched, n).out == Forwarded(events, n) && Proxied(events, sched, n).running
  {
    if n > 0 {
      ForwardsEverything(events, sched, n - 1);
    }
  }

  // ---- what the backup holds

  function Updates(events: seq<Event>, positions: seq<nat>): seq<Update>
    requires Sendable(events, positions)
  {
    seq(|positions|, k requires 0 <= k < |positions| => Translate(events[positions[k]]).value)
  }

  function Apply(chans: set<nat>, u: Update): set<nat> {
    match u
    case NewChan(c) => chans + {c}
    case ClosedChan(c) => chans - {c}
  }

  /** The sub-swapper's set of channels after a stream of updates. */
  function Fold(start: set<nat>, updates: seq<Update>): set<nat> {
    if updates == [] then start
    else Apply(Fold(start, updates[..|updates| - 1]), updates[|updates| - 1])
  }

  predicate Opens(e: Event, c: nat) {
    e == PendingOpen(c) || e == Open(c)
  }

  /** The funds of a channel are settled: it closed in any way but our own force close, or was fully resolved. */
  predicate Releases(e: Event, c: nat) {
    e == Closed(c, false) || e == FullyResolved(c)
  }

  predicate KeptFrom(events: seq<Event>, from: nat, n: nat, c: nat)
    requires from <= n <= |events|
  {
    forall j :: from <= j < n ==> !Releases(events[j], c)
  }

  /** Present at the start or opened, and not released since. */
  ghost predicate Holds(start: set<nat>, events: seq<Event>, n: nat, c: nat)
    requires n <= |events|
  {
    (c in start && KeptFrom(events, 0, n, c)) ||
    (exists i :: 0 <= i < n && Opens(events[i], c) && KeptFrom(events, i + 1, n, c))
  }

  lemma HoldsStep(start: set<nat>, events: seq<Event>, n: nat, c: nat)
    requires 0 < n <= |events|
    ensures Holds(start, events, n, c) <==>
            Opens(events[n - 1], c) || (Holds(start, events, n - 1, c) && !Releases(events[n - 1], c))
  {
    if Opens(events[n - 1], c) {
      assert KeptFrom(events, n - 1 + 1, n, c);
    } else if Holds(start, events, n - 1, c) && !Releases(events[n - 1], c) {
      if !(c in start && KeptFrom(events, 0, n - 1, c)) {
        var i :| 0 <= i < n - 1 && Opens(events[i], c) && KeptFrom(events, i + 1, n - 1, c);
        assert KeptFrom(events, i + 1, n, c);
      }
    } else if Holds(start, events, n, c) {
      if !(c in start && KeptFrom(events, 0, n, c)) {
        var i :| 0 <= i < n && Opens(events[i], c) && KeptFrom(events, i + 1, n, c);
        assert KeptFrom(events, i + 1, n - 1, c);
      }
    }
  }

  /** What the backup holds after receiving the events at these positions. */
  function Backup(start: set<nat>, events: seq<Event>, positions: seq<nat>): set<nat>
    requires Sendable(events, positions)
  {
    Fold(start, Updates(events, positions))
  }

  lemma BackupAppend(start: set<nat>, events: seq<Event>, positions: seq<nat>, i: nat)
    requires Sendable(events, positions + [i]) && Sendable(events, positions)
    requires i < |events| && Translate(events[i]).Some?
    ensures Backup(start, events, positions + [i])
         == Apply(Backup(start, events, positions), Translate(events[i]).value)
  {
    var u := Updates(events, positions + [i]);
    assert u[..|u| - 1] == Updates(events, positions);
  }

  lemma BackupStep(start: set<nat>, events: seq<Event>, n: nat, c: nat)
    requires 0 < n <= |events|
    ensures c in Backup(start, events, Forwarded(events, n)) <==>
            Opens(events[n - 1], c) ||
            (c in Backup(start, events, Forwarded(events, n - 1)) && !Releases(events[n - 1], c))
  {
    if Translate(events[n - 1]).Some? {
      BackupAppend(start, events, Forwarded(events, n - 1), n - 1);
    }
  }

  lemma {:induction false} ForwardedHoldUnreleased(start: set<nat>, events: seq<Event>, n: nat, c: nat)
    requires n <= |events|
    ensures c in Backup(start, events, Forwarded(events, n)) <==> Holds(start, events, n, c)
  {
    if n > 0 {
      ForwardedHoldUnreleased(start, events, n - 1, c);
      BackupStep(start, events, n, c);
      HoldsStep(start, events, n, c);
    }
  }

  /** Folding what the loop has put out gives exactly the channels present at the start or opened and not released
      since; in particular a channel we force closed stays in the backup until it is fully resolved. */
  lemma BackupHoldsUnreleased(start: set<nat>, events: seq<Event>, sched: Schedule, n: nat, c: nat)
    requires n <= |events| == |sched.choices| && n <= sched.cancelAt
    ensures c in Backup(start, events, Proxied(events, sched, n).out) <==> Holds(start, events, n, c)
  {
    ForwardsEverything(events, sched, n);
    ForwardedHoldUnreleased(start, events, n, c);
  }

  // ---- cancelling

  /** A consumer that stops reading before it cancels: at most one more update is put into the channel, and it is
      never read. */
  lemma {:induction false} AtMostOneMore(events: seq<Event>, sched: Schedule, n: nat)
    requires sched.cancelAt <= n <= |events| == |sched.choices| && !sched.readsOn
    ensures var p, f := Proxied(events, sched, n), Forwarded(events, sched.cancelAt);
            p.out == f || (p.full && |p.out| == |f| + 1 && f <= p.out)
  {
    if n == sched.cancelAt {
      ForwardsEverything(events, sched, n);
    } else {
      AtMostOneMore(events, sched, n - 1);
    }
  }

  /** Without its last position a forwarded stream is the stream up to that event. */
  lemma {:induction false} ForwardedFront(events: seq<Event>, n: nat)
    requires n <= |events| && Forwarded(events, n) != []
    ensures var f := Forwarded(events, n);
            f[|f| - 1] < n && f[..|f| - 1] == Forwarded(events, f[|f| - 1])
  {
    if Translate(events[n - 1]).None? {
      ForwardedFront(events, n - 1);
    }
  }

  /** The number of events handled before the cancel. */
  function UpTo(sched: Schedule, n: nat): nat {
    if n <= sched.cancelAt then n else sched.cancelAt
  }

  /** All of it, or all but the last. */
  predicate LagsByOne(received: seq<nat>, all: seq<nat>) {
    received == all || (all != [] && received == all[..|all| - 1])
  }

  /** What such a consumer has received is always everything up to some event before the cancel. */
  lemma ReceivedUpTo(events: seq<Event>, sched: Schedule, n: nat) returns (m: nat)
    requires n <= |events| == |sched.choices| && (n <= sched.cancelAt || !sched.readsOn)
    ensures m <= n && m <= sched.cancelAt && Received(Proxied(events, sched, n)) == Forwarded(events, m)
    ensures LagsByOne(Received(Proxied(events, sched, n)), Forwarded(events, UpTo(sched, n)))
  {
    m := UpTo(sched, n);
    if n <= sched.cancelAt {
      ForwardsEverything(events, sched, n);
    } else {
      AtMostOneMore(events, sched, n);
    }
    var f := Forwarded(events, m);
    if Received(Proxied(events, sched, n)) != f {
      ForwardedFront(events, m);
      m := f[|f| - 1];
    }
  }

  /** The set is what the backup should be after `n` events. */
  ghost predicate IsTruth(start: set<nat>, events: seq<Event>, n: nat, backup: set<nat>)
    requires n <= |events|
  {
    forall c: nat :: c in backup <==> Holds(start, events, n, c)
  }

  /** The sub-swapper stops reading before it cancels, so whatever `select` picks its backup is always what it
      should have been at some event before the cancel, and at most one update before the cancel is missing. */
  lemma BackupIsAtSomeEvent(start: set<nat>, events: seq<Event>, sched: Schedule, n: nat)
    requires n <= |events| == |sched.choices| && (n <= sched.cancelAt || !sched.readsOn)
    ensures Sendable(events, Received(Proxied(events, sched, n)))
    ensures LagsByOne(Received(Proxied(events, sched, n)), Forwarded(events, UpTo(sched, n)))
    ensures exists m: nat :: m <= n && m <= sched.cancelAt &&
              IsTruth(start, events, m, Backup(start, events, Received(Proxied(events, sched, n))))
  {
    var m := ReceivedUpTo(events, sched, n);
    var backup := Backup(start, events, Forwarded(events, m));
    forall c: nat ensures c in backup <==> Holds(start, events, m, c) {
      ForwardedHoldUnreleased(start, events, m, c);
    }
    assert IsTruth(start, events, m, backup);
  }

  /** No open event at or after the cancel is followed by an event that would be forwarded. */
  predicate CancelIsClean(events: seq<Event>, cancelAt: nat) {
    forall i, j :: cancelAt <= i < j < |events| && IsOpen(events[i]) ==> Translate(events[j]).None?
  }

  ghost predicate IsPrefix(events: seq<Event>, sched: Schedule)
    requires |events| == |sched.choices|
  {
    Received(Proxied(events, sched, |events|)) <= Forwarded(events, |events|)
  }

  /** Either everything so far was forwarded, or the loop has ended with a prefix, or an open event was dropped and
      nothing else is left to forward. */
  ghost predicate OnTrack(events: seq<Event>, sched: Schedule, n: nat)
    requires n <= |events| == |sched.choices|
  {
    var p := Proxied(events, sched, n);
    || p.out == Forwarded(events, n)
    || (p.out <= Forwarded(events, n) && (!p.running || forall k :: n <= k < |events| ==> Translate(events[k]).None?))
  }

  lemma {:induction false} CleanStaysOnTrack(events: seq<Event>, sched: Schedule, n: nat)
    requires n <= |events| == |sched.choices| && CancelIsClean(events, sched.cancelAt)
    ensures OnTrack(events, sched, n)
  {
    if n > 0 {
      CleanStaysOnTrack(events, sched, n - 1);
    }
  }

  /** The schedule that drops the open event at `i` and sends everything else, with a consumer that reads it all. */
  function DropOne(cancelAt: nat, length: nat, i: nat): Schedule {
    Schedule(cancelAt, true, seq(length, k => Choice(false, k != i, true)))
  }

  lemma {:induction false} DropOneSkips(events: seq<Event>, cancelAt: nat, i: nat, n: nat) returns (rest: seq<nat>)
    requires cancelAt <= i < n <= |events| && IsOpen(events[i])
    ensures Forwarded(events, n) == Forwarded(events, i) + [i] + rest
    ensures Proxied(events, DropOne(cancelAt, |events|, i), n) == Progress(Forwarded(events, i) + rest, false, true)
    ensures forall k :: 0 <= k < |rest| ==> rest[k] > i
    ensures (exists j :: i < j < n && Translate(events[j]).Some?) ==> rest != []
  {
    if n == i + 1 {
      SendsAllBefore(events, cancelAt, i, i);
      rest := [];
    } else {
      rest := DropOneSkips(events, cancelAt, i, n - 1);
      if Translate(events[n - 1]).Some? {
        rest := rest + [n - 1];
      }
    }
  }

  lemma {:induction false} SendsAllBefore(events: seq<Event>, cancelAt: nat, i: nat, n: nat)
    requires n <= i <= |events|
    ensures Proxied(events, DropOne(cancelAt, |events|, i), n) == Progress(Forwarded(events, n), false, true)
  {
    if n > 0 {
      SendsAllBefore(events, cancelAt, i, n - 1);
    }
  }

  lemma DroppedIsNoPrefix(events: seq<Event>, cancelAt: nat, i: nat, j: nat)
    requires cancelAt <= i < j < |events| && IsOpen(events[i]) && Translate(events[j]).Some?
    ensures !IsPrefix(events, DropOne(cancelAt, |events|, i))
  {
    var rest := DropOneSkips(events, cancelAt, i, |events|);
    var out := Proxied(events, DropOne(cancelAt, |events|, i), |events|).out;
    var k := |Forwarded(events, i)|;
    assert out[k] == rest[0] && Forwarded(events, |events|)[k] == i;
  }

  /** Cancelling is meant to cut the stream short. What the consumer receives is a prefix whatever `select` picks if
      and only if the consumer stops reading before it cancels, or no open event from the cancel on is followed by
      another event to forward: the loop survives the dropped open event. */
  lemma CancelYieldsPrefixExactlyWhen(events: seq<Event>, cancelAt: nat, readsOn: bool)
    ensures (forall choices: seq<Choice> :: |choices| == |events| ==>
               IsPrefix(events, Schedule(cancelAt, readsOn, choices)))
            <==> !readsOn || CancelIsClean(events, cancelAt)
  {
    if !readsOn || CancelIsClean(events, cancelAt) {
      forall choices: seq<Choice> | |choices| == |events|
        ensures IsPrefix(events, Schedule(cancelAt, readsOn, choices))
      {
        var sched := Schedule(cancelAt, readsOn, choices);
        if readsOn {
          CleanStaysOnTrack(events, sched, |events|);
        } else {
          var m := ReceivedUpTo(events, sched, |events|);
          ForwardedGrows(events, m, |events|);
        }
      }
    } else {
      var i, j :| cancelAt <= i < j < |events| && IsOpen(events[i]) && Translate(events[j]).Some?;
      DroppedIsNoPrefix(events, cancelAt, i, j);
      assert !IsPrefix(events, Schedule(cancelAt, readsOn, DropOne(cancelAt, |events|, i).choices));
    }
  }

  lemma {:induction false} ForwardedGrows(events: seq<Event>, m: nat, n: nat)
    requires m <= n <= |events|
    ensures Forwarded(events, m) <= Forwarded(events, n)
  {
    if m < n {
      ForwardedGrows(events, m, n - 1);
    }
  }

  /** Of two channels opened after the cancel the second can be put into the update channel without the first; the
      sub-swapper, which has stopped reading, sees neither. */
  lemma CancelCanSkip(choices: seq<Choice>)
    requires choices == [Choice(false, false, false), Choice(false, true, false)]
    ensures var p := Proxied([Open(1), Open(2)], Schedule(0, false, choices), 2); p.out == [1] && Received(p) == []
  {
    assert Proxied([Open(1), Open(2)], Schedule(0, false, choices), 1) == Progress([], false, true);
  }

  /** Whatever cancelling does, nothing put out before it is lost. */
  lemma {:induction false} CancelKeepsThePast(events: seq<Event>, sched: Schedule, n: nat)
    requires sched.cancelAt <= n <= |events| == |sched.choices|
    ensures Forwarded(events, sched.cancelAt) <= Proxied(events, sched, n).out
  {
    if n == sched.cancelAt {
      ForwardsEverything(events, sched, n);
    } else {
      CancelKeepsThePast(events, sched, n - 1);
    }
  }
}
