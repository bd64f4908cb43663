/** The manager seen one remote key at a time: what the maps say about a key moves like a small state machine, the
    pending handovers always drain, and a key's error history survives reconnects. */
module SessionRefinement {
  import opened Wrappers
  import opened Backoff
  import opened SessionState
  import opened SessionInvariants
  import opened SessionSteps
  import opened SessionProperties

  // ---- one key

  /** At most one connection per key: none, the live one, or the one waiting to take over. */
  datatype KeyState = Absent | Live(inbound: bool, conn: nat) | Handing(inbound: bool, conn: nat)

  datatype KeyEvent =
    | Arrive(inbound: bool, conn: nat, cancelled: bool)  // a connection; `cancelled` for a cancelled request
    | Drop                                               // DisconnectPeer
    | LateWatcher                                        // the watcher of a peer the server had removed itself
    | OwnWatcher                                         // the watcher of the live peer

  function KeyNext(a: KeyState, e: KeyEvent): KeyState {
    match e
    case Arrive(inbound, conn, cancelled) =>
      if cancelled || a.Handing? || (a.Live? && a.inbound != inbound) then a
      else if a.Absent? then Live(inbound, conn)
      else Handing(inbound, conn)
    case Drop => if a.Live? then Absent else a
    case LateWatcher => if a.Handing? then Live(a.inbound, a.conn) else a
    case OwnWatcher => Absent
  }

  /** What the maps say about a key. */
  function Of(r: Registry, key: PubKey): KeyState {
    if key in r.byPub then Live(r.byPub[key].inbound, r.byPub[key].conn)
    else if key in r.scheduled then Handing(r.scheduled[key].inbound, r.scheduled[key].conn)
    else Absent
  }

  /** What an event means to a key; events that do not concern it mean nothing. */
  function Seen(s: State, e: Event, key: PubKey): Option<KeyEvent> {
    match e
    case Inbound(conn, k) => if k == key then Some(Arrive(true, conn, false)) else None
    case Outbound(conn, k, managed) =>
      if k == key then Some(Arrive(false, conn, managed && k !in s.per.reqs)) else None
    case Disconnect(k) => if k == key then Some(Drop) else None
    case Watch(p, _, _) => if p.key == key then Some(if p in s.reg.ignored then LateWatcher else OwnWatcher) else None
    case _ => None
  }

  function KeyStep(a: KeyState, e: Option<KeyEvent>): KeyState {
    if e.None? then a else KeyNext(a, e.value)
  }

  lemma InboundRefines(s: State, local: PubKey, conn: nat, k: PubKey, key: PubKey, o: Oracle)
    requires IndexesMatch(s.reg) && WatchersMatch(s.reg) && HandoversWait(s.reg) && !o.stop
    ensures Of(InboundConnected(s, local, conn, k, o).reg, key)
         == KeyStep(Of(s.reg, key), if k == key then Some(Arrive(true, conn, false)) else None)
  {
    IndexOfKey(s.reg, k);
  }

  lemma OutboundRefines(s: State, local: PubKey, conn: nat, k: PubKey, managed: bool, key: PubKey, o: Oracle)
    requires IndexesMatch(s.reg) && WatchersMatch(s.reg) && HandoversWait(s.reg) && !o.stop
    ensures Of(OutboundConnected(s, local, conn, k, managed, o).reg, key)
         == KeyStep(Of(s.reg, key),
                    if k == key then Some(Arrive(false, conn, managed && k !in s.per.reqs)) else None)
  {
    IndexOfKey(s.reg, k);
  }

  lemma DisconnectRefines(s: State, k: PubKey, key: PubKey, o: Oracle)
    requires WatchersMatch(s.reg) && HandoversWait(s.reg) && !o.stop
    ensures Of(Disconnected(s, k, o).reg, key) == KeyStep(Of(s.reg, key), if k == key then Some(Drop) else None)
  {
  }

  lemma OfLeft(r: Registry, p: Peer, key: PubKey)
    requires Registered(r, p) && HandoversWait(r)
    ensures Of(Left(r, p), key) == if key == p.key then Absent else Of(r, key)
  {
  }

  lemma OfForgotten(r: Registry, p: Peer, key: PubKey)
    requires p.key in r.scheduled ==> p.key !in r.byPub
    ensures Of(Forgotten(r, p), key) == if key == p.key && Of(r, key).Handing? then Absent else Of(r, key)
  {
  }

  lemma OfAdded(r: Registry, p: Peer, key: PubKey)
    ensures Of(Added(r, p), key) == if key == p.key then Live(p.inbound, p.conn) else Of(r, key)
  {
  }

  /** A late watcher runs the waiting callback: the handover becomes the live connection of its key. */
  lemma OfHandedOver(r: Registry, t: State, p: Peer, key: PubKey)
    requires p.key in r.scheduled && p.key !in r.byPub && t.reg == Forgotten(r, p)
    ensures Of(PeerConnected(t, p.key, r.scheduled[p.key], false).reg, key)
         == if key == p.key then KeyNext(Of(r, key), LateWatcher) else Of(r, key)
  {
    var cb := r.scheduled[p.key];
    ConnectedRegistry(t, p.key, cb);
    OfAdded(t.reg, NewPeer(t, p.key, cb), key);
    OfForgotten(r, p, key);
  }

  lemma LateWatcherRefines(s: State, p: Peer, session: Session, retry: bool, key: PubKey, o: Oracle, cfg: Config)
    requires WatchersMatch(s.reg) && HandoversWait(s.reg) && p in s.reg.ignored && !o.stop
    ensures Of(Terminated(s, p, session, retry, o, cfg).reg, key)
         == if key == p.key then KeyNext(Of(s.reg, key), LateWatcher) else Of(s.reg, key)
  {
    TerminatedRegistry(s, p, session, retry, o, cfg);
    if p.key in s.reg.scheduled {
      ScheduledIsFree(s.reg, p.key);
      var t: State :| t.reg == Forgotten(s.reg, p) &&
        Terminated(s, p, session, retry, o, cfg).reg == PeerConnected(t, p.key, s.reg.scheduled[p.key], false).reg;
      OfHandedOver(s.reg, t, p, key);
    } else {
      OfForgotten(s.reg, p, key);
    }
  }

  lemma WatcherRefines(s: State, p: Peer, session: Session, retry: bool, key: PubKey, o: Oracle, cfg: Config)
    requires WatchersMatch(s.reg) && HandoversWait(s.reg) && p in s.reg.watching && !o.stop
    ensures Of(Terminated(s, p, session, retry, o, cfg).reg, key)
         == KeyStep(Of(s.reg, key), Seen(s, Watch(p, session, retry), key))
  {
    if p in s.reg.ignored {
      LateWatcherRefines(s, p, session, retry, key, o, cfg);
    } else {
      TerminatedRegistry(s, p, session, retry, o, cfg);
      OfLeft(s.reg, p, key);
    }
  }

  ghost function WithHanded(s: State, conn: nat): State {
    s.(reg := s.reg.(handed := s.reg.handed + {conn}))
  }

  lemma HandedKeepsPeers(s: State, conn: nat)
    requires IndexesMatch(s.reg) && WatchersMatch(s.reg) && HandoversWait(s.reg)
    ensures var r := WithHanded(s, conn).reg; IndexesMatch(r) && WatchersMatch(r) && HandoversWait(r)
  {
    SameHandovers(s.reg, WithHanded(s, conn).reg);
  }

  lemma PeerStepRefines(s: State, e: Event, o: Oracle, key: PubKey, local: PubKey, cfg: Config)
    requires IndexesMatch(s.reg) && WatchersMatch(s.reg) && HandoversWait(s.reg)
    requires Enabled(s, e, o) && !s.stopping && !o.stop
    ensures Of(Step(s, e, o, local, cfg).reg, key) == KeyStep(Of(s.reg, key), Seen(s, e, key))
  {
    if e.Inbound? {
      HandedKeepsPeers(s, e.conn);
      InboundRefines(WithHanded(s, e.conn), local, e.conn, e.key, key, o);
    } else if e.Outbound? {
      HandedKeepsPeers(s, e.conn);
      OutboundRefines(WithHanded(s, e.conn), local, e.conn, e.key, e.managed, key, o);
    } else if e.Disconnect? {
      DisconnectRefines(s, e.key, key, o);
    } else if e.Watch? {
      WatcherRefines(s, e.peer, e.session, e.retry, key, o, cfg);
    } else {
      OthersMark(s, e, o, local, cfg);
    }
  }

  /** The watcher that ends a live session is the one of that session's own connection; any other watcher belongs to
      a connection that is not live. */
  lemma WatcherOwner(s: State, p: Peer, session: Session, retry: bool)
    requires RegistryInv(s.reg, {}) && p in s.reg.watching
    ensures Of(s.reg, p.key) == Live(p.inbound, p.conn) <==>
            Seen(s, Watch(p, session, retry), p.key) == Some(OwnWatcher)
  {
    assert p in s.reg.ignored <==> !Registered(s.reg, p);
    if p.key in s.reg.byPub {
      var q := s.reg.byPub[p.key];
      assert q in s.reg.created && p in s.reg.created;
      assert q.conn == p.conn ==> q == p;
    }
  }

  /** Refinement: one step of the manager is, for every key at once, one step of that key's machine. A watcher is
      the live session's own exactly when the live connection is the watcher's. */
  lemma StepRefines(s: State, run: seq<Entry>, e: Event, o: Oracle, key: PubKey, local: PubKey, cfg: Config)
    requires Reached(s, run, local, cfg) && Enabled(s, e, o) && !o.stop
    ensures Of(Next(s, e, o, local, cfg).reg, key) == KeyStep(Of(s.reg, key), Seen(s, e, key))
    ensures e.Watch? && e.peer.key == key ==>
              (Seen(s, e, key) == Some(OwnWatcher) <==> Of(s.reg, key) == Live(e.peer.inbound, e.peer.conn))
  {
    ReachedInv(s, run, local, cfg);
    PeerStepRefines(s, e, o, key, local, cfg);
    if e.Watch? {
      WatcherOwner(s, e.peer, e.session, e.retry);
    }
  }

  /** The key's machine driven by a whole run. */
  function KeyAfter(run: seq<Entry>, key: PubKey, local: PubKey, cfg: Config): KeyState {
    if run == [] then Absent
    else
      var before := run[..|run| - 1];
      KeyStep(KeyAfter(before, key, local, cfg),
              Seen(After(EMPTY, before, local, cfg), run[|run| - 1].event, key))
  }

  /** Refinement over runs: the maps always say about a key what its machine says, and they never say two things:
      at most one connection per key is registered or waiting. */
  lemma {:induction false} RunRefines(s: State, run: seq<Entry>, key: PubKey, local: PubKey, cfg: Config)
    requires Reached(s, run, local, cfg)
    ensures Of(s.reg, key) == KeyAfter(run, key, local, cfg)
    ensures !(key in s.reg.byPub && key in s.reg.scheduled)
    decreases |run|
  {
    ReachedInv(s, run, local, cfg);
    if run != [] {
      var before := run[..|run| - 1];
      var last := run[|run| - 1];
      var t := After(EMPTY, before, local, cfg);
      RunRefines(t, before, key, local, cfg);
      StepRefines(t, before, last.event, last.oracle, key, local, cfg);
    }
  }

  // ---- draining

  /** No connection arrives and nobody stops the server; anything else may happen. */
  predicate IsQuiet(e: Entry) {
    !e.event.Inbound? && !e.event.Outbound? && !e.oracle.stop
  }

  /** An initializer launches its watcher, or a watcher cleans up. */
  predicate IsWork(e: Event) {
    e.Launch? || e.Watch?
  }

  function Work(run: seq<Entry>): nat {
    if run == [] then 0
    else Work(run[..|run| - 1]) + if IsWork(run[|run| - 1].event) then 1 else 0
  }

  /** Two steps for every pending watcher and scheduled connection, one more for a watcher yet to be launched. */
  ghost function Backlog(r: Registry): nat {
    |r.watching - r.launched| + 2 * (|r.watching| + |r.scheduled|)
  }

  lemma LaunchShrinks(r: Registry, p: Peer)
    ensures var t := r.(launched := r.launched + {p});
            |t.watching - t.launched| == |r.watching - r.launched| - if p in r.watching - r.launched then 1 else 0
  {
    var t := r.(launched := r.launched + {p});
    assert t.watching - t.launched == (r.watching - r.launched) - {p};
  }

  lemma LeftShrinks(r: Registry, p: Peer)
    requires p in r.watching && p in r.launched
    ensures Backlog(Left(r, p)) == Backlog(r) - 2
  {
    assert (r.watching - {p}) - r.launched == r.watching - r.launched;
  }

  lemma ForgottenShrinks(r: Registry, p: Peer)
    requires p in r.watching && p in r.launched
    ensures Backlog(Forgotten(r, p)) == Backlog(r) - if p.key in r.scheduled then 4 else 2
  {
    assert (r.watching - {p}) - r.launched == r.watching - r.launched;
    assert (r.scheduled - {p.key}).Keys == r.scheduled.Keys - {p.key};
    assert |r.scheduled - {p.key}| == |(r.scheduled - {p.key}).Keys|;
    assert |r.scheduled| == |r.scheduled.Keys|;
  }

  lemma AddedGrows(r: Registry, p: Peer)
    requires p !in r.watching && p !in r.launched
    ensures Backlog(Added(r, p)) == Backlog(r) + 3
  {
    assert (r.watching + {p}) - r.launched == (r.watching - r.launched) + {p};
  }

  /** A watcher shrinks the backlog even when it starts the connection that was waiting for it. */
  lemma WatcherShrinks(s: State, p: Peer, session: Session, retry: bool, o: Oracle, cfg: Config)
    requires Identities(s.reg) && p in s.reg.watching && p in s.reg.launched && !o.stop
    ensures Backlog(Terminated(s, p, session, retry, o, cfg).reg) < Backlog(s.reg)
  {
    TerminatedRegistry(s, p, session, retry, o, cfg);
    LeftShrinks(s.reg, p);
    ForgottenShrinks(s.reg, p);
    if p in s.reg.ignored && p.key in s.reg.scheduled {
      var cb := s.reg.scheduled[p.key];
      var t: State :| t.reg == Forgotten(s.reg, p) &&
        Terminated(s, p, session, retry, o, cfg).reg == PeerConnected(t, p.key, cb, false).reg;
      ConnectedRegistry(t, p.key, cb);
      AddedGrows(t.reg, NewPeer(t, p.key, cb));
    }
  }

  /** Everything but the handlers, the initializers and the watchers leaves the backlog alone. */
  lemma OthersKeepBacklog(s: State, e: Event, o: Oracle, local: PubKey, cfg: Config)
    requires !e.Inbound? && !e.Outbound? && !IsWork(e)
    ensures Backlog(Step(s, e, o, local, cfg).reg) == Backlog(s.reg)
  {
    if !e.Disconnect? {
      OthersMark(s, e, o, local, cfg);
    }
  }

  lemma QuietStepShrinks(s: State, e: Entry, local: PubKey, cfg: Config)
    requires Identities(s.reg) && IsQuiet(e) && Enabled(s, e.event, e.oracle)
    ensures Backlog(Next(s, e.event, e.oracle, local, cfg).reg) + (if IsWork(e.event) then 1 else 0) <= Backlog(s.reg)
  {
    if e.event.Launch? {
      LaunchShrinks(s.reg, e.event.peer);
    } else if e.event.Watch? {
      WatcherShrinks(s, e.event.peer, e.event.session, e.event.retry, e.oracle, cfg);
    } else {
      OthersKeepBacklog(s, e.event, e.oracle, local, cfg);
    }
  }

  lemma {:induction false} DrainShrinks(s: State, run: seq<Entry>, local: PubKey, cfg: Config)
    requires Inv(s, cfg) && !s.stopping && IsRun(s, run, local, cfg)
    requires forall i :: 0 <= i < |run| ==> IsQuiet(run[i])
    ensures var t := After(s, run, local, cfg);
            Inv(t, cfg) && !t.stopping && Backlog(t.reg) + Work(run) <= Backlog(s.reg)
  {
    if run != [] {
      var before := run[..|run| - 1];
      DrainShrinks(s, before, local, cfg);
      var t := After(s, before, local, cfg);
      var last := run[|run| - 1];
      QuietStepShrinks(t, last, local, cfg);
      NextKeepsInv(t, last.event, last.oracle, local, cfg);
    }
  }

  lemma WorkIsPossible(s: State) returns (e: Entry)
    requires Identities(s.reg) && !s.stopping && s.reg.watching != {}
    ensures IsQuiet(e) && IsWork(e.event) && Enabled(s, e.event, e.oracle)
  {
    var p :| p in s.reg.watching;
    e := Entry(if p in s.reg.launched then Watch(p, Session(None, true), false) else Launch(p),
               Oracle(false, false, false));
  }

  /** Draining from any reachable state: with no new arrivals, whatever else happens, only so many watchers are
      launched and run; as long as one is pending another such step is possible; and when none is pending, nothing
      is registered, ignored or scheduled any more. */
  lemma HandoversDrain(s: State, past: seq<Entry>, run: seq<Entry>, local: PubKey, cfg: Config)
    requires Reached(s, past, local, cfg) && IsRun(s, run, local, cfg)
    requires forall i :: 0 <= i < |run| ==> IsQuiet(run[i])
    ensures var t := After(s, run, local, cfg);
            && Work(run) <= Backlog(s.reg)
            && (t.reg.watching != {} ==>
                  exists e :: IsQuiet(e) && IsWork(e.event) && Enabled(t, e.event, e.oracle))
            && (t.reg.watching == {} ==> t.reg.byPub == map[] && t.reg.ignored == {} && t.reg.scheduled == map[])
  {
    ReachedInv(s, past, local, cfg);
    DrainShrinks(s, run, local, cfg);
    var t := After(s, run, local, cfg);
    if t.reg.watching != {} {
      var e := WorkIsPossible(t);
    } else {
      NothingLeft(t.reg);
    }
  }

  lemma NothingLeft(r: Registry)
    requires WatchersMatch(r) && HandoversWait(r) && r.watching == {}
    ensures r.byPub == map[] && r.ignored == {} && r.scheduled == map[]
  {
    assert r.byPub.Keys == {};
    if k :| k in r.scheduled {
      assert false;
    }
    assert r.scheduled.Keys == {};
  }

  // ---- error history

  /** The non-empty buffer `b` is the one key `k` will go on using: its live peer has it, or the server kept it. */
  ghost predicate History(s: State, k: PubKey, b: nat) {
    && Total(s.err, b) > 0
    && (if k in s.reg.byPub then s.reg.byPub[k].buffer == b else k in s.err.kept && s.err.kept[k] == b)
  }

  /** Peers of key `k` made between two registries all got buffer `b`. */
  ghost predicate OnlyBuffer(r: Registry, t: Registry, k: PubKey, b: nat) {
    forall p :: p in t.created - r.created && p.key == k ==> p.buffer == b
  }

  lemma ConnectedKeepsHistory(s: State, key: PubKey, cb: Callback, k: PubKey, b: nat)
    requires History(s, k, b) && key !in s.reg.byPub
    ensures var t := PeerConnected(s, key, cb, false); History(t, k, b) && OnlyBuffer(s.reg, t.reg, k, b)
  {
  }

  lemma RemovedKeepsHistory(s: State, p: Peer, o: Oracle, k: PubKey, b: nat)
    requires History(s, k, b) && Registered(s.reg, p) && !o.stop
    ensures var t := PeerRemoved(s, p, o); History(t, k, b) && OnlyBuffer(s.reg, t.reg, k, b)
  {
  }

  lemma HandlesKeepsHistory(s: State, t: State, key: PubKey, cb: Callback, o: Oracle, k: PubKey, b: nat)
    requires History(s, k, b) && Handles(s, t, key, cb, o) && WatchersMatch(s.reg) && !o.stop
    ensures History(t, k, b) && OnlyBuffer(s.reg, t.reg, k, b)
  {
    if key !in s.reg.byPub {
      ConnectedKeepsHistory(s, key, cb, k, b);
    } else {
      RemovedKeepsHistory(s, s.reg.byPub[key], o, k, b);
    }
  }

  lemma TerminatedKeepsHistory(s: State, p: Peer, session: Session, retry: bool, o: Oracle, cfg: Config,
                               k: PubKey, b: nat)
    requires History(s, k, b) && WatchersMatch(s.reg) && HandoversWait(s.reg) && p in s.reg.watching && !o.stop
    ensures var t := Terminated(s, p, session, retry, o, cfg);
            History(t, k, b) && OnlyBuffer(s.reg, t.reg, k, b)
  {
    if p !in s.reg.ignored {
      TerminatedHandlesOwn(s, p, session, retry, o, cfg);
      RemovedKeepsHistory(s, p, o, k, b);
    } else {
      TerminatedHandlesIgnored(s, p, session, retry, o, cfg);
      if p.key in s.reg.scheduled {
        ScheduledIsFree(s.reg, p.key);
        ConnectedKeepsHistory(s, p.key, s.reg.scheduled[p.key], k, b);
      }
    }
  }

  lemma StepKeepsHistory(s: State, e: Event, o: Oracle, local: PubKey, cfg: Config, k: PubKey, b: nat)
    requires WatchersMatch(s.reg) && HandoversWait(s.reg)
    requires Enabled(s, e, o) && !s.stopping && !o.stop && History(s, k, b)
    ensures var t := Step(s, e, o, local, cfg); History(t, k, b) && OnlyBuffer(s.reg, t.reg, k, b)
  {
    var t := Step(s, e, o, local, cfg);
    match e
    case Inbound(conn, key) =>
      var h := s.(reg := s.reg.(handed := s.reg.handed + {conn}));
      InboundHandles(h, local, conn, key, o);
      HandlesKeepsHistory(h, t, key, Callback(conn, true), o, k, b);
    case Outbound(conn, key, managed) =>
      var h := s.(reg := s.reg.(handed := s.reg.handed + {conn}));
      OutboundHandles(h, local, conn, key, managed, o);
      HandlesKeepsHistory(h, t, key, Callback(conn, false), o, k, b);
    case Disconnect(key) =>
      DisconnectedHandles(s, key, o);
      HandlesKeepsHistory(s, t, key, Callback(0, false), o, k, b);
    case Watch(p, session, retry) => TerminatedKeepsHistory(s, p, session, retry, o, cfg, k, b);
    case _ =>
  }

  /** Once a key has a non-empty error buffer, registered or kept, every peer made for the key in any later run
      uses that same buffer. */
  lemma {:induction false} ErrorHistorySurvives(s: State, run: seq<Entry>, k: PubKey, b: nat,
                                                local: PubKey, cfg: Config)
    requires Inv(s, cfg) && IsRun(s, run, local, cfg) && !After(s, run, local, cfg).stopping
    requires !s.stopping && History(s, k, b)
    ensures var t := After(s, run, local, cfg); History(t, k, b) && OnlyBuffer(s.reg, t.reg, k, b)
  {
    if run != [] {
      var before := run[..|run| - 1];
      var last := run[|run| - 1];
      var t := After(s, before, local, cfg);
      ErrorHistorySurvives(s, before, k, b, local, cfg);
      RunKeepsInv(s, before, local, cfg);
      StepKeepsHistory(t, last.event, last.oracle, local, cfg, k, b);
    }
  }

  /** A peer removed with a non-empty buffer leaves that buffer behind as its key's history, and no key is both
      registered and in `peerErrors`. */
  lemma RemovalStartsHistory(s: State, past: seq<Entry>, e: Event, o: Oracle, p: Peer, local: PubKey, cfg: Config)
    requires Reached(s, past, local, cfg) && Enabled(s, e, o) && !o.stop && Registered(s.reg, p)
    requires var t := Next(s, e, o, local, cfg); p.key !in t.reg.byPub && Total(t.err, p.buffer) > 0
    ensures History(Next(s, e, o, local, cfg), p.key, p.buffer)
    ensures s.err.kept.Keys !! s.reg.byPub.Keys
  {
    ReachedInv(s, past, local, cfg);
    RemovalKeepsBuffer(s, e, o, p, local, cfg);
  }

  /** Removing a peer that ends up with a non-empty buffer keeps that buffer. */
  ghost predicate KeepsBuffer(t: State, p: Peer) {
    Total(t.err, p.buffer) > 0 ==> p.key in t.err.kept && t.err.kept[p.key] == p.buffer
  }

  lemma HandlesKeepsBuffer(s: State, t: State, key: PubKey, cb: Callback, o: Oracle, p: Peer)
    requires Handles(s, t, key, cb, o) && WatchersMatch(s.reg) && !o.stop
    requires Registered(s.reg, p) && p.key !in t.reg.byPub
    ensures KeepsBuffer(t, p)
  {
  }

  lemma TerminatedKeepsBuffer(s: State, q: Peer, session: Session, retry: bool, o: Oracle, cfg: Config, p: Peer)
    requires WatchersMatch(s.reg) && HandoversWait(s.reg) && q in s.reg.watching && !o.stop
    requires Registered(s.reg, p) && p.key !in Terminated(s, q, session, retry, o, cfg).reg.byPub
    ensures KeepsBuffer(Terminated(s, q, session, retry, o, cfg), p)
  {
    if q !in s.reg.ignored {
      TerminatedHandlesOwn(s, q, session, retry, o, cfg);
    } else {
      TerminatedHandlesIgnored(s, q, session, retry, o, cfg);
      if q.key in s.reg.scheduled {
        ScheduledIsFree(s.reg, q.key);
      }
    }
  }

  lemma InboundKeepsBuffer(s: State, local: PubKey, conn: nat, key: PubKey, o: Oracle, p: Peer)
    requires WatchersMatch(s.reg) && !o.stop && Registered(s.reg, p)
    requires p.key !in InboundConnected(s, local, conn, key, o).reg.byPub
    ensures KeepsBuffer(InboundConnected(s, local, conn, key, o), p)
  {
    InboundHandles(s, local, conn, key, o);
    HandlesKeepsBuffer(s, InboundConnected(s, local, conn, key, o), key, Callback(conn, true), o, p);
  }

  lemma OutboundKeepsBuffer(s: State, local: PubKey, conn: nat, key: PubKey, managed: bool, o: Oracle, p: Peer)
    requires WatchersMatch(s.reg) && !o.stop && Registered(s.reg, p)
    requires p.key !in OutboundConnected(s, local, conn, key, managed, o).reg.byPub
    ensures KeepsBuffer(OutboundConnected(s, local, conn, key, managed, o), p)
  {
    OutboundHandles(s, local, conn, key, managed, o);
    HandlesKeepsBuffer(s, OutboundConnected(s, local, conn, key, managed, o), key, Callback(conn, false), o, p);
  }

  lemma DisconnectedKeepsBuffer(s: State, key: PubKey, o: Oracle, p: Peer)
    requires WatchersMatch(s.reg) && !o.stop && Registered(s.reg, p)
    requires p.key !in Disconnected(s, key, o).reg.byPub
    ensures KeepsBuffer(Disconnected(s, key, o), p)
  {
    DisconnectedHandles(s, key, o);
    HandlesKeepsBuffer(s, Disconnected(s, key, o), key, Callback(0, false), o, p);
  }

  lemma AcceptKeepsBuffer(s: State, e: Event, o: Oracle, p: Peer, local: PubKey, cfg: Config)
    requires WatchersMatch(s.reg) && !o.stop && !o.sawStop && (e.Inbound? || e.Outbound?)
    requires Registered(s.reg, p) && p.key !in Step(s, e, o, local, cfg).reg.byPub
    ensures KeepsBuffer(Step(s, e, o, local, cfg), p)
  {
    var t := s.(reg := s.reg.(handed := s.reg.handed + {e.conn}));
    if e.Inbound? {
      InboundKeepsBuffer(t, local, e.conn, e.key, o, p);
    } else {
      OutboundKeepsBuffer(t, local, e.conn, e.key, e.managed, o, p);
    }
  }

  lemma RemovalKeepsBuffer(s: State, e: Event, o: Oracle, p: Peer, local: PubKey, cfg: Config)
    requires WatchersMatch(s.reg) && HandoversWait(s.reg) && Enabled(s, e, o) && !s.stopping && !o.stop
    requires Registered(s.reg, p) && p.key !in Step(s, e, o, local, cfg).reg.byPub
    ensures KeepsBuffer(Step(s, e, o, local, cfg), p)
  {
    if e.Inbound? || e.Outbound? {
      AcceptKeepsBuffer(s, e, o, p, local, cfg);
    } else if e.Disconnect? {
      DisconnectedKeepsBuffer(s, e.key, o, p);
    } else if e.Watch? {
      TerminatedKeepsBuffer(s, e.peer, e.session, e.retry, o, cfg, p);
    } else {
      OthersMark(s, e, o, local, cfg);
    }
  }
}
