/** The invariant of the session manager, kept by every step and so true after every run. */
module SessionSteps {
  import opened Wrappers
  import opened Backoff
  import opened SessionState
  import opened SessionInvariants
  import opened SessionListeners

  // ---- facts that relate the registry to the other maps

  ghost predicate Watched(r: Registry, key: PubKey) {
    exists p :: p in r.watching && p.key == key
  }

  /** No registration waits for a registered peer that has already notified its listeners, and a stored offline
      channel has a watcher that will close it. */
  ghost predicate ListenersMatch(r: Registry, l: Listeners) {
    && (forall k :: k in l.online && k in r.byPub ==> r.byPub[k] !in r.flushed)
    && (forall k :: k in l.offline ==> Watched(r, k))
  }

  /** A key is never both registered and in `peerErrors`, and only non-empty buffers are kept. */
  ghost predicate ErrorsMatch(r: Registry, e: Errors) {
    && (forall k :: k in e.kept ==> k !in r.byPub && Total(e, e.kept[k]) > 0 && e.kept[k] < e.nextBuffer)
    && (forall p :: p in r.created ==> p.buffer < e.nextBuffer)
    && (forall b :: b in e.totals ==> b < e.nextBuffer)
  }

  /** A backoff is only stored for persistent peers, and is within range under a sane configuration. */
  ghost predicate BackoffTracked(p: Persistence, cfg: Config) {
    && (forall k :: k in p.backoff ==> k in p.peers)
    && (SaneConfig(cfg) ==> !p.crashed && forall k :: k in p.backoff ==> InRange(p.backoff[k], cfg))
  }

  ghost predicate LiveInv(s: State) {
    RegistryInv(s.reg, {}) && AnsweredOnce(s.lst) && ListenersMatch(s.reg, s.lst) && ErrorsMatch(s.reg, s.err)
  }

  ghost predicate Inv(s: State, cfg: Config) {
    ChannelsOnce(s.lst, s.per.retry) && BackoffTracked(s.per, cfg) && (!s.stopping ==> LiveInv(s))
  }

  // ---- the registry

  lemma ConnectedRegistry(s: State, key: PubKey, cb: Callback)
    ensures PeerConnected(s, key, cb, false).reg == Added(s.reg, NewPeer(s, key, cb))
  {
  }

  lemma TerminatedRegistry(s: State, p: Peer, session: Session, retry: bool, o: Oracle, cfg: Config)
    requires !o.stop
    ensures var r := Terminated(s, p, session, retry, o, cfg).reg;
            if p !in s.reg.ignored then r == Left(s.reg, p)
            else if p.key !in s.reg.scheduled then r == Forgotten(s.reg, p)
            else exists t: State :: t.reg == Forgotten(s.reg, p) &&
                                    r == PeerConnected(t, p.key, s.reg.scheduled[p.key], false).reg
  {
    if p in s.reg.ignored && p.key in s.reg.scheduled {
      var t := s.(lst := CloseOffline(s.lst, p.key), reg := Forgotten(s.reg, p));
      assert Terminated(s, p, session, retry, o, cfg) == PeerConnected(t, p.key, s.reg.scheduled[p.key], false);
    } else if p in s.reg.ignored {
      assert s.reg.scheduled - {p.key} == s.reg.scheduled;
    }
  }

  lemma ConnectedKeepsRegistry(s: State, key: PubKey, cb: Callback)
    requires RegistryInv(s.reg, {cb.conn}) && key !in s.reg.byPub && key !in s.reg.scheduled
    ensures RegistryInv(PeerConnected(s, key, cb, false).reg, {})
  {
    ConnectedRegistry(s, key, cb);
    AddKeepsRegistry(s.reg, NewPeer(s, key, cb));
  }

  lemma HandoverKeepsRegistry(s: State, p: Peer, cb: Callback, o: Oracle)
    requires RegistryInv(s.reg, {cb.conn}) && Registered(s.reg, p) && !o.stop
    ensures RegistryInv(Handover(s, p, cb, o).reg, {})
  {
    DetachKeepsRegistry(s.reg, p, {cb.conn});
    ScheduleKeepsRegistry(Detached(s.reg, p), p.key, cb);
  }

  lemma InboundKeepsRegistry(s: State, local: PubKey, conn: nat, key: PubKey, o: Oracle)
    requires RegistryInv(s.reg, {conn}) && !o.stop
    ensures RegistryInv(InboundConnected(s, local, conn, key, o).reg, {})
  {
    if key in s.reg.outbound || key in s.reg.scheduled {
      RejectKeepsRegistry(s.reg, conn);
    } else if key !in s.reg.byPub {
      ConnectedKeepsRegistry(CancelConnReqs(s, key), key, Callback(conn, true));
    } else {
      HandoverKeepsRegistry(CancelConnReqs(s, key), s.reg.byPub[key], Callback(conn, true), o);
    }
  }

  lemma OutboundKeepsRegistry(s: State, local: PubKey, conn: nat, key: PubKey, managed: bool, o: Oracle)
    requires RegistryInv(s.reg, {conn}) && !o.stop
    ensures RegistryInv(OutboundConnected(s, local, conn, key, managed, o).reg, {})
  {
    if key in s.reg.inbound || (key !in s.per.reqs && managed) || key in s.reg.scheduled {
      RejectKeepsRegistry(s.reg, conn);
    } else if key !in s.reg.byPub {
      ConnectedKeepsRegistry(CancelConnReqs(s, key), key, Callback(conn, false));
    } else {
      HandoverKeepsRegistry(CancelConnReqs(s, key), s.reg.byPub[key], Callback(conn, false), o);
    }
  }

  lemma TerminatedKeepsRegistry(s: State, p: Peer, session: Session, retry: bool, o: Oracle, cfg: Config)
    requires RegistryInv(s.reg, {}) && p in s.reg.watching && p in s.reg.launched && !o.stop
    ensures RegistryInv(Terminated(s, p, session, retry, o, cfg).reg, {})
  {
    TerminatedRegistry(s, p, session, retry, o, cfg);
    if p !in s.reg.ignored {
      LeaveKeepsRegistry(s.reg, p);
    } else {
      ForgetKeepsRegistry(s.reg, p);
      if p.key in s.reg.scheduled {
        ScheduledIsFree(s.reg, p.key);
        var t: State :| t.reg == Forgotten(s.reg, p) &&
          Terminated(s, p, session, retry, o, cfg).reg == PeerConnected(t, p.key, s.reg.scheduled[p.key], false).reg;
        ConnectedKeepsRegistry(t, p.key, s.reg.scheduled[p.key]);
      }
    }
  }

  lemma ScheduledIsFree(r: Registry, key: PubKey)
    requires HandoversWait(r) && key in r.scheduled
    ensures key !in r.byPub
  {
  }

  lemma MarksKeepRegistry(r: Registry, t: Registry)
    requires RegistryInv(r, {}) && t == r.(launched := t.launched, flushed := t.flushed)
    requires r.launched <= t.launched <= r.created && t.flushed <= r.created
    ensures RegistryInv(t, {})
  {
    SameWatchers(r, t);
    SameIndexes(r, t);
    SameHandovers(r, t);
    SamePlaces(r, t, {});
  }

  /** Only the handlers, `DisconnectPeer` and the watchers register, unregister or schedule. */
  ghost predicate Moves(e: Event) {
    e.Inbound? || e.Outbound? || e.Disconnect? || e.Watch?
  }

  lemma OthersMark(s: State, e: Event, o: Oracle, local: PubKey, cfg: Config)
    requires !Moves(e)
    ensures var r := Step(s, e, o, local, cfg).reg;
            && r == s.reg.(launched := r.launched, flushed := r.flushed)
            && (e.Launch? || r.launched == s.reg.launched) && (e.Flush? || r.flushed == s.reg.flushed)
  {
  }

  lemma StepKeepsRegistry(s: State, e: Event, o: Oracle, local: PubKey, cfg: Config)
    requires RegistryInv(s.reg, {}) && Enabled(s, e, o) && !s.stopping && !o.stop
    ensures RegistryInv(Step(s, e, o, local, cfg).reg, {})
  {
    match e
    case Inbound(conn, key) =>
      HandedKeepsRegistry(s.reg, conn);
      InboundKeepsRegistry(s.(reg := s.reg.(handed := s.reg.handed + {conn})), local, conn, key, o);
    case Outbound(conn, key, managed) =>
      HandedKeepsRegistry(s.reg, conn);
      OutboundKeepsRegistry(s.(reg := s.reg.(handed := s.reg.handed + {conn})), local, conn, key, managed, o);
    case Disconnect(key) =>
      if key in s.reg.byPub {
        DetachKeepsRegistry(s.reg, s.reg.byPub[key], {});
      }
    case Watch(p, session, retry) =>
      TerminatedKeepsRegistry(s, p, session, retry, o, cfg);
    case Launch(p) =>
      MarksKeepRegistry(s.reg, Step(s, e, o, local, cfg).reg);
    case Flush(p, _) =>
      MarksKeepRegistry(s.reg, Step(s, e, o, local, cfg).reg);
    case _ =>
  }

  // ---- channels and backoff, in every state

  /** The step either leaves listeners and retry cancellers alone or cancels the retries of `key`. */
  ghost predicate CancelsAtMost(s: State, t: State, key: PubKey) {
    var c := CancelConnReqs(s, key);
    (t.lst == s.lst && t.per.retry == s.per.retry) || (t.lst == c.lst && t.per.retry == c.per.retry)
  }

  lemma InboundCancels(s: State, local: PubKey, conn: nat, key: PubKey, o: Oracle)
    ensures CancelsAtMost(s, InboundConnected(s, local, conn, key, o), key)
  {
  }

  lemma OutboundCancels(s: State, local: PubKey, conn: nat, key: PubKey, managed: bool, o: Oracle)
    ensures CancelsAtMost(s, OutboundConnected(s, local, conn, key, managed, o), key)
  {
  }

  lemma DisconnectedCancels(s: State, key: PubKey, o: Oracle)
    ensures CancelsAtMost(s, Disconnected(s, key, o), key)
  {
  }

  lemma DisconnectedOnce(s: State, key: PubKey, o: Oracle)
    requires ChannelsOnce(s.lst, s.per.retry)
    ensures var t := Disconnected(s, key, o); ChannelsOnce(t.lst, t.per.retry)
  {
    DisconnectedCancels(s, key, o);
    CancelsAtMostOnce(s, Disconnected(s, key, o), key);
  }

  lemma CancelsAtMostOnce(s: State, t: State, key: PubKey)
    requires ChannelsOnce(s.lst, s.per.retry) && CancelsAtMost(s, t, key)
    ensures ChannelsOnce(t.lst, t.per.retry)
  {
    CancelRetryOnce(s, key);
  }

  lemma InboundOnce(s: State, local: PubKey, conn: nat, key: PubKey, o: Oracle)
    requires ChannelsOnce(s.lst, s.per.retry)
    ensures var t := InboundConnected(s, local, conn, key, o); ChannelsOnce(t.lst, t.per.retry)
  {
    InboundCancels(s, local, conn, key, o);
    CancelsAtMostOnce(s, InboundConnected(s, local, conn, key, o), key);
  }

  lemma OutboundOnce(s: State, local: PubKey, conn: nat, key: PubKey, managed: bool, o: Oracle)
    requires ChannelsOnce(s.lst, s.per.retry)
    ensures var t := OutboundConnected(s, local, conn, key, managed, o); ChannelsOnce(t.lst, t.per.retry)
  {
    OutboundCancels(s, local, conn, key, managed, o);
    CancelsAtMostOnce(s, OutboundConnected(s, local, conn, key, managed, o), key);
  }

  lemma OnlineRequestOnce(s: State, key: PubKey, quit: bool)
    requires ChannelsOnce(s.lst, s.per.retry)
    ensures var t := OnlineRequested(s, key, quit); ChannelsOnce(t.lst, t.per.retry)
  {
    OtherListenersOnce(s.lst, OnlineRequested(s, key, quit).lst, s.per.retry);
  }

  lemma FlushOnce(l: Listeners, retry: map<PubKey, Chan>, p: Peer, cut: nat)
    requires ChannelsOnce(l, retry)
    ensures ChannelsOnce(FlushOnline(l, p, cut), retry)
  {
    OtherListenersOnce(l, FlushOnline(l, p, cut), retry);
  }

  lemma AcceptOnce(s: State, e: Event, o: Oracle, local: PubKey, cfg: Config)
    requires ChannelsOnce(s.lst, s.per.retry) && (e.Inbound? || e.Outbound?)
    ensures var t := Step(s, e, o, local, cfg); ChannelsOnce(t.lst, t.per.retry)
  {
    var t := s.(reg := s.reg.(handed := s.reg.handed + {e.conn}));
    if e.Inbound? {
      InboundOnce(t, local, e.conn, e.key, o);
    } else {
      OutboundOnce(t, local, e.conn, e.key, e.managed, o);
    }
  }

  ghost predicate SameChannels(t: State, u: State) {
    t.lst == u.lst && t.per.retry == u.per.retry
  }

  /** What the events that register nobody do to channels. */
  ghost function ChannelStep(s: State, e: Event): State {
    match e
    case NotifyOnline(key, quit) => OnlineRequested(s, key, quit)
    case NotifyOffline(key) => OfflineRequested(s, key)
    case Flush(p, cut) => s.(lst := FlushOnline(s.lst, p, cut))
    case Reconnect(key, _) => EnsureRetry(s, key)
    case Prune(key) => Pruned(s, key)
    case _ => s
  }

  lemma OthersStepChannels(s: State, e: Event, o: Oracle, local: PubKey, cfg: Config)
    requires !Moves(e)
    ensures SameChannels(Step(s, e, o, local, cfg), ChannelStep(s, e))
  {
  }

  lemma SameOnce(t: State, u: State)
    requires SameChannels(t, u) && ChannelsOnce(u.lst, u.per.retry)
    ensures ChannelsOnce(t.lst, t.per.retry)
  {
  }

  lemma PruneOnce(s: State, key: PubKey)
    requires ChannelsOnce(s.lst, s.per.retry)
    ensures var t := Pruned(s, key); ChannelsOnce(t.lst, t.per.retry)
  {
    CancelRetryOnce(s, key);
  }

  lemma ChannelStepOnce(s: State, e: Event) returns (t: State)
    requires ChannelsOnce(s.lst, s.per.retry)
    ensures t == ChannelStep(s, e) && ChannelsOnce(t.lst, t.per.retry)
  {
    t := ChannelStep(s, e);
    if e.NotifyOnline? {
      OnlineRequestOnce(s, e.key, e.quit);
    } else if e.NotifyOffline? {
      OfflineRequestOnce(s, e.key);
    } else if e.Flush? {
      FlushOnce(s.lst, s.per.retry, e.peer, e.cut);
    } else if e.Reconnect? {
      EnsureRetryOnce(s, e.key);
    } else if e.Prune? {
      PruneOnce(s, e.key);
    } else {
      SameOnce(t, s);
    }
  }

  lemma RequestStepOnce(s: State, e: Event, o: Oracle, local: PubKey, cfg: Config)
    requires ChannelsOnce(s.lst, s.per.retry) && !Moves(e)
    ensures var t := Step(s, e, o, local, cfg); ChannelsOnce(t.lst, t.per.retry)
  {
    OthersStepChannels(s, e, o, local, cfg);
    var t := ChannelStepOnce(s, e);
    SameOnce(Step(s, e, o, local, cfg), t);
  }

  lemma StepKeepsChannels(s: State, e: Event, o: Oracle, local: PubKey, cfg: Config)
    requires ChannelsOnce(s.lst, s.per.retry)
    ensures var t := Step(s, e, o, local, cfg); ChannelsOnce(t.lst, t.per.retry)
  {
    if e.Inbound? || e.Outbound? {
      AcceptOnce(s, e, o, local, cfg);
    } else if e.Disconnect? {
      DisconnectedOnce(s, e.key, o);
    } else if e.Watch? {
      TerminatedOnce(s, e.peer, e.session, e.retry, o, cfg);
    } else {
      RequestStepOnce(s, e, o, local, cfg);
    }
  }

  lemma TerminatedOnce(s: State, p: Peer, session: Session, retry: bool, o: Oracle, cfg: Config)
    requires ChannelsOnce(s.lst, s.per.retry)
    ensures var t := Terminated(s, p, session, retry, o, cfg); ChannelsOnce(t.lst, t.per.retry)
  {
    CloseOfflineOnce(s.lst, s.per.retry, p.key);
    var t := s.(lst := CloseOffline(s.lst, p.key), reg := s.reg.(watching := s.reg.watching - {p}));
    if p !in s.reg.ignored {
      ScheduleRetryOnce(PeerRemoved(t, p, o), p.key, session, retry, cfg);
    }
  }

  lemma ScheduleRetryOnce(s: State, key: PubKey, session: Session, retry: bool, cfg: Config)
    requires ChannelsOnce(s.lst, s.per.retry)
    ensures var t := ScheduleRetry(s, key, session, retry, cfg); ChannelsOnce(t.lst, t.per.retry)
  {
    if key in s.per.peers && retry {
      var next := NextPeerBackoff(if key in s.per.backoff then Some(s.per.backoff[key]) else None, session, cfg);
      if next.Some? {
        EnsureRetryOnce(s.(per := s.per.(backoff := s.per.backoff[key := next.value])), key);
      }
    }
  }

  ghost predicate SameBackoff(p: Persistence, q: Persistence) {
    q.peers == p.peers && q.backoff == p.backoff && q.crashed == p.crashed
  }

  lemma HandlersKeepBackoff(s: State, local: PubKey, conn: nat, key: PubKey, managed: bool, o: Oracle)
    ensures SameBackoff(s.per, InboundConnected(s, local, conn, key, o).per)
    ensures SameBackoff(s.per, OutboundConnected(s, local, conn, key, managed, o).per)
  {
  }

  lemma RetryKeepsBackoff(s: State, key: PubKey, session: Session, retry: bool, cfg: Config)
    requires BackoffTracked(s.per, cfg)
    ensures BackoffTracked(ScheduleRetry(s, key, session, retry, cfg).per, cfg)
  {
    if SaneConfig(cfg) {
      NextPeerBackoffInRange(if key in s.per.backoff then Some(s.per.backoff[key]) else None, session, cfg);
    }
  }

  lemma TerminatedKeepsBackoff(s: State, p: Peer, session: Session, retry: bool, o: Oracle, cfg: Config)
    requires BackoffTracked(s.per, cfg)
    ensures BackoffTracked(Terminated(s, p, session, retry, o, cfg).per, cfg)
  {
    var t := s.(lst := CloseOffline(s.lst, p.key), reg := s.reg.(watching := s.reg.watching - {p}));
    if p !in s.reg.ignored {
      RetryKeepsBackoff(PeerRemoved(t, p, o), p.key, session, retry, cfg);
    }
  }

  lemma AcceptKeepsBackoff(s: State, e: Event, o: Oracle, local: PubKey, cfg: Config)
    requires e.Inbound? || e.Outbound?
    ensures SameBackoff(s.per, Step(s, e, o, local, cfg).per)
  {
    var t := s.(reg := s.reg.(handed := s.reg.handed + {e.conn}));
    HandlersKeepBackoff(t, local, e.conn, e.key, e.Outbound? && e.managed, o);
  }

  lemma StepKeepsBackoff(s: State, e: Event, o: Oracle, local: PubKey, cfg: Config)
    requires BackoffTracked(s.per, cfg)
    ensures BackoffTracked(Step(s, e, o, local, cfg).per, cfg)
  {
    if e.Inbound? || e.Outbound? {
      AcceptKeepsBackoff(s, e, o, local, cfg);
    } else if e.Watch? {
      TerminatedKeepsBackoff(s, e.peer, e.session, e.retry, o, cfg);
    }
  }

  // ---- listeners and error buffers, before shutdown

  /** The online side of the listeners is untouched. */
  ghost predicate SameAnswers(l: Listeners, m: Listeners) {
    m.online == l.online && m.sent == l.sent && m.issued == l.issued && m.nextChan >= l.nextChan
  }

  lemma RetryAnswers(s: State, key: PubKey, session: Session, retry: bool, cfg: Config)
    ensures var m := ScheduleRetry(s, key, session, retry, cfg).lst;
            SameAnswers(s.lst, m) && m.offline == s.lst.offline
  {
  }

  lemma TerminatedAnswers(s: State, p: Peer, session: Session, retry: bool, o: Oracle, cfg: Config)
    ensures var m := Terminated(s, p, session, retry, o, cfg).lst;
            SameAnswers(s.lst, m) && m.offline == s.lst.offline - {p.key}
  {
    var t := s.(lst := CloseOffline(s.lst, p.key), reg := s.reg.(watching := s.reg.watching - {p}));
    if p !in s.reg.ignored {
      RetryAnswers(PeerRemoved(t, p, o), p.key, session, retry, cfg);
    } else {
      assert IgnoredTerminated(t, p, o.stop).lst == t.lst;
    }
  }

  /** All events but the requests, the flush and the watcher leave the waiting lists alone. */
  ghost predicate KeepsLists(e: Event) {
    !e.Flush? && !e.NotifyOnline? && !e.NotifyOffline? && !e.Watch?
  }

  lemma AcceptKeepsLists(s: State, e: Event, o: Oracle, local: PubKey, cfg: Config)
    requires e.Inbound? || e.Outbound?
    ensures var m := Step(s, e, o, local, cfg).lst; SameAnswers(s.lst, m) && m.offline == s.lst.offline
  {
    var t := s.(reg := s.reg.(handed := s.reg.handed + {e.conn}));
    if e.Inbound? {
      InboundCancels(t, local, e.conn, e.key, o);
    } else {
      OutboundCancels(t, local, e.conn, e.key, e.managed, o);
    }
  }

  lemma DisconnectKeepsLists(s: State, e: Event, o: Oracle, local: PubKey, cfg: Config)
    requires e.Disconnect?
    ensures var m := Step(s, e, o, local, cfg).lst; SameAnswers(s.lst, m) && m.offline == s.lst.offline
  {
    DisconnectedCancels(s, e.key, o);
  }

  lemma OthersKeepLists(s: State, e: Event, o: Oracle, local: PubKey, cfg: Config)
    requires KeepsLists(e) && !e.Inbound? && !e.Outbound? && !e.Disconnect?
    ensures var m := Step(s, e, o, local, cfg).lst; SameAnswers(s.lst, m) && m.offline == s.lst.offline
  {
  }

  lemma StepKeepsLists(s: State, e: Event, o: Oracle, local: PubKey, cfg: Config)
    requires KeepsLists(e)
    ensures var m := Step(s, e, o, local, cfg).lst; SameAnswers(s.lst, m) && m.offline == s.lst.offline
  {
    if e.Inbound? || e.Outbound? {
      AcceptKeepsLists(s, e, o, local, cfg);
    } else if e.Disconnect? {
      DisconnectKeepsLists(s, e, o, local, cfg);
    } else {
      OthersKeepLists(s, e, o, local, cfg);
    }
  }

  lemma StepKeepsAnswers(s: State, e: Event, o: Oracle, local: PubKey, cfg: Config)
    requires AnsweredOnce(s.lst) && WatchersMatch(s.reg) && Enabled(s, e, o) && !s.stopping && !o.stop
    ensures AnsweredOnce(Step(s, e, o, local, cfg).lst)
  {
    if KeepsLists(e) {
      StepKeepsLists(s, e, o, local, cfg);
      OtherAnswersOnce(s.lst, Step(s, e, o, local, cfg).lst);
    } else if e.Watch? {
      TerminatedAnswers(s, e.peer, e.session, e.retry, o, cfg);
      OtherAnswersOnce(s.lst, Step(s, e, o, local, cfg).lst);
    } else if e.Flush? {
      FlushAnswersOnce(s.lst, e.peer, e.cut);
    } else if e.NotifyOnline? {
      OnlineRequestAnswersOnce(s, e.key);
    } else {
      OtherAnswersOnce(s.lst, OfflineRequested(s, e.key).lst);
    }
  }

  /** A peer is only registered when it is made, and only the initializer marks a peer as flushed. */
  ghost predicate Calm(r: Registry, t: Registry) {
    && (forall k :: k in t.byPub ==> (k in r.byPub && t.byPub[k] == r.byPub[k]) || t.byPub[k].id == r.nextId)
    && t.flushed == r.flushed
  }

  lemma InboundCalm(s: State, local: PubKey, conn: nat, key: PubKey, o: Oracle)
    ensures var t := InboundConnected(s, local, conn, key, o).reg; Calm(s.reg, t) && s.reg.watching <= t.watching
  {
  }

  lemma OutboundCalm(s: State, local: PubKey, conn: nat, key: PubKey, managed: bool, o: Oracle)
    ensures var t := OutboundConnected(s, local, conn, key, managed, o).reg;
            Calm(s.reg, t) && s.reg.watching <= t.watching
  {
  }

  lemma TerminatedCalm(s: State, p: Peer, session: Session, retry: bool, o: Oracle, cfg: Config)
    ensures var t := Terminated(s, p, session, retry, o, cfg).reg;
            Calm(s.reg, t) && s.reg.watching - {p} <= t.watching
  {
  }

  lemma StepCalm(s: State, e: Event, o: Oracle, local: PubKey, cfg: Config)
    requires KeepsLists(e)
    ensures var t := Step(s, e, o, local, cfg).reg; Calm(s.reg, t) && s.reg.watching <= t.watching
  {
    if e.Inbound? {
      InboundCalm(s.(reg := s.reg.(handed := s.reg.handed + {e.conn})), local, e.conn, e.key, o);
    } else if e.Outbound? {
      OutboundCalm(s.(reg := s.reg.(handed := s.reg.handed + {e.conn})), local, e.conn, e.key, e.managed, o);
    } else if !e.Disconnect? {
      OthersMark(s, e, o, local, cfg);
    }
  }

  lemma CalmKeepsListeners(r: Registry, t: Registry, l: Listeners, m: Listeners)
    requires ListenersMatch(r, l) && Identities(r) && Calm(r, t)
    requires m.online == l.online
    requires forall k :: k in m.offline ==> k in l.offline && Watched(t, k)
    ensures ListenersMatch(t, m)
  {
  }

  lemma StillWatched(r: Registry, t: Registry)
    requires r.watching <= t.watching
    ensures forall k :: Watched(r, k) ==> Watched(t, k)
  {
  }

  lemma OtherStillWatched(r: Registry, t: Registry, p: Peer)
    requires r.watching - {p} <= t.watching
    ensures forall k :: Watched(r, k) && k != p.key ==> Watched(t, k)
  {
    forall k | Watched(r, k) && k != p.key ensures Watched(t, k) {
      var q :| q in r.watching && q.key == k;
      assert q in t.watching;
    }
  }

  lemma RequestsKeepListeners(s: State, key: PubKey)
    requires ListenersMatch(s.reg, s.lst) && WatchersMatch(s.reg)
    ensures ListenersMatch(s.reg, OfflineRequested(s, key).lst)
    ensures ListenersMatch(s.reg, OnlineRequested(s, key, false).lst)
  {
    if key in s.reg.byPub {
      assert s.reg.byPub[key] in s.reg.watching;
    }
  }

  lemma FlushKeepsListeners(r: Registry, l: Listeners, p: Peer, cut: nat)
    requires ListenersMatch(r, l) && WatchersMatch(r) && cut >= |Waiting(l.online, p.key)|
    ensures ListenersMatch(r.(flushed := r.flushed + {p}), FlushOnline(l, p, cut))
  {
    StillWatched(r, r.(flushed := r.flushed + {p}));
  }

  lemma StepKeepsListeners(s: State, e: Event, o: Oracle, local: PubKey, cfg: Config)
    requires ListenersMatch(s.reg, s.lst) && WatchersMatch(s.reg) && Identities(s.reg)
    requires Enabled(s, e, o) && !s.stopping && !o.stop
    ensures var t := Step(s, e, o, local, cfg); ListenersMatch(t.reg, t.lst)
  {
    var t := Step(s, e, o, local, cfg);
    if KeepsLists(e) {
      StepKeepsLists(s, e, o, local, cfg);
      StepCalm(s, e, o, local, cfg);
      StillWatched(s.reg, t.reg);
      CalmKeepsListeners(s.reg, t.reg, s.lst, t.lst);
    } else if e.Watch? {
      TerminatedAnswers(s, e.peer, e.session, e.retry, o, cfg);
      TerminatedCalm(s, e.peer, e.session, e.retry, o, cfg);
      OtherStillWatched(s.reg, t.reg, e.peer);
      CalmKeepsListeners(s.reg, t.reg, s.lst, t.lst);
    } else if e.Flush? {
      FlushKeepsListeners(s.reg, s.lst, e.peer, e.cut);
    } else {
      RequestsKeepListeners(s, e.key);
    }
  }

  lemma ConnectedKeepsErrors(s: State, key: PubKey, cb: Callback)
    requires ErrorsMatch(s.reg, s.err)
    ensures var t := PeerConnected(s, key, cb, false); ErrorsMatch(t.reg, t.err)
  {
  }

  lemma RemovedKeepsErrors(s: State, p: Peer, o: Oracle)
    requires ErrorsMatch(s.reg, s.err) && p in s.reg.created && !o.stop
    ensures var t := PeerRemoved(s, p, o); ErrorsMatch(t.reg, t.err)
  {
  }

  /** Two states agree on the registered peers, the peers ever made and the error buffers. */
  ghost predicate Agree(t: State, u: State) {
    t.reg.byPub == u.reg.byPub && t.reg.created == u.reg.created && t.err == u.err
  }

  /** As far as error buffers go, a handler rejects the connection, connects a peer, or removes the incumbent. */
  ghost predicate Handles(s: State, t: State, key: PubKey, cb: Callback, o: Oracle) {
    || Agree(t, s)
    || (key !in s.reg.byPub && Agree(t, PeerConnected(s, key, cb, false)))
    || (key in s.reg.byPub && Agree(t, PeerRemoved(s, s.reg.byPub[key], o)))
  }

  lemma InboundHandles(s: State, local: PubKey, conn: nat, key: PubKey, o: Oracle)
    requires !o.stop
    ensures Handles(s, InboundConnected(s, local, conn, key, o), key, Callback(conn, true), o)
  {
  }

  lemma OutboundHandles(s: State, local: PubKey, conn: nat, key: PubKey, managed: bool, o: Oracle)
    requires !o.stop
    ensures Handles(s, OutboundConnected(s, local, conn, key, managed, o), key, Callback(conn, false), o)
  {
  }

  lemma DisconnectedHandles(s: State, key: PubKey, o: Oracle)
    requires !o.stop
    ensures Handles(s, Disconnected(s, key, o), key, Callback(0, false), o)
  {
  }

  lemma TerminatedHandlesOwn(s: State, p: Peer, session: Session, retry: bool, o: Oracle, cfg: Config)
    requires !o.stop && p !in s.reg.ignored
    ensures Agree(Terminated(s, p, session, retry, o, cfg), PeerRemoved(s, p, o))
  {
    var t := s.(lst := CloseOffline(s.lst, p.key), reg := s.reg.(watching := s.reg.watching - {p}));
    RetryAgrees(PeerRemoved(t, p, o), p.key, session, retry, cfg);
  }

  lemma RetryAgrees(s: State, key: PubKey, session: Session, retry: bool, cfg: Config)
    ensures Agree(ScheduleRetry(s, key, session, retry, cfg), s)
  {
  }

  lemma TerminatedHandlesIgnored(s: State, p: Peer, session: Session, retry: bool, o: Oracle, cfg: Config)
    requires !o.stop && p in s.reg.ignored
    ensures var t := Terminated(s, p, session, retry, o, cfg);
            if p.key !in s.reg.scheduled then Agree(t, s)
            else Agree(t, PeerConnected(s, p.key, s.reg.scheduled[p.key], false))
  {
  }

  lemma HandlesKeepsErrors(s: State, t: State, key: PubKey, cb: Callback, o: Oracle)
    requires ErrorsMatch(s.reg, s.err) && Handles(s, t, key, cb, o) && !o.stop
    requires key in s.reg.byPub ==> s.reg.byPub[key] in s.reg.created
    ensures ErrorsMatch(t.reg, t.err)
  {
    if key !in s.reg.byPub {
      ConnectedKeepsErrors(s, key, cb);
    } else {
      RemovedKeepsErrors(s, s.reg.byPub[key], o);
    }
  }

  lemma InboundKeepsErrors(s: State, local: PubKey, conn: nat, key: PubKey, o: Oracle)
    requires ErrorsMatch(s.reg, s.err) && !o.stop
    requires key in s.reg.byPub ==> s.reg.byPub[key] in s.reg.created
    ensures var t := InboundConnected(s, local, conn, key, o); ErrorsMatch(t.reg, t.err)
  {
    InboundHandles(s, local, conn, key, o);
    HandlesKeepsErrors(s, InboundConnected(s, local, conn, key, o), key, Callback(conn, true), o);
  }

  lemma OutboundKeepsErrors(s: State, local: PubKey, conn: nat, key: PubKey, managed: bool, o: Oracle)
    requires ErrorsMatch(s.reg, s.err) && !o.stop
    requires key in s.reg.byPub ==> s.reg.byPub[key] in s.reg.created
    ensures var t := OutboundConnected(s, local, conn, key, managed, o); ErrorsMatch(t.reg, t.err)
  {
    OutboundHandles(s, local, conn, key, managed, o);
    HandlesKeepsErrors(s, OutboundConnected(s, local, conn, key, managed, o), key, Callback(conn, false), o);
  }

  lemma DisconnectedKeepsErrors(s: State, key: PubKey, o: Oracle)
    requires ErrorsMatch(s.reg, s.err) && !o.stop
    requires key in s.reg.byPub ==> s.reg.byPub[key] in s.reg.created
    ensures var t := Disconnected(s, key, o); ErrorsMatch(t.reg, t.err)
  {
    DisconnectedHandles(s, key, o);
    HandlesKeepsErrors(s, Disconnected(s, key, o), key, Callback(0, false), o);
  }

  lemma StepKeepsErrors(s: State, e: Event, o: Oracle, local: PubKey, cfg: Config)
    requires ErrorsMatch(s.reg, s.err) && WatchersMatch(s.reg) && Identities(s.reg)
    requires Enabled(s, e, o) && !s.stopping && !o.stop
    ensures var t := Step(s, e, o, local, cfg); ErrorsMatch(t.reg, t.err)
  {
    match e
    case Inbound(conn, key) =>
      InboundKeepsErrors(s.(reg := s.reg.(handed := s.reg.handed + {conn})), local, conn, key, o);
    case Outbound(conn, key, managed) =>
      OutboundKeepsErrors(s.(reg := s.reg.(handed := s.reg.handed + {conn})), local, conn, key, managed, o);
    case Disconnect(key) => DisconnectedKeepsErrors(s, key, o);
    case Watch(p, session, retry) =>
      TerminatedKeepsErrors(s, p, session, retry, o, cfg);
    case _ =>
  }

  lemma TerminatedKeepsErrors(s: State, p: Peer, session: Session, retry: bool, o: Oracle, cfg: Config)
    requires ErrorsMatch(s.reg, s.err) && p in s.reg.created && !o.stop
    ensures var t := Terminated(s, p, session, retry, o, cfg); ErrorsMatch(t.reg, t.err)
  {
    if p !in s.reg.ignored {
      TerminatedHandlesOwn(s, p, session, retry, o, cfg);
      RemovedKeepsErrors(s, p, o);
    } else {
      TerminatedHandlesIgnored(s, p, session, retry, o, cfg);
      if p.key in s.reg.scheduled {
        ConnectedKeepsErrors(s, p.key, s.reg.scheduled[p.key]);
      }
    }
  }

  // ---- all of it

  lemma NextKeepsInv(s: State, e: Event, o: Oracle, local: PubKey, cfg: Config)
    requires Inv(s, cfg) && Enabled(s, e, o)
    ensures Inv(Next(s, e, o, local, cfg), cfg)
  {
    StepKeepsChannels(s, e, o, local, cfg);
    StepKeepsBackoff(s, e, o, local, cfg);
    if !s.stopping && !o.stop {
      StepKeepsRegistry(s, e, o, local, cfg);
      StepKeepsAnswers(s, e, o, local, cfg);
      StepKeepsListeners(s, e, o, local, cfg);
      StepKeepsErrors(s, e, o, local, cfg);
    }
  }

  lemma EmptyInv(cfg: Config)
    ensures Inv(EMPTY, cfg)
  {
    forall c ensures Uses(EMPTY.lst, EMPTY.per.retry, c) == 0 {
    }
  }

  /** The invariant holds after every run of the server. */
  lemma {:induction false} RunKeepsInv(s: State, run: seq<Entry>, local: PubKey, cfg: Config)
    requires Inv(s, cfg) && IsRun(s, run, local, cfg)
    ensures Inv(After(s, run, local, cfg), cfg)
  {
    if run != [] {
      var before := run[..|run| - 1];
      var last := run[|run| - 1];
      RunKeepsInv(s, before, local, cfg);
      NextKeepsInv(After(s, before, local, cfg), last.event, last.oracle, local, cfg);
    }
  }
}
