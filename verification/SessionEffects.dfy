/** What the session manager's operations do to reconnecting, key by key: when retries stop, who is persistent, and
    what a terminated session leaves behind. */
module SessionEffects {
  import opened Wrappers
  import opened Backoff
  import opened SessionState
  import opened SessionInvariants
  import opened SessionListeners
  import opened SessionSteps
  import opened SessionProperties

  // ---- frames

  /** Requests and retry cancellers of all keys but one are what they were, and none of their channels was closed. */
  ghost predicate OtherRetriesKept(s: State, t: State, key: PubKey) {
    && (forall k :: k != key ==> (k in t.per.reqs <==> k in s.per.reqs) && (k in t.per.retry <==> k in s.per.retry))
    && (forall k :: k != key && k in s.per.reqs ==> t.per.reqs[k] == s.per.reqs[k])
    && (forall k :: k != key && k in s.per.retry ==> t.per.retry[k] == s.per.retry[k])
    && (forall c: Chan :: c.key != key ==> t.lst.closes[c] == s.lst.closes[c])
  }

  /** The server no longer dials the key: it has neither requests nor a retry canceller, and the canceller it had is
      closed, once. */
  ghost predicate RetriesEnded(s: State, t: State, key: PubKey) {
    && key !in t.per.reqs && key !in t.per.retry
    && (key in s.per.retry ==> t.lst.closes[s.per.retry[key]] == 1)
    && OtherRetriesKept(s, t, key)
  }

  /** Flags and backoffs of all keys but one are what they were. */
  ghost predicate OtherPeersKept(s: State, t: State, key: PubKey) {
    && (forall k :: k != key ==>
          (k in t.per.peers <==> k in s.per.peers) && (k in t.per.backoff <==> k in s.per.backoff))
    && (forall k :: k != key && k in s.per.peers ==> t.per.peers[k] == s.per.peers[k])
    && (forall k :: k != key && k in s.per.backoff ==> t.per.backoff[k] == s.per.backoff[k])
  }

  // ---- retries end

  lemma CancelEnds(s: State, key: PubKey)
    requires ChannelsOnce(s.lst, s.per.retry)
    ensures RetriesEnded(s, CancelConnReqs(s, key), key)
  {
    CancelRetryOnce(s, key);
    var t := CancelConnReqs(s, key);
    forall c: Chan | c.key != key ensures t.lst.closes[c] == s.lst.closes[c] {
      assert key in s.per.retry ==> s.per.retry[key].key == key;
    }
  }

  lemma SameEnded(s: State, t: State, u: State, key: PubKey)
    requires RetriesEnded(s, u, key)
    requires t.per.reqs == u.per.reqs && t.per.retry == u.per.retry && t.lst.closes == u.lst.closes
    ensures RetriesEnded(s, t, key)
  {
  }

  /** What a handler or `DisconnectPeer` leaves of the retries is what `CancelConnReqs` leaves. */
  ghost predicate CancelsRetries(s: State, t: State, key: PubKey) {
    var u := CancelConnReqs(s, key);
    t.per.reqs == u.per.reqs && t.per.retry == u.per.retry && t.lst == u.lst
  }

  lemma InboundCancelsRetries(s: State, local: PubKey, conn: nat, key: PubKey, o: Oracle)
    requires IndexesMatch(s.reg) && conn !in s.reg.rejected
    ensures var t := InboundConnected(s, local, conn, key, o);
            && (conn in t.reg.rejected <==> key in s.reg.outbound || key in s.reg.scheduled)
            && (if conn in t.reg.rejected then t.per == s.per && t.lst == s.lst
                else CancelsRetries(s, t, key) && t.per.peers == s.per.peers && t.per.backoff == s.per.backoff)
  {
    IndexOfKey(s.reg, key);
  }

  lemma OutboundCancelsRetries(s: State, local: PubKey, conn: nat, key: PubKey, managed: bool, o: Oracle)
    requires IndexesMatch(s.reg) && conn !in s.reg.rejected
    ensures var t := OutboundConnected(s, local, conn, key, managed, o);
            && (conn in t.reg.rejected <==>
                key in s.reg.inbound || key in s.reg.scheduled || (managed && key !in s.per.reqs))
            && (if conn in t.reg.rejected then t.per == s.per && t.lst == s.lst
                else CancelsRetries(s, t, key) && t.per.peers == s.per.peers && t.per.backoff == s.per.backoff)
  {
    IndexOfKey(s.reg, key);
  }

  /** A connection is closed by the inbound handler exactly when the key has an outbound peer or a waiting connection;
      otherwise the server stops dialling the key, and no other key is affected. */
  lemma AcceptedInboundEndsRetries(s: State, run: seq<Entry>, conn: nat, key: PubKey, o: Oracle,
                                   local: PubKey, cfg: Config)
    requires Reached(s, run, local, cfg) && Enabled(s, Inbound(conn, key), o) && !o.stop
    ensures var t := Next(s, Inbound(conn, key), o, local, cfg);
            && (conn in t.reg.rejected <==> key in s.reg.outbound || key in s.reg.scheduled)
            && (if conn in t.reg.rejected then t.per == s.per && t.lst == s.lst
                else RetriesEnded(s, t, key) && t.per.peers == s.per.peers && t.per.backoff == s.per.backoff)
  {
    ReachedInv(s, run, local, cfg);
    var h := s.(reg := s.reg.(handed := s.reg.handed + {conn}));
    var t := InboundConnected(h, local, conn, key, o);
    InboundCancelsRetries(h, local, conn, key, o);
    if conn !in t.reg.rejected {
      CancelEnds(s, key);
      SameEnded(s, t, CancelConnReqs(s, key), key);
    }
  }

  /** The same for the outbound handler, which also closes the connection of a cancelled request. */
  lemma AcceptedOutboundEndsRetries(s: State, run: seq<Entry>, conn: nat, key: PubKey, managed: bool, o: Oracle,
                                    local: PubKey, cfg: Config)
    requires Reached(s, run, local, cfg) && Enabled(s, Outbound(conn, key, managed), o) && !o.stop
    ensures var t := Next(s, Outbound(conn, key, managed), o, local, cfg);
            && (conn in t.reg.rejected <==>
                key in s.reg.inbound || key in s.reg.scheduled || (managed && key !in s.per.reqs))
            && (if conn in t.reg.rejected then t.per == s.per && t.lst == s.lst
                else RetriesEnded(s, t, key) && t.per.peers == s.per.peers && t.per.backoff == s.per.backoff)
  {
    ReachedInv(s, run, local, cfg);
    var h := s.(reg := s.reg.(handed := s.reg.handed + {conn}));
    var t := OutboundConnected(h, local, conn, key, managed, o);
    OutboundCancelsRetries(h, local, conn, key, managed, o);
    if conn !in t.reg.rejected {
      CancelEnds(s, key);
      SameEnded(s, t, CancelConnReqs(s, key), key);
    }
  }

  lemma DisconnectedCancelsRetries(s: State, key: PubKey, o: Oracle)
    requires key in s.reg.byPub
    ensures var t := Disconnected(s, key, o);
            && CancelsRetries(s, t, key) && key !in t.per.peers && key !in t.per.backoff && OtherPeersKept(s, t, key)
  {
  }

  /** Disconnecting a registered peer ends its retries and makes the key non-persistent, and touches no other key; for
      a key that is not registered nothing happens. */
  lemma DisconnectEndsRetries(s: State, run: seq<Entry>, key: PubKey, o: Oracle, local: PubKey, cfg: Config)
    requires Reached(s, run, local, cfg) && Enabled(s, Disconnect(key), o) && !o.stop
    ensures var t := Next(s, Disconnect(key), o, local, cfg);
            if key !in s.reg.byPub then t == s
            else RetriesEnded(s, t, key) && key !in t.per.peers && key !in t.per.backoff && OtherPeersKept(s, t, key)
  {
    if key in s.reg.byPub {
      ReachedInv(s, run, local, cfg);
      DisconnectedCancelsRetries(s, key, o);
      CancelEnds(s, key);
      SameEnded(s, Disconnected(s, key, o), CancelConnReqs(s, key), key);
    }
  }

  /** Only a peer nobody asked to keep is pruned: it is then no longer persistent or dialled. A permanent peer, or one
      that is not persistent, is left alone. */
  lemma PruneSparesPermanent(s: State, run: seq<Entry>, key: PubKey, o: Oracle, local: PubKey, cfg: Config)
    requires Reached(s, run, local, cfg) && Enabled(s, Prune(key), o) && !o.stop
    ensures var t := Next(s, Prune(key), o, local, cfg);
            && t.reg == s.reg && t.err == s.err
            && if key in s.per.peers && !s.per.peers[key] then
                 RetriesEnded(s, t, key) && key !in t.per.peers && key !in t.per.backoff && OtherPeersKept(s, t, key)
               else t == s
  {
    if key in s.per.peers && !s.per.peers[key] {
      ReachedInv(s, run, local, cfg);
      CancelEnds(s, key);
      SameEnded(s, Pruned(s, key), CancelConnReqs(s, key), key);
    }
  }

  // ---- who is persistent

  /** `ConnectToPeer` with `perm`: a registered key is refused and nothing changes. */
  lemma ConnectRefusesRegistered(s: State, key: PubKey, req: nat, o: Oracle, local: PubKey, cfg: Config)
    requires key in s.reg.byPub && !o.stop
    ensures Next(s, ConnectPermanent(key, req), o, local, cfg) == s
  {
  }

  /** Any other key is permanent then, keeps its backoff or gets the minimum, and has one more request; nothing else
      changes. */
  lemma ConnectMakesPermanent(s: State, key: PubKey, req: nat, o: Oracle, local: PubKey, cfg: Config)
    requires key !in s.reg.byPub && !o.stop
    ensures var t := Next(s, ConnectPermanent(key, req), o, local, cfg);
            && t.reg == s.reg && t.err == s.err && t.lst == s.lst && t.per.retry == s.per.retry
            && key in t.per.peers && t.per.peers[key]
            && key in t.per.backoff
            && t.per.backoff[key] == (if key in s.per.backoff then s.per.backoff[key] else cfg.min)
            && key in t.per.reqs
            && t.per.reqs[key] == (if key in s.per.reqs then s.per.reqs[key] else []) + [req]
            && OtherPeersKept(s, t, key) && OtherRetriesKept(s, t, key)
  {
  }

  /** Events that take the permanent mark from a key. */
  predicate Demotes(e: Event, key: PubKey) {
    e == Disconnect(key) || e == Establish(key)
  }

  ghost predicate Permanent(s: State, key: PubKey) {
    key in s.per.peers && s.per.peers[key]
  }

  lemma TerminatedKeepsFlags(s: State, p: Peer, session: Session, retry: bool, o: Oracle, cfg: Config)
    ensures Terminated(s, p, session, retry, o, cfg).per.peers == s.per.peers
  {
  }

  lemma StepKeepsPermanent(s: State, e: Event, o: Oracle, key: PubKey, local: PubKey, cfg: Config)
    requires Permanent(s, key) && !Demotes(e, key)
    ensures Permanent(Step(s, e, o, local, cfg), key)
  {
    if e.Inbound? || e.Outbound? {
      AcceptKeepsBackoff(s, e, o, local, cfg);
    } else if e.Watch? {
      TerminatedKeepsFlags(s, e.peer, e.session, e.retry, o, cfg);
    }
  }

  /** A key connected with `perm` stays permanent over every run in which it is neither disconnected explicitly nor
      set up anew from the channel graph; in particular it survives every prune. */
  lemma {:induction false} PermanentSurvives(s: State, run: seq<Entry>, key: PubKey, local: PubKey, cfg: Config)
    requires Permanent(s, key) && forall i :: 0 <= i < |run| ==> !Demotes(run[i].event, key)
    ensures Permanent(After(s, run, local, cfg), key)
  {
    if run != [] {
      var before, last := run[..|run| - 1], run[|run| - 1];
      PermanentSurvives(s, before, key, local, cfg);
      StepKeepsPermanent(After(s, before, local, cfg), last.event, last.oracle, key, local, cfg);
    }
  }

  /** Events that make a key persistent, permanently or until it is pruned. */
  predicate Promotes(e: Event, key: PubKey, permanently: bool) {
    match e
    case ConnectPermanent(k, _) => k == key && permanently
    case WatchNewChannel(k) => k == key && !permanently
    case Establish(k) => k == key && !permanently
    case _ => false
  }

  /** The step gives the key its flag. */
  ghost predicate GainsFlag(s: State, t: State, key: PubKey) {
    key in t.per.peers && (key !in s.per.peers || s.per.peers[key] != t.per.peers[key])
  }

  lemma FlagHasCause(s: State, e: Event, o: Oracle, key: PubKey, local: PubKey, cfg: Config)
    requires GainsFlag(s, Step(s, e, o, local, cfg), key)
    ensures Promotes(e, key, Step(s, e, o, local, cfg).per.peers[key])
  {
    if e.Inbound? || e.Outbound? {
      AcceptKeepsBackoff(s, e, o, local, cfg);
    } else if e.Watch? {
      TerminatedKeepsFlags(s, e.peer, e.session, e.retry, o, cfg);
    }
  }

  /** Nobody becomes persistent by itself: a permanent peer was connected with `perm`, and any other persistent peer
      got a channel or was set up from the channel graph. */
  lemma {:induction false} PersistenceHasCause(run: seq<Entry>, key: PubKey, local: PubKey, cfg: Config)
    requires key in After(EMPTY, run, local, cfg).per.peers
    ensures exists i :: 0 <= i < |run| &&
              Promotes(run[i].event, key, After(EMPTY, run, local, cfg).per.peers[key])
  {
    assert run != [];
    var before, last := run[..|run| - 1], run[|run| - 1];
    var s := After(EMPTY, before, local, cfg);
    var t := Step(s, last.event, last.oracle, local, cfg);
    if GainsFlag(s, t, key) {
      FlagHasCause(s, last.event, last.oracle, key, local, cfg);
      assert Promotes(run[|run| - 1].event, key, t.per.peers[key]);
    } else {
      PersistenceHasCause(before, key, local, cfg);
      var i :| 0 <= i < |before| && Promotes(before[i].event, key, s.per.peers[key]);
      assert run[i] == before[i];
    }
  }

  /** A new channel makes a key persistent and leaves the flag of a key that already is alone. */
  lemma NewChannelKeepsFlag(s: State, key: PubKey, o: Oracle, local: PubKey, cfg: Config)
    requires !o.stop
    ensures var t := Next(s, Event.WatchNewChannel(key), o, local, cfg);
            && key in t.per.peers && t.per.peers[key] == Permanent(s, key) && OtherPeersKept(s, t, key)
            && t == s.(per := s.per.(peers := t.per.peers))
  {
  }

  /** The start-up makes a key persistent but not permanent, with its backoff or the minimum. */
  lemma StartupMakesPersistent(s: State, key: PubKey, o: Oracle, local: PubKey, cfg: Config)
    requires !o.stop
    ensures var t := Next(s, Establish(key), o, local, cfg);
            && key in t.per.peers && !t.per.peers[key] && OtherPeersKept(s, t, key)
            && key in t.per.backoff
            && t.per.backoff[key] == (if key in s.per.backoff then s.per.backoff[key] else cfg.min)
            && t == s.(per := s.per.(peers := t.per.peers, backoff := t.per.backoff))
  {
  }

  // ---- what a terminated session leaves behind

  lemma RetryLeaves(s: State, key: PubKey, session: Session, retry: bool, cfg: Config)
    ensures var t := ScheduleRetry(s, key, session, retry, cfg);
            var next := NextPeerBackoff(if key in s.per.backoff then Some(s.per.backoff[key]) else None, session, cfg);
            if key in s.per.peers && retry && next.Some? then
              && key in t.per.backoff && t.per.backoff[key] == next.value && key in t.per.retry
              && (key in s.per.retry ==> t.per.retry[key] == s.per.retry[key])
              && t.per.peers == s.per.peers && t.per.reqs == s.per.reqs
              && OtherPeersKept(s, t, key) && OtherRetriesKept(s, t, key)
            else t.per == s.per.(crashed := t.per.crashed) && t.lst == s.lst
  {
  }

  /** When the live peer of a persistent key goes and an address is left, the next backoff is stored and a retry is
      under way; in every other case a watcher leaves requests, retries, flags and backoffs alone. */
  lemma WatcherSchedulesRetry(s: State, run: seq<Entry>, p: Peer, session: Session, retry: bool, o: Oracle,
                              local: PubKey, cfg: Config)
    requires Reached(s, run, local, cfg) && Enabled(s, Watch(p, session, retry), o) && !o.stop
    ensures var t := Next(s, Watch(p, session, retry), o, local, cfg);
            var known := if p.key in s.per.backoff then Some(s.per.backoff[p.key]) else None;
            var next := NextPeerBackoff(known, session, cfg);
            && t.per.peers == s.per.peers && t.per.reqs == s.per.reqs
            && if Registered(s.reg, p) && p.key in s.per.peers && retry && next.Some? then
                 && p.key in t.per.backoff && t.per.backoff[p.key] == next.value && p.key in t.per.retry
                 && (p.key in s.per.retry ==> t.per.retry[p.key] == s.per.retry[p.key])
                 && OtherPeersKept(s, t, p.key)
               else t.per.backoff == s.per.backoff && t.per.retry == s.per.retry
  {
    ReachedInv(s, run, local, cfg);
    assert p in s.reg.ignored <==> !Registered(s.reg, p);
    if p !in s.reg.ignored {
      var t := s.(lst := CloseOffline(s.lst, p.key), reg := s.reg.(watching := s.reg.watching - {p}));
      RetryLeaves(PeerRemoved(t, p, o), p.key, session, retry, cfg);
    }
  }

  /** Reconnecting stores the requests kept and has a retry under way. */
  lemma ReconnectStores(s: State, key: PubKey, reqs: seq<nat>, o: Oracle, local: PubKey, cfg: Config)
    requires !o.stop
    ensures var t := Next(s, Reconnect(key, reqs), o, local, cfg);
            && key in t.per.reqs && t.per.reqs[key] == reqs && key in t.per.retry
            && (key in s.per.retry ==> t.per.retry == s.per.retry) && OtherRetriesKept(s, t, key)
            && t.per.peers == s.per.peers && t.per.backoff == s.per.backoff && t.reg == s.reg && t.err == s.err
  {
  }

  /** Each further request of a reconnect is appended. */
  lemma RequestIsAppended(s: State, key: PubKey, req: nat, o: Oracle, local: PubKey, cfg: Config)
    requires !o.stop
    ensures var t := Next(s, AppendRequest(key, req), o, local, cfg);
            && key in t.per.reqs && t.per.reqs[key] == (if key in s.per.reqs then s.per.reqs[key] else []) + [req]
            && OtherRetriesKept(s, t, key) && t == s.(per := s.per.(reqs := t.per.reqs))
  {
  }

  // ---- listeners

  lemma TerminatedCloses(s: State, p: Peer, session: Session, retry: bool, o: Oracle, cfg: Config)
    ensures Terminated(s, p, session, retry, o, cfg).lst.closes == CloseOffline(s.lst, p.key).closes
  {
  }

  /** A watcher, late or not, closes all offline channels of its key, each once, and no other channel; it answers no
      online registration. */
  lemma WatcherClosesOffline(s: State, run: seq<Entry>, p: Peer, session: Session, retry: bool, o: Oracle,
                             local: PubKey, cfg: Config)
    requires Reached(s, run, local, cfg) && Enabled(s, Watch(p, session, retry), o) && !o.stop
    ensures var l, t := s.lst, Next(s, Watch(p, session, retry), o, local, cfg).lst;
            && Waiting(t.offline, p.key) == []
            && (forall k :: k != p.key ==> Waiting(t.offline, k) == Waiting(l.offline, k))
            && (forall c: Chan :: t.closes[c] == if c in Waiting(l.offline, p.key) then 1 else l.closes[c])
            && t.online == l.online && t.sent == l.sent
  {
    ReachedInv(s, run, local, cfg);
    TerminatedAnswers(s, p, session, retry, o, cfg);
    TerminatedCloses(s, p, session, retry, o, cfg);
    CloseOfflineOnce(s.lst, s.per.retry, p.key);
    var t := Terminated(s, p, session, retry, o, cfg).lst;
    forall k ensures Waiting(t.offline, k) == if k == p.key then [] else Waiting(s.lst.offline, k) {
    }
  }

  /** A peer's initializer answers every registration that waits for its key with that peer, and no other one. */
  lemma InitializerNotifies(s: State, run: seq<Entry>, p: Peer, cut: nat, o: Oracle, local: PubKey, cfg: Config)
    requires Reached(s, run, local, cfg) && Enabled(s, Flush(p, cut), o) && !o.stop
    ensures var t := Next(s, Flush(p, cut), o, local, cfg);
            && p in t.reg.flushed && Waiting(t.lst.online, p.key) == []
            && (forall k :: k != p.key ==> Waiting(t.lst.online, k) == Waiting(s.lst.online, k))
            && (forall c :: Sent(t.lst.sent, c)
                         == if c in Waiting(s.lst.online, p.key) then [p] else Sent(s.lst.sent, c))
  {
    ReachedInv(s, run, local, cfg);
    FlushAnswersOnce(s.lst, p, cut);
  }

  /** When the shutdown cuts the loop short, the first `cut` registrations were answered and all of them stay. */
  lemma InitializerCutShort(s: State, p: Peer, cut: nat, o: Oracle, local: PubKey, cfg: Config)
    requires cut < |Waiting(s.lst.online, p.key)|
    ensures var t := Next(s, Flush(p, cut), o, local, cfg);
            && t.lst.online == s.lst.online
            && forall c :: |Sent(t.lst.sent, c)|
                        == |Sent(s.lst.sent, c)| + multiset(Waiting(s.lst.online, p.key)[..cut])[c]
  {
    var front := Waiting(s.lst.online, p.key)[..cut];
    forall c ensures |Sent(SendAll(s.lst.sent, front, p), c)| == |Sent(s.lst.sent, c)| + multiset(front)[c] {
      SendAllCounts(s.lst.sent, front, p, c);
    }
  }

  // ---- shutdown

  /** Whoever sees at once that the server is stopping does nothing: a handler neither closes nor keeps its
      connection, an initializer starts no watcher, and a watcher cleans nothing up. */
  lemma StoppedDoNothing(s: State, e: Event, o: Oracle, local: PubKey, cfg: Config)
    requires s.stopping && o.stop && o.sawStop && (e.Inbound? || e.Outbound? || e.Launch? || e.Watch?)
    ensures Next(s, e, o, local, cfg)
         == if e.Inbound? || e.Outbound? then s.(reg := s.reg.(handed := s.reg.handed + {e.conn})) else s
  {
  }

  ghost predicate SameMaps(r: Registry, t: Registry) {
    t.byPub == r.byPub && t.inbound == r.inbound && t.outbound == r.outbound
  }

  lemma InboundFrozen(s: State, local: PubKey, conn: nat, key: PubKey, o: Oracle)
    requires o.stop
    ensures SameMaps(s.reg, InboundConnected(s, local, conn, key, o).reg)
  {
  }

  lemma OutboundFrozen(s: State, local: PubKey, conn: nat, key: PubKey, managed: bool, o: Oracle)
    requires o.stop
    ensures SameMaps(s.reg, OutboundConnected(s, local, conn, key, managed, o).reg)
  {
  }

  lemma TerminatedFrozen(s: State, p: Peer, session: Session, retry: bool, o: Oracle, cfg: Config)
    requires o.stop
    ensures SameMaps(s.reg, Terminated(s, p, session, retry, o, cfg).reg)
  {
  }

  lemma StepFrozen(s: State, e: Event, o: Oracle, local: PubKey, cfg: Config)
    requires o.stop
    ensures SameMaps(s.reg, Step(s, e, o, local, cfg).reg)
  {
    if e.Inbound? {
      InboundFrozen(s.(reg := s.reg.(handed := s.reg.handed + {e.conn})), local, e.conn, e.key, o);
    } else if e.Outbound? {
      OutboundFrozen(s.(reg := s.reg.(handed := s.reg.handed + {e.conn})), local, e.conn, e.key, e.managed, o);
    } else if e.Watch? {
      TerminatedFrozen(s, e.peer, e.session, e.retry, o, cfg);
    } else if !e.Disconnect? {
      OthersMark(s, e, o, local, cfg);
    }
  }

  /** Once the server is stopping, the maps of registered peers never change again. */
  lemma {:induction false} ShutdownFreezesMaps(s: State, run: seq<Entry>, local: PubKey, cfg: Config)
    requires s.stopping && IsRun(s, run, local, cfg)
    ensures var t := After(s, run, local, cfg); t.stopping && SameMaps(s.reg, t.reg)
  {
    if run != [] {
      var before, last := run[..|run| - 1], run[|run| - 1];
      ShutdownFreezesMaps(s, before, local, cfg);
      StepFrozen(After(s, before, local, cfg), last.event, last.oracle, local, cfg);
    }
  }
}
