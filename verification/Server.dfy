/** The session manager in the form the source gives it: an object whose methods update the maps under `s.mu`.

    Each method is one critical section and is proved to perform the step of SessionState that the other Session
    modules reason about. Closing a channel has a precondition, because closing a closed channel panics. */
module Server {
  import opened Wrappers
  import opened Backoff
  import opened SessionState
  import opened SessionListeners
  import opened SessionSteps

  datatype Env = Env(nextPeer: nat, nextChan: nat, nextBuffer: nat, totals: map<nat, nat>,
                     sent: map<Chan, seq<Peer>>, crashed: bool)

  datatype Past = Past(created: set<Peer>, watching: set<Peer>, launched: set<Peer>, flushed: set<Peer>,
                       handed: set<nat>, rejected: set<nat>, issued: set<Chan>, closes: multiset<Chan>)

  /** What `ConnectToPeer` does about a key. */
  datatype Connecting = AlreadyConnected | Requested | Dialing

  class Server {
    const identity: PubKey
    const cfg: Config

    var peersByPub: map<PubKey, Peer>
    var inboundPeers: map<PubKey, Peer>
    var outboundPeers: map<PubKey, Peer>
    var ignorePeerTermination: set<Peer>
    var scheduledPeerConnection: map<PubKey, Callback>
    var peerConnectedListeners: map<PubKey, seq<Chan>>
    var peerDisconnectedListeners: map<PubKey, seq<Chan>>
    var persistentPeers: map<PubKey, bool>
    var persistentPeersBackoff: map<PubKey, int>
    var persistentConnReqs: map<PubKey, seq<nat>>
    var persistentRetryCancels: map<PubKey, Chan>
    var peerErrors: map<PubKey, nat>
    var stopping: bool

    /** The objects the maps refer to: identities given out, error counts, and what was sent on which channel. */
    var env: Env

    /** The history the maps do not show. */
    ghost var past: Past

    ghost function Abs(): State
      reads this
    {
      State(
        Registry(peersByPub, inboundPeers, outboundPeers, ignorePeerTermination, scheduledPeerConnection,
                 env.nextPeer, past.created, past.watching, past.launched, past.flushed, past.handed, past.rejected),
        Listeners(peerConnectedListeners, peerDisconnectedListeners, env.nextChan, past.issued, env.sent, past.closes),
        Persistence(persistentPeers, persistentPeersBackoff, persistentConnReqs, persistentRetryCancels, env.crashed),
        Errors(peerErrors, env.nextBuffer, env.totals), stopping)
    }

    /** No channel the server still holds has been closed. */
    ghost predicate Sound()
      reads this
    {
      ChannelsOnce(Abs().lst, Abs().per.retry)
    }

    constructor (identity: PubKey, cfg: Config)
      ensures this.identity == identity && this.cfg == cfg
      ensures Abs() == EMPTY && Sound()
    {
      this.identity, this.cfg := identity, cfg;
      peersByPub, inboundPeers, outboundPeers := map[], map[], map[];
      ignorePeerTermination, scheduledPeerConnection := {}, map[];
      peerConnectedListeners, peerDisconnectedListeners := map[], map[];
      persistentPeers, persistentPeersBackoff := map[], map[];
      persistentConnReqs, persistentRetryCancels := map[], map[];
      peerErrors, stopping := map[], false;
      env := Env(0, 0, 0, map[], map[], false);
      past := Past({}, {}, {}, {}, {}, {}, {}, multiset{});
      new;
      forall c ensures Uses(Abs().lst, persistentRetryCancels, c) == 0 {
      }
    }

    /** `close(c)`. */
    method Close(c: Chan)
      requires past.closes[c] == 0
      modifies this`past
      ensures past == old(past).(closes := old(past.closes) + multiset{c})
    {
      past := past.(closes := past.closes + multiset{c});
    }

    method CancelConnReqs(pubStr: PubKey)
      requires pubStr in persistentRetryCancels ==> past.closes[persistentRetryCancels[pubStr]] == 0
      modifies this`past, this`persistentRetryCancels, this`persistentConnReqs
      ensures Abs() == SessionState.CancelConnReqs(old(Abs()), pubStr)
    {
      if pubStr in persistentRetryCancels {
        Close(persistentRetryCancels[pubStr]);
      }
      persistentRetryCancels := persistentRetryCancels - {pubStr};
      persistentConnReqs := persistentConnReqs - {pubStr};
    }

    method AddPeer(p: Peer, stop: bool)
      modifies this`peersByPub, this`inboundPeers, this`outboundPeers
      ensures Abs() == old(Abs()).(reg := if stop then old(Abs().reg) else SessionState.AddPeer(old(Abs().reg), p))
    {
      if stop {
        return;
      }
      peersByPub := peersByPub[p.key := p];
      if p.inbound {
        inboundPeers := inboundPeers[p.key := p];
      } else {
        outboundPeers := outboundPeers[p.key := p];
      }
    }

    /** `peer.NewBrontide`, with the kept error buffer or a fresh one. */
    method MakePeer(pubStr: PubKey, conn: nat, inbound: bool) returns (p: Peer)
      modifies this`env, this`past
      ensures p == NewPeer(old(Abs()), pubStr, Callback(conn, inbound))
      ensures env == old(env).(nextPeer := old(env.nextPeer) + 1,
                               nextBuffer := old(env.nextBuffer) + if pubStr in peerErrors then 0 else 1)
      ensures past == old(past).(created := old(past.created) + {p})
    {
      var buffer := if pubStr in peerErrors then peerErrors[pubStr] else env.nextBuffer;
      p := Peer(env.nextPeer, pubStr, inbound, conn, buffer);
      env := env.(nextPeer := env.nextPeer + 1,
                  nextBuffer := if pubStr in peerErrors then env.nextBuffer else env.nextBuffer + 1);
      past := past.(created := past.created + {p});
    }

    method PeerConnected(pubStr: PubKey, conn: nat, inbound: bool, stop: bool)
      modifies this`peersByPub, this`inboundPeers, this`outboundPeers, this`peerErrors, this`env, this`past
      ensures Abs() == SessionState.PeerConnected(old(Abs()), pubStr, Callback(conn, inbound), stop)
    {
      var p := MakePeer(pubStr, conn, inbound);
      AddPeer(p, stop);
      peerErrors := peerErrors - {pubStr};
      // The initializer is started here; unless the server is stopping it will start a watcher.
      past := past.(watching := if stop then past.watching else past.watching + {p});
    }

    method RemovePeer(p: Peer, o: Oracle)
      modifies this`peersByPub, this`inboundPeers, this`outboundPeers, this`peerErrors, this`env
      ensures Abs() == PeerRemoved(old(Abs()), p, o)
    {
      ghost var s := Abs();
      if o.stored {
        env := env.(totals := env.totals[p.buffer := (if p.buffer in env.totals then env.totals[p.buffer] else 0) + 1]);
      }
      ghost var e := if o.stored then Record(s.err, p.buffer) else s.err;
      assert Abs() == s.(err := e);
      if o.stop {
        return;
      }
      Unregister(p);
      assert Abs() == s.(reg := SessionState.RemovePeer(s.reg, p), err := e);
      if p.buffer in env.totals && env.totals[p.buffer] > 0 {
        peerErrors := peerErrors[p.key := p.buffer];
      }
    }

    method Unregister(p: Peer)
      modifies this`peersByPub, this`inboundPeers, this`outboundPeers
      ensures peersByPub == old(peersByPub) - {p.key}
      ensures inboundPeers == if p.inbound then old(inboundPeers) - {p.key} else old(inboundPeers)
      ensures outboundPeers == if p.inbound then old(outboundPeers) else old(outboundPeers) - {p.key}
    {
      peersByPub := peersByPub - {p.key};
      if p.inbound {
        inboundPeers := inboundPeers - {p.key};
      } else {
        outboundPeers := outboundPeers - {p.key};
      }
    }

    method CloseConn(conn: nat)
      modifies this`past
      ensures Abs() == Reject(old(Abs()), conn)
    {
      past := past.(rejected := past.rejected + {conn});
    }

    method ForgetPersistent(pubStr: PubKey)
      modifies this`persistentPeers, this`persistentPeersBackoff
      ensures Abs() == old(Abs()).(per := old(Abs().per).(peers := old(persistentPeers) - {pubStr},
                                                          backoff := old(persistentPeersBackoff) - {pubStr}))
    {
      persistentPeers := persistentPeers - {pubStr};
      persistentPeersBackoff := persistentPeersBackoff - {pubStr};
    }

    method Ignore(p: Peer)
      modifies this`ignorePeerTermination
      ensures Abs() == old(Abs()).(reg := old(Abs().reg).(ignored := old(ignorePeerTermination) + {p}))
    {
      ignorePeerTermination := ignorePeerTermination + {p};
    }

    /** The end of both accept handlers when a stale connection has to go first. */
    method Replace(connectedPeer: Peer, conn: nat, inbound: bool, o: Oracle)
      modifies this`peersByPub, this`inboundPeers, this`outboundPeers, this`peerErrors, this`env,
               this`ignorePeerTermination, this`scheduledPeerConnection
      ensures Abs() == Handover(old(Abs()), connectedPeer, Callback(conn, inbound), o)
    {
      RemovePeer(connectedPeer, o);
      Ignore(connectedPeer);
      scheduledPeerConnection := scheduledPeerConnection[connectedPeer.key := Callback(conn, inbound)];
    }

    method Arrive(conn: nat)
      modifies this`past
      ensures Abs() == old(Abs()).(reg := old(Abs().reg).(handed := old(past.handed) + {conn}))
    {
      past := past.(handed := past.handed + {conn});
    }

    /** `InboundPeerConnected` under the lock. */
    method AcceptInbound(conn: nat, pubStr: PubKey, o: Oracle)
      requires Sound()
      modifies this
      ensures Abs() == InboundConnected(old(Abs()), identity, conn, pubStr, o)
      ensures stopping == old(stopping)
    {
      RetryOpen(Abs(), pubStr);
      if pubStr in outboundPeers || pubStr in scheduledPeerConnection {
        CloseConn(conn);
      } else if pubStr !in peersByPub {
        CancelConnReqs(pubStr);
        PeerConnected(pubStr, conn, true, o.stop);
      } else {
        var connectedPeer := peersByPub[pubStr];
        if !connectedPeer.inbound && !ShouldDropLocalConnection(identity, pubStr) {
          CloseConn(conn);
        } else {
          CancelConnReqs(pubStr);
          Replace(connectedPeer, conn, true, o);
        }
      }
    }

    method InboundPeerConnected(conn: nat, pubStr: PubKey, o: Oracle)
      requires Sound()
      modifies this
      ensures Abs() == Next(old(Abs()), Inbound(conn, pubStr), o, identity, cfg) && Sound()
    {
      Arrive(conn);
      if !o.sawStop {
        InboundOnce(Abs(), identity, conn, pubStr, o);
        AcceptInbound(conn, pubStr, o);
      }
      stopping := stopping || o.stop;
    }

    /** `OutboundPeerConnected` under the lock. */
    method AcceptOutbound(managed: bool, conn: nat, pubStr: PubKey, o: Oracle)
      requires Sound()
      modifies this
      ensures Abs() == OutboundConnected(old(Abs()), identity, conn, pubStr, managed, o)
      ensures stopping == old(stopping)
    {
      if pubStr in inboundPeers || (pubStr !in persistentConnReqs && managed) || pubStr in scheduledPeerConnection {
        CloseConn(conn);
        return;
      }
      RetryOpen(Abs(), pubStr);
      CancelConnReqs(pubStr);
      AdmitOutbound(conn, pubStr, o);
    }

    method AdmitOutbound(conn: nat, pubStr: PubKey, o: Oracle)
      modifies this
      ensures Abs() == OutboundAdmitted(old(Abs()), identity, conn, pubStr, o)
      ensures stopping == old(stopping)
    {
      if pubStr !in peersByPub {
        PeerConnected(pubStr, conn, false, o.stop);
      } else {
        var connectedPeer := peersByPub[pubStr];
        if connectedPeer.inbound && ShouldDropLocalConnection(identity, pubStr) {
          CloseConn(conn);
        } else {
          Replace(connectedPeer, conn, false, o);
        }
      }
    }

    method OutboundPeerConnected(managed: bool, conn: nat, pubStr: PubKey, o: Oracle)
      requires Sound()
      modifies this
      ensures Abs() == Next(old(Abs()), Outbound(conn, pubStr, managed), o, identity, cfg) && Sound()
    {
      Arrive(conn);
      if !o.sawStop {
        OutboundOnce(Abs(), identity, conn, pubStr, managed, o);
        AcceptOutbound(managed, conn, pubStr, o);
      }
      stopping := stopping || o.stop;
    }

    /** `DisconnectPeer` under the lock. Reports whether the peer was connected. */
    method DropPeer(pubStr: PubKey, o: Oracle) returns (found: bool)
      requires Sound()
      modifies this
      ensures Abs() == Disconnected(old(Abs()), pubStr, o) && Sound()
      ensures stopping == old(stopping)
      ensures found <==> pubStr in old(peersByPub)
    {
      DisconnectedOnce(Abs(), pubStr, o);
      if pubStr !in peersByPub {
        return false;
      }
      RetryOpen(Abs(), pubStr);
      var peer := peersByPub[pubStr];
      CancelConnReqs(pubStr);
      ForgetPersistent(pubStr);
      RemovePeer(peer, o);
      Ignore(peer);
      return true;
    }

    method DisconnectPeer(pubStr: PubKey, o: Oracle) returns (found: bool)
      requires Sound()
      modifies this
      ensures Abs() == Next(old(Abs()), Disconnect(pubStr), o, identity, cfg) && Sound()
      ensures found <==> pubStr in old(peersByPub)
    {
      found := DropPeer(pubStr, o);
      stopping := stopping || o.stop;
    }

    /** The initializer's first part: unless the server is stopping, it starts the watcher. */
    method PeerInitializer(p: Peer, o: Oracle)
      modifies this`past, this`stopping
      ensures Abs() == Next(old(Abs()), Launch(p), o, identity, cfg)
    {
      if !o.sawStop {
        past := past.(launched := past.launched + {p});
      }
      stopping := stopping || o.stop;
    }

    /** The initializer's notification loop. `cut` is the iteration at which the closed `quit` channel is chosen;
        without shutdown it lies past the end. */
    method NotifyListeners(p: Peer, cut: nat)
      modifies this`env, this`past, this`peerConnectedListeners
      ensures Abs() == old(Abs()).(lst := FlushOnline(old(Abs().lst), p, cut),
                                   reg := old(Abs().reg).(flushed := old(past.flushed) + {p}))
    {
      past := past.(flushed := past.flushed + {p});
      var done := SendPeer(if p.key in peerConnectedListeners then peerConnectedListeners[p.key] else [], p, cut);
      if done {
        peerConnectedListeners := peerConnectedListeners - {p.key};
      }
    }

    /** Sends the peer to the listeners one after the other; reports whether the loop got to the end. */
    method SendPeer(listeners: seq<Chan>, p: Peer, cut: nat) returns (done: bool)
      modifies this`env
      ensures done <==> |listeners| <= cut
      ensures env == old(env).(sent := SendAll(old(env.sent), if done then listeners else listeners[..cut], p))
    {
      var i := 0;
      while i < |listeners|
        invariant 0 <= i <= |listeners| && i <= cut
        invariant env == old(env).(sent := SendAll(old(env.sent), listeners[..i], p))
      {
        if i == cut {
          return false;
        }
        var c := listeners[i];
        assert listeners[..i + 1][..i] == listeners[..i];
        env := env.(sent := env.sent[c := (if c in env.sent then env.sent[c] else []) + [p]]);
        i := i + 1;
      }
      assert listeners[..i] == listeners;
      return true;
    }

    method CloseOfflineListeners(pubStr: PubKey)
      requires Sound()
      modifies this`past, this`peerDisconnectedListeners
      ensures Abs() == old(Abs()).(lst := CloseOffline(old(Abs().lst), pubStr))
    {
      ghost var l := Abs().lst;
      ghost var retry := persistentRetryCancels;
      var chans := if pubStr in peerDisconnectedListeners then peerDisconnectedListeners[pubStr] else [];
      var i := 0;
      while i < |chans|
        invariant 0 <= i <= |chans|
        invariant past == old(past).(closes := l.closes + multiset(chans[..i]))
        invariant peerDisconnectedListeners == l.offline
      {
        assert chans[..i + 1] == chans[..i] + [chans[i]];
        StillOpen(l, retry, pubStr, i);
        Close(chans[i]);
        i := i + 1;
      }
      assert chans[..i] == chans;
      peerDisconnectedListeners := peerDisconnectedListeners - {pubStr};
    }

    method EnsureRetryCancel(pubStr: PubKey)
      modifies this`persistentRetryCancels, this`env
      ensures Abs() == EnsureRetry(old(Abs()), pubStr)
    {
      if pubStr !in persistentRetryCancels {
        persistentRetryCancels := persistentRetryCancels[pubStr := Chan(pubStr, env.nextChan)];
        env := env.(nextChan := env.nextChan + 1);
      }
    }

    /** The watcher of a peer the server had already removed: start the connection that waited for it, if any. */
    method FinishIgnored(p: Peer, stop: bool)
      modifies this
      ensures Abs() == IgnoredTerminated(old(Abs()), p, stop)
    {
      ignorePeerTermination := ignorePeerTermination - {p};
      if p.key in scheduledPeerConnection {
        var callback := scheduledPeerConnection[p.key];
        scheduledPeerConnection := scheduledPeerConnection - {p.key};
        PeerConnected(p.key, callback.conn, callback.inbound, stop);
      }
    }

    /** The watcher's last part: schedule a reconnect to a persistent peer. */
    method ScheduleReconnect(pubStr: PubKey, session: Session, retry: bool)
      modifies this`env, this`persistentPeersBackoff, this`persistentRetryCancels
      ensures Abs() == ScheduleRetry(old(Abs()), pubStr, session, retry, cfg)
    {
      if pubStr !in persistentPeers || !retry {
        return;
      }
      var known := if pubStr in persistentPeersBackoff then Some(persistentPeersBackoff[pubStr]) else None;
      var backoff := NextPeerBackoff(known, session, cfg);
      if backoff.None? {
        env := env.(crashed := true);
        return;
      }
      persistentPeersBackoff := persistentPeersBackoff[pubStr := backoff.value];
      EnsureRetryCancel(pubStr);
    }

    /** The watcher of `p` under the lock. `session` is the peer's uptime and `retry` tells whether an address to
        reconnect to is left. */
    method CleanUp(p: Peer, session: Session, retry: bool, o: Oracle)
      requires Sound()
      modifies this
      ensures Abs() == Terminated(old(Abs()), p, session, retry, o, cfg)
      ensures stopping == old(stopping)
    {
      CloseOfflineListeners(p.key);
      past := past.(watching := past.watching - {p});
      if p in ignorePeerTermination {
        FinishIgnored(p, o.stop);
      } else {
        RemovePeer(p, o);
        ScheduleReconnect(p.key, session, retry);
      }
    }

    /** The watcher of `p` once its peer has disconnected. */
    method PeerTerminationWatcher(p: Peer, session: Session, retry: bool, o: Oracle)
      requires Sound()
      modifies this
      ensures Abs() == Next(old(Abs()), Watch(p, session, retry), o, identity, cfg) && Sound()
    {
      if !o.sawStop {
        TerminatedOnce(Abs(), p, session, retry, o, cfg);
        CleanUp(p, session, retry, o);
      }
      stopping := stopping || o.stop;
    }

    method NotifyWhenOnline(pubStr: PubKey, quit: bool)
      modifies this`env, this`past, this`peerConnectedListeners
      ensures Abs() == OnlineRequested(old(Abs()), pubStr, quit)
    {
      var peerChan := Chan(pubStr, env.nextChan);
      env := env.(nextChan := env.nextChan + 1);
      past := past.(issued := past.issued + {peerChan});
      if pubStr in peersByPub {
        if !quit {
          env := env.(sent := SendAll(env.sent, [peerChan], peersByPub[pubStr]));
        }
        return;
      }
      peerConnectedListeners := peerConnectedListeners[
        pubStr := (if pubStr in peerConnectedListeners then peerConnectedListeners[pubStr] else []) + [peerChan]];
    }

    method NotifyWhenOffline(pubStr: PubKey) returns (c: Chan)
      requires Sound()
      modifies this`env, this`past, this`peerDisconnectedListeners
      ensures Abs() == OfflineRequested(old(Abs()), pubStr) && Sound()
      ensures past.closes[c] == if pubStr in peersByPub then 0 else 1
    {
      ghost var s := Abs();
      OfflineRequestOnce(s, pubStr);
      c := Chan(pubStr, env.nextChan);
      FreshOpen(s, c);
      env := env.(nextChan := env.nextChan + 1);
      if pubStr !in peersByPub {
        Close(c);
      } else {
        peerDisconnectedListeners := peerDisconnectedListeners[
          pubStr := (if pubStr in peerDisconnectedListeners then peerDisconnectedListeners[pubStr] else []) + [c]];
      }
    }

    /** Without `perm` the caller goes on to dial, and a connection made that way arrives as an outbound one. */
    method ConnectToPeer(pubStr: PubKey, perm: bool, req: nat) returns (outcome: Connecting)
      modifies this
      ensures Abs() == if perm then PermanentRequested(old(Abs()), pubStr, req, cfg) else old(Abs())
      ensures outcome == if pubStr in old(peersByPub) then AlreadyConnected else if perm then Requested else Dialing
    {
      if pubStr in peersByPub {
        return AlreadyConnected;
      }
      if !perm {
        return Dialing;
      }
      persistentPeers := persistentPeers[pubStr := true];
      if pubStr !in persistentPeersBackoff {
        persistentPeersBackoff := persistentPeersBackoff[pubStr := cfg.min];
      }
      persistentConnReqs := persistentConnReqs[
        pubStr := (if pubStr in persistentConnReqs then persistentConnReqs[pubStr] else []) + [req]];
      return Requested;
    }

    method PrunePersistentPeerConnection(pubStr: PubKey)
      requires Sound()
      modifies this
      ensures Abs() == Pruned(old(Abs()), pubStr) && Sound()
    {
      ghost var s := Abs();
      PruneOnce(s, pubStr);
      if pubStr in persistentPeers && !persistentPeers[pubStr] {
        ForgetPersistent(pubStr);
        RetryOpen(s, pubStr);
        CancelConnReqs(pubStr);
      }
    }

    /** The server's part of the funding manager's `WatchNewChannel`. */
    method WatchNewChannel(pubStr: PubKey)
      modifies this`persistentPeers
      ensures Abs() == Step(old(Abs()), Event.WatchNewChannel(pubStr), Oracle(false, false, false), identity, cfg)
    {
      if pubStr !in persistentPeers {
        persistentPeers := persistentPeers[pubStr := false];
      }
    }

    /** One iteration of the loop in `establishPersistentConnections`. */
    method EstablishPersistentConnection(pubStr: PubKey)
      modifies this`persistentPeers, this`persistentPeersBackoff
      ensures Abs() == Step(old(Abs()), Establish(pubStr), Oracle(false, false, false), identity, cfg)
    {
      persistentPeers := persistentPeers[pubStr := false];
      if pubStr !in persistentPeersBackoff {
        persistentPeersBackoff := persistentPeersBackoff[pubStr := cfg.min];
      }
    }

    /** The server's part of `connectToPersistentPeer`: `reqs` are the requests it keeps. */
    method ConnectToPersistentPeer(pubStr: PubKey, reqs: seq<nat>)
      requires Sound()
      modifies this`persistentConnReqs, this`persistentRetryCancels, this`env
      ensures Abs() == Step(old(Abs()), Reconnect(pubStr, reqs), Oracle(false, false, false), identity, cfg) && Sound()
    {
      StepKeepsChannels(Abs(), Reconnect(pubStr, reqs), Oracle(false, false, false), identity, cfg);
      persistentConnReqs := persistentConnReqs[pubStr := reqs];
      EnsureRetryCancel(pubStr);
    }
  }

  /** A stored retry canceller is open. */
  lemma RetryOpen(s: State, key: PubKey)
    requires ChannelsOnce(s.lst, s.per.retry)
    ensures key in s.per.retry ==> s.lst.closes[s.per.retry[key]] == 0
  {
    if key in s.per.retry {
      assert Uses(s.lst, s.per.retry, s.per.retry[key]) <= 1;
    }
  }

  /** A channel not made yet is open. */
  lemma FreshOpen(s: State, c: Chan)
    requires ChannelsOnce(s.lst, s.per.retry) && c.n == s.lst.nextChan
    ensures s.lst.closes[c] == 0
  {
    assert Uses(s.lst, s.per.retry, c) == 0;
  }

  /** An offline listener the loop has not reached yet is still open. */
  lemma StillOpen(l: Listeners, retry: map<PubKey, Chan>, key: PubKey, i: nat)
    requires ChannelsOnce(l, retry) && i < |Waiting(l.offline, key)|
    ensures var chans := Waiting(l.offline, key); (l.closes + multiset(chans[..i]))[chans[i]] == 0
  {
    var chans := Waiting(l.offline, key);
    var c := chans[i];
    assert c in chans && c.key == key;
    assert Uses(l, retry, c) <= 1;
    assert chans == chans[..i] + [c] + chans[i + 1..];
    assert multiset(chans) == multiset(chans[..i]) + multiset{c} + multiset(chans[i + 1..]);
  }
}
