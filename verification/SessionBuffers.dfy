/** Error buffers belong to keys: no buffer is ever shared between two remote peers, so an error is only filed under
    the key it happened with. */
module SessionBuffers {
  import opened Backoff
  import opened SessionState
  import opened SessionInvariants
  import opened SessionSteps
  import opened SessionProperties

  /** A peer of this key was made with this buffer. */
  ghost predicate Owns(r: Registry, key: PubKey, buffer: nat) {
    exists p :: p in r.created && p.key == key && p.buffer == buffer
  }

  /** Peers with the same buffer have the same key, and a kept buffer is one of its key's own. */
  ghost predicate BuffersOwned(r: Registry, e: Errors) {
    && (forall p, q :: p in r.created && q in r.created && p.buffer == q.buffer ==> p.key == q.key)
    && (forall k :: k in e.kept ==> Owns(r, k, e.kept[k]))
  }

  /** Peers made between two states took over the buffer kept for their key, or got one nobody had. */
  ghost predicate NewBuffers(s: State, t: State) {
    forall p :: p in t.reg.created - s.reg.created ==>
      if p.key in s.err.kept then p.buffer == s.err.kept[p.key]
      else forall q :: q in s.reg.created ==> q.buffer != p.buffer
  }

  lemma StillOwns(r: Registry, t: Registry)
    requires r.created <= t.created
    ensures forall k, b :: Owns(r, k, b) ==> Owns(t, k, b)
  {
  }

  lemma ConnectedKeepsOwners(s: State, key: PubKey, cb: Callback)
    requires BuffersOwned(s.reg, s.err) && ErrorsMatch(s.reg, s.err)
    ensures var t := PeerConnected(s, key, cb, false); BuffersOwned(t.reg, t.err) && NewBuffers(s, t)
  {
    StillOwns(s.reg, PeerConnected(s, key, cb, false).reg);
    if key in s.err.kept {
      assert Owns(s.reg, key, s.err.kept[key]);
    }
  }

  lemma RemovedKeepsOwners(s: State, p: Peer, o: Oracle)
    requires BuffersOwned(s.reg, s.err) && p in s.reg.created && !o.stop
    ensures var t := PeerRemoved(s, p, o); BuffersOwned(t.reg, t.err) && NewBuffers(s, t)
  {
    StillOwns(s.reg, PeerRemoved(s, p, o).reg);
    assert Owns(s.reg, p.key, p.buffer);
  }

  lemma AgreeOwners(t: State, u: State)
    requires Agree(t, u) && BuffersOwned(u.reg, u.err)
    ensures BuffersOwned(t.reg, t.err)
  {
    StillOwns(u.reg, t.reg);
  }

  lemma HandlesKeepsOwners(s: State, t: State, key: PubKey, cb: Callback, o: Oracle)
    requires BuffersOwned(s.reg, s.err) && ErrorsMatch(s.reg, s.err) && Handles(s, t, key, cb, o) && !o.stop
    requires key in s.reg.byPub ==> s.reg.byPub[key] in s.reg.created
    ensures BuffersOwned(t.reg, t.err) && NewBuffers(s, t)
  {
    if Agree(t, s) {
      AgreeOwners(t, s);
    } else if key !in s.reg.byPub {
      ConnectedKeepsOwners(s, key, cb);
      AgreeOwners(t, PeerConnected(s, key, cb, false));
    } else {
      RemovedKeepsOwners(s, s.reg.byPub[key], o);
      AgreeOwners(t, PeerRemoved(s, s.reg.byPub[key], o));
    }
  }

  lemma TerminatedKeepsOwners(s: State, p: Peer, session: Session, retry: bool, o: Oracle, cfg: Config)
    requires BuffersOwned(s.reg, s.err) && ErrorsMatch(s.reg, s.err) && p in s.reg.created && !o.stop
    ensures var t := Terminated(s, p, session, retry, o, cfg); BuffersOwned(t.reg, t.err) && NewBuffers(s, t)
  {
    var t := Terminated(s, p, session, retry, o, cfg);
    if p !in s.reg.ignored {
      TerminatedHandlesOwn(s, p, session, retry, o, cfg);
      RemovedKeepsOwners(s, p, o);
      AgreeOwners(t, PeerRemoved(s, p, o));
    } else {
      TerminatedHandlesIgnored(s, p, session, retry, o, cfg);
      if p.key in s.reg.scheduled {
        ConnectedKeepsOwners(s, p.key, s.reg.scheduled[p.key]);
        AgreeOwners(t, PeerConnected(s, p.key, s.reg.scheduled[p.key], false));
      } else {
        AgreeOwners(t, s);
      }
    }
  }

  lemma OthersKeepOwners(s: State, e: Event, o: Oracle, local: PubKey, cfg: Config)
    requires BuffersOwned(s.reg, s.err) && !Moves(e)
    ensures var t := Step(s, e, o, local, cfg); BuffersOwned(t.reg, t.err) && NewBuffers(s, t)
  {
    OthersMark(s, e, o, local, cfg);
    var t := Step(s, e, o, local, cfg);
    assert t.err.kept == s.err.kept;
    StillOwns(s.reg, t.reg);
  }

  lemma AcceptKeepsOwners(s: State, e: Event, o: Oracle, local: PubKey, cfg: Config)
    requires BuffersOwned(s.reg, s.err) && ErrorsMatch(s.reg, s.err) && !o.stop && !o.sawStop
    requires e.Inbound? || e.Outbound?
    requires forall k :: k in s.reg.byPub ==> s.reg.byPub[k] in s.reg.created
    ensures var t := Step(s, e, o, local, cfg); BuffersOwned(t.reg, t.err) && NewBuffers(s, t)
  {
    var h := s.(reg := s.reg.(handed := s.reg.handed + {e.conn}));
    AgreeOwners(h, s);
    if e.Inbound? {
      InboundHandles(h, local, e.conn, e.key, o);
      HandlesKeepsOwners(h, InboundConnected(h, local, e.conn, e.key, o), e.key, Callback(e.conn, true), o);
    } else {
      OutboundHandles(h, local, e.conn, e.key, e.managed, o);
      var t := OutboundConnected(h, local, e.conn, e.key, e.managed, o);
      HandlesKeepsOwners(h, t, e.key, Callback(e.conn, false), o);
    }
  }

  lemma StepKeepsOwners(s: State, e: Event, o: Oracle, local: PubKey, cfg: Config)
    requires BuffersOwned(s.reg, s.err) && LiveInv(s) && Enabled(s, e, o) && !s.stopping && !o.stop
    ensures var t := Step(s, e, o, local, cfg); BuffersOwned(t.reg, t.err) && NewBuffers(s, t)
  {
    if e.Inbound? || e.Outbound? {
      AcceptKeepsOwners(s, e, o, local, cfg);
    } else if e.Disconnect? {
      DisconnectedHandles(s, e.key, o);
      HandlesKeepsOwners(s, Disconnected(s, e.key, o), e.key, Callback(0, false), o);
    } else if e.Watch? {
      TerminatedKeepsOwners(s, e.peer, e.session, e.retry, o, cfg);
    } else {
      OthersKeepOwners(s, e, o, local, cfg);
    }
  }

  lemma {:induction false} RunKeepsOwners(run: seq<Entry>, local: PubKey, cfg: Config)
    requires Reached(After(EMPTY, run, local, cfg), run, local, cfg)
    ensures var t := After(EMPTY, run, local, cfg); BuffersOwned(t.reg, t.err)
  {
    if run != [] {
      var before, last := run[..|run| - 1], run[|run| - 1];
      var s := After(EMPTY, before, local, cfg);
      RunKeepsOwners(before, local, cfg);
      ReachedInv(s, before, local, cfg);
      StepKeepsOwners(s, last.event, last.oracle, local, cfg);
      AgreeOwners(After(EMPTY, run, local, cfg), Step(s, last.event, last.oracle, local, cfg));
    }
  }

  /** In every reached state two peers with the same error buffer have the same key, and the buffer kept for a key is
      that of an earlier peer of the key. */
  lemma BuffersAreNeverShared(s: State, run: seq<Entry>, local: PubKey, cfg: Config)
    requires Reached(s, run, local, cfg)
    ensures forall p, q :: p in s.reg.created && q in s.reg.created && p.buffer == q.buffer ==> p.key == q.key
    ensures forall k :: k in s.err.kept ==> exists p :: p in s.reg.created && p.key == k && p.buffer == s.err.kept[k]
  {
    RunKeepsOwners(run, local, cfg);
    forall k | k in s.err.kept ensures exists p :: p in s.reg.created && p.key == k && p.buffer == s.err.kept[k] {
      assert Owns(s.reg, k, s.err.kept[k]);
    }
  }

  /** A peer made for a key takes over the kept buffer, or gets one no peer ever had. */
  lemma NewPeersGetOwnBuffers(s: State, run: seq<Entry>, e: Event, o: Oracle, p: Peer, local: PubKey, cfg: Config)
    requires Reached(s, run, local, cfg) && Enabled(s, e, o) && !o.stop
    requires p in Next(s, e, o, local, cfg).reg.created && p !in s.reg.created
    ensures if p.key in s.err.kept then p.buffer == s.err.kept[p.key]
            else forall q :: q in s.reg.created ==> q.buffer != p.buffer
  {
    ReachedInv(s, run, local, cfg);
    RunKeepsOwners(run, local, cfg);
    StepKeepsOwners(s, e, o, local, cfg);
    assert p in Step(s, e, o, local, cfg).reg.created - s.reg.created;
  }

  // ---- what is counted

  /** A registered peer with this buffer is removed. */
  ghost predicate Removes(s: State, t: State, b: nat) {
    exists p :: Registered(s.reg, p) && !Registered(t.reg, p) && p.buffer == b
  }

  /** Disconnecting a removed peer puts at most one error into that peer's buffer, and into no other. */
  ghost predicate FilesRemoval(s: State, t: State, o: Oracle, b: nat) {
    Total(t.err, b) == Total(s.err, b) + if o.stored && Removes(s, t, b) then 1 else 0
  }

  lemma AgreeFiles(s: State, t: State, u: State, o: Oracle, b: nat)
    requires Agree(t, u) && FilesRemoval(s, u, o, b)
    ensures FilesRemoval(s, t, o, b)
  {
    if p :| Registered(s.reg, p) && !Registered(u.reg, p) && p.buffer == b {
      assert !Registered(t.reg, p);
    }
  }

  lemma RemovedFiles(s: State, p: Peer, o: Oracle, b: nat)
    requires Registered(s.reg, p) && WatchersMatch(s.reg) && !o.stop
    ensures FilesRemoval(s, PeerRemoved(s, p, o), o, b)
  {
    var t := PeerRemoved(s, p, o);
    assert !Registered(t.reg, p);
    forall q | Registered(s.reg, q) && q != p ensures Registered(t.reg, q) {
    }
  }

  lemma HandlesFiles(s: State, t: State, key: PubKey, cb: Callback, o: Oracle, b: nat)
    requires Handles(s, t, key, cb, o) && WatchersMatch(s.reg) && !o.stop
    ensures FilesRemoval(s, t, o, b)
  {
    if Agree(t, s) {
      AgreeFiles(s, t, s, o, b);
    } else if key !in s.reg.byPub {
      AgreeFiles(s, t, PeerConnected(s, key, cb, false), o, b);
    } else {
      RemovedFiles(s, s.reg.byPub[key], o, b);
      AgreeFiles(s, t, PeerRemoved(s, s.reg.byPub[key], o), o, b);
    }
  }

  lemma TerminatedFiles(s: State, p: Peer, session: Session, retry: bool, o: Oracle, cfg: Config, b: nat)
    requires WatchersMatch(s.reg) && HandoversWait(s.reg) && p in s.reg.watching && !o.stop
    ensures FilesRemoval(s, Terminated(s, p, session, retry, o, cfg), o, b)
  {
    var t := Terminated(s, p, session, retry, o, cfg);
    if p !in s.reg.ignored {
      TerminatedHandlesOwn(s, p, session, retry, o, cfg);
      RemovedFiles(s, p, o, b);
      AgreeFiles(s, t, PeerRemoved(s, p, o), o, b);
    } else {
      TerminatedHandlesIgnored(s, p, session, retry, o, cfg);
      if p.key in s.reg.scheduled {
        ScheduledIsFree(s.reg, p.key);
        AgreeFiles(s, t, PeerConnected(s, p.key, s.reg.scheduled[p.key], false), o, b);
      } else {
        AgreeFiles(s, t, s, o, b);
      }
    }
  }

  lemma AcceptFiles(s: State, e: Event, o: Oracle, b: nat, local: PubKey, cfg: Config)
    requires WatchersMatch(s.reg) && !o.stop && !o.sawStop && (e.Inbound? || e.Outbound?)
    ensures FilesRemoval(s, Step(s, e, o, local, cfg), o, b)
  {
    var h := s.(reg := s.reg.(handed := s.reg.handed + {e.conn}));
    if e.Inbound? {
      InboundHandles(h, local, e.conn, e.key, o);
      HandlesFiles(h, InboundConnected(h, local, e.conn, e.key, o), e.key, Callback(e.conn, true), o, b);
    } else {
      OutboundHandles(h, local, e.conn, e.key, e.managed, o);
      HandlesFiles(h, OutboundConnected(h, local, e.conn, e.key, e.managed, o), e.key, Callback(e.conn, false), o, b);
    }
    var t := Step(s, e, o, local, cfg);
    assert forall p :: Registered(h.reg, p) == Registered(s.reg, p);
  }

  /** The errors counted in a buffer are exactly those stored for a peer that has it, and the disconnect errors of
      such a peer when the server removes it. */
  lemma ErrorsAreFiledByOwner(s: State, run: seq<Entry>, e: Event, o: Oracle, b: nat, local: PubKey, cfg: Config)
    requires Reached(s, run, local, cfg) && Enabled(s, e, o) && !o.stop
    ensures var t := Next(s, e, o, local, cfg);
            Total(t.err, b) == Total(s.err, b)
                               + (if e.StoreError? && e.peer.buffer == b then 1 else 0)
                               + if o.stored && Removes(s, t, b) then 1 else 0
  {
    ReachedInv(s, run, local, cfg);
    var t := Step(s, e, o, local, cfg);
    if e.Inbound? || e.Outbound? {
      AcceptFiles(s, e, o, b, local, cfg);
    } else if e.Disconnect? {
      DisconnectedHandles(s, e.key, o);
      HandlesFiles(s, t, e.key, Callback(0, false), o, b);
    } else if e.Watch? {
      TerminatedFiles(s, e.peer, e.session, e.retry, o, cfg, b);
    } else {
      OthersMark(s, e, o, local, cfg);
      assert forall p :: Registered(s.reg, p) == Registered(t.reg, p);
    }
    assert forall p :: Registered(t.reg, p) == Registered(Next(s, e, o, local, cfg).reg, p);
  }
}
