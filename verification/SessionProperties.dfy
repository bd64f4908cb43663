/** What the session manager guarantees, stated over every run that starts with empty maps. */
module SessionProperties {
  import opened Backoff
  import opened SessionState
  import opened SessionInvariants
  import opened SessionListeners
  import opened SessionSteps

  /** The server started empty and went through `run` without being told to stop. */
  ghost predicate Reached(s: State, run: seq<Entry>, local: PubKey, cfg: Config) {
    IsRun(EMPTY, run, local, cfg) && s == After(EMPTY, run, local, cfg) && !s.stopping
  }

  lemma ReachedInv(s: State, run: seq<Entry>, local: PubKey, cfg: Config)
    requires Reached(s, run, local, cfg)
    ensures Inv(s, cfg) && LiveInv(s)
  {
    EmptyInv(cfg);
    RunKeepsInv(EMPTY, run, local, cfg);
  }

  // ---- watchers

  ghost function RegisteredPeers(r: Registry): set<Peer> {
    set k | k in r.byPub :: r.byPub[k]
  }

  /** The pending watchers are exactly the disjoint union of the registered and the ignored peers. */
  lemma PendingWatchers(s: State, run: seq<Entry>, local: PubKey, cfg: Config)
    requires Reached(s, run, local, cfg)
    ensures s.reg.watching == RegisteredPeers(s.reg) + s.reg.ignored
    ensures RegisteredPeers(s.reg) !! s.reg.ignored
  {
    ReachedInv(s, run, local, cfg);
    forall p | p in RegisteredPeers(s.reg) ensures Registered(s.reg, p) && p in s.reg.watching {
    }
    forall p | p in s.reg.watching && p !in s.reg.ignored ensures p in RegisteredPeers(s.reg) {
      assert Registered(s.reg, p);
    }
  }

  lemma WatcherSpares(s: State, p: Peer, session: Session, retry: bool, o: Oracle, cfg: Config)
    requires WatchersMatch(s.reg) && HandoversWait(s.reg) && p in s.reg.watching && !o.stop
    ensures var t := Terminated(s, p, session, retry, o, cfg).reg;
            if p in s.reg.ignored then
              forall k :: k in s.reg.byPub ==> k in t.byPub && t.byPub[k] == s.reg.byPub[k]
            else
              p.key in s.reg.byPub && s.reg.byPub[p.key] == p && t.byPub == s.reg.byPub - {p.key}
  {
    TerminatedRegistry(s, p, session, retry, o, cfg);
    assert p in s.reg.ignored <==> !Registered(s.reg, p);
    if p in s.reg.ignored && p.key in s.reg.scheduled {
      ScheduledIsFree(s.reg, p.key);
    }
  }

  /** However late a watcher fires, it removes its own peer or nobody: an ignored one leaves every registered peer
      in place, and any other finds its own peer registered and removes only that entry. */
  lemma LateWatcherSparesSuccessor(s: State, run: seq<Entry>, p: Peer, session: Session, retry: bool, o: Oracle,
                                   local: PubKey, cfg: Config)
    requires Reached(s, run, local, cfg) && Enabled(s, Watch(p, session, retry), o) && !o.stop
    ensures var t := Next(s, Watch(p, session, retry), o, local, cfg).reg;
            if p in s.reg.ignored then
              forall k :: k in s.reg.byPub ==> k in t.byPub && t.byPub[k] == s.reg.byPub[k]
            else
              p.key in s.reg.byPub && s.reg.byPub[p.key] == p && t.byPub == s.reg.byPub - {p.key}
  {
    ReachedInv(s, run, local, cfg);
    WatcherSpares(s, p, session, retry, o, cfg);
  }

  /** A scheduled handover belongs to an unregistered key for which an ignored peer's watcher is still to come, so
      running the callback overwrites nobody and the callback is not forgotten. */
  lemma HandoverSafety(s: State, run: seq<Entry>, key: PubKey, local: PubKey, cfg: Config)
    requires Reached(s, run, local, cfg) && key in s.reg.scheduled
    ensures key !in s.reg.byPub
    ensures exists p :: p in s.reg.ignored && p in s.reg.watching && p.key == key
  {
    ReachedInv(s, run, local, cfg);
    assert HasIgnored(s.reg, key);
    var p :| p in s.reg.ignored && p.key == key;
    assert p in s.reg.watching;
  }

  // ---- indexes and the tie-break

  lemma IndexesSplitRegistry(s: State, run: seq<Entry>, local: PubKey, cfg: Config)
    requires Reached(s, run, local, cfg)
    ensures s.reg.inbound.Keys !! s.reg.outbound.Keys
    ensures s.reg.byPub == s.reg.inbound + s.reg.outbound
  {
    ReachedInv(s, run, local, cfg);
    assert s.reg.byPub.Keys == (s.reg.inbound + s.reg.outbound).Keys;
  }

  /** An incumbent found at the replace step has the direction of the new connection, so neither tie-break arm is
      ever taken and the order of the two keys does not influence what the handlers do. */
  lemma TieBreakUnreachable(s: State, run: seq<Entry>, conn: nat, key: PubKey, managed: bool, o: Oracle,
                            local: PubKey, other: PubKey, cfg: Config)
    requires Reached(s, run, local, cfg)
    ensures key in s.reg.byPub && key !in s.reg.outbound ==> s.reg.byPub[key].inbound
    ensures key in s.reg.byPub && key !in s.reg.inbound ==> !s.reg.byPub[key].inbound
    ensures InboundConnected(s, local, conn, key, o) == InboundConnected(s, other, conn, key, o)
    ensures OutboundConnected(s, local, conn, key, managed, o) == OutboundConnected(s, other, conn, key, managed, o)
  {
    ReachedInv(s, run, local, cfg);
    IndexOfKey(s.reg, key);
  }

  lemma IndexOfKey(r: Registry, key: PubKey)
    requires IndexesMatch(r)
    ensures key in r.byPub ==> if r.byPub[key].inbound then key in r.inbound else key in r.outbound
  {
  }

  /** The tie-break itself is sound: for two different keys, exactly one side drops its own connection. */
  lemma OneSideDrops(a: PubKey, b: PubKey)
    requires a != b
    ensures ShouldDropLocalConnection(a, b) <==> !ShouldDropLocalConnection(b, a)
  {
    GreaterIsTotal(a.bytes, b.bytes);
  }

  /** The local connection is dropped exactly when the local key is the greater one: the first different byte
      decides, and a proper prefix is less. */
  lemma {:induction false} GreaterIsLexicographic(a: seq<Byte>, b: seq<Byte>, n: nat)
    requires n <= |a| && n <= |b| && a[..n] == b[..n]
    requires n == |a| || n == |b| || a[n] != b[n]
    ensures ShouldDropLocalConnection(PubKey(a), PubKey(b)) <==> n < |a| && (n == |b| || a[n] > b[n])
    decreases n
  {
    if n > 0 {
      assert a[0] == a[..n][0] && b[0] == b[..n][0];
      assert a[1..][..n - 1] == a[..n][1..] && b[1..][..n - 1] == b[..n][1..];
      GreaterIsLexicographic(a[1..], b[1..], n - 1);
    }
  }

  lemma {:induction false} GreaterIsTotal(a: seq<Byte>, b: seq<Byte>)
    ensures a != b ==> (Greater(a, b) <==> !Greater(b, a))
    ensures a == b ==> !Greater(a, b)
    decreases |a|
  {
    if a != [] && b != [] {
      GreaterIsTotal(a[1..], b[1..]);
      assert a == [a[0]] + a[1..] && b == [b[0]] + b[1..];
    }
  }

  // ---- connections

  /** In how many places a connection is: closed by a handler, in scheduled callbacks, owned by peer objects. */
  ghost function Places(r: Registry, conn: nat): nat {
    (if conn in r.rejected then 1 else 0)
    + |set k | k in r.scheduled && r.scheduled[k].conn == conn|
    + |set p | p in r.created && p.conn == conn|
  }

  lemma ConnectionsConserved(s: State, run: seq<Entry>, conn: nat, local: PubKey, cfg: Config)
    requires Reached(s, run, local, cfg)
    ensures Places(s.reg, conn) == if conn in s.reg.handed then 1 else 0
  {
    ReachedInv(s, run, local, cfg);
    PlacedOnce(s.reg, conn);
  }

  lemma PlacedOnce(r: Registry, conn: nat)
    requires ConnectionsPlaced(r, {})
    ensures Places(r, conn) == if conn in r.handed then 1 else 0
  {
    var keys := set k | k in r.scheduled && r.scheduled[k].conn == conn;
    var peers := set p | p in r.created && p.conn == conn;
    if Scheduled(r, conn) {
      var k :| k in r.scheduled && r.scheduled[k].conn == conn;
      assert keys == {k};
    } else {
      assert keys == {};
    }
    if Owned(r, conn) {
      var p :| p in r.created && p.conn == conn;
      assert peers == {p};
      assert !Scheduled(r, conn);
    } else {
      assert peers == {};
    }
  }

  /** From the moment a connection is handed over it stays accounted for: a closed one stays closed and an owned
      one stays with its owner. */
  lemma {:induction false} PlacesAreFinal(s: State, run: seq<Entry>, local: PubKey, cfg: Config)
    ensures var t := After(s, run, local, cfg).reg;
            s.reg.handed <= t.handed && s.reg.rejected <= t.rejected && s.reg.created <= t.created
  {
    if run != [] {
      var before := run[..|run| - 1];
      PlacesAreFinal(s, before, local, cfg);
      StepPlacesAreFinal(After(s, before, local, cfg), run[|run| - 1].event, run[|run| - 1].oracle, local, cfg);
    }
  }

  ghost predicate PlacesGrow(r: Registry, t: Registry) {
    r.handed <= t.handed && r.rejected <= t.rejected && r.created <= t.created
  }

  lemma InboundGrows(s: State, local: PubKey, conn: nat, key: PubKey, o: Oracle)
    ensures PlacesGrow(s.reg, InboundConnected(s, local, conn, key, o).reg)
  {
  }

  lemma OutboundGrows(s: State, local: PubKey, conn: nat, key: PubKey, managed: bool, o: Oracle)
    ensures PlacesGrow(s.reg, OutboundConnected(s, local, conn, key, managed, o).reg)
  {
  }

  lemma TerminatedGrows(s: State, p: Peer, session: Session, retry: bool, o: Oracle, cfg: Config)
    ensures PlacesGrow(s.reg, Terminated(s, p, session, retry, o, cfg).reg)
  {
  }

  lemma StepPlacesAreFinal(s: State, e: Event, o: Oracle, local: PubKey, cfg: Config)
    ensures PlacesGrow(s.reg, Step(s, e, o, local, cfg).reg)
  {
    if e.Inbound? {
      InboundGrows(s.(reg := s.reg.(handed := s.reg.handed + {e.conn})), local, e.conn, e.key, o);
    } else if e.Outbound? {
      OutboundGrows(s.(reg := s.reg.(handed := s.reg.handed + {e.conn})), local, e.conn, e.key, e.managed, o);
    } else if e.Watch? {
      TerminatedGrows(s, e.peer, e.session, e.retry, o, cfg);
    } else if !e.Disconnect? {
      OthersMark(s, e, o, local, cfg);
    }
  }

  // ---- channels

  /** No channel is ever closed twice, in any state: what is still stored is open, and is stored once. */
  lemma ClosedOnce(run: seq<Entry>, local: PubKey, cfg: Config)
    requires IsRun(EMPTY, run, local, cfg)
    ensures var s := After(EMPTY, run, local, cfg);
            && (forall c: Chan :: s.lst.closes[c] <= 1)
            && (forall k, c :: c in Waiting(s.lst.offline, k) ==>
                  s.lst.closes[c] == 0 && multiset(Waiting(s.lst.offline, k))[c] == 1)
            && (forall k :: k in s.per.retry ==>
                  s.lst.closes[s.per.retry[k]] == 0 && s.per.retry[k] !in Waiting(s.lst.offline, k))
  {
    EmptyInv(cfg);
    RunKeepsInv(EMPTY, run, local, cfg);
    var s := After(EMPTY, run, local, cfg);
    UsedOnce(s.lst, s.per.retry);
  }

  lemma UsedOnce(l: Listeners, retry: map<PubKey, Chan>)
    requires ChannelsOnce(l, retry)
    ensures forall c: Chan :: l.closes[c] <= 1
    ensures forall k, c :: c in Waiting(l.offline, k) ==>
              l.closes[c] == 0 && multiset(Waiting(l.offline, k))[c] == 1
    ensures forall k :: k in retry ==> l.closes[retry[k]] == 0 && retry[k] !in Waiting(l.offline, k)
  {
    forall c: Chan ensures l.closes[c] <= 1 {
      assert Uses(l, retry, c) <= 1;
    }
    forall k, c | c in Waiting(l.offline, k)
      ensures l.closes[c] == 0 && multiset(Waiting(l.offline, k))[c] == 1
    {
      assert Uses(l, retry, c) <= 1;
    }
    forall k | k in retry ensures l.closes[retry[k]] == 0 && retry[k] !in Waiting(l.offline, k) {
      assert Uses(l, retry, retry[k]) <= 1;
    }
  }

  /** A stored offline channel will be closed: a watcher of its key is pending. */
  lemma OfflineIsWatched(s: State, run: seq<Entry>, key: PubKey, local: PubKey, cfg: Config)
    requires Reached(s, run, local, cfg) && Waiting(s.lst.offline, key) != []
    ensures exists p :: p in s.reg.watching && p.key == key
  {
    ReachedInv(s, run, local, cfg);
    assert Watched(s.reg, key);
  }

  /** Every online registration is waiting once or was answered once, with a peer of its key; it does not wait
      while a peer that has already notified its listeners is registered. */
  lemma OnlineAnsweredOnce(s: State, run: seq<Entry>, c: Chan, local: PubKey, cfg: Config)
    requires Reached(s, run, local, cfg) && c in s.lst.issued
    ensures |Sent(s.lst.sent, c)| + multiset(Waiting(s.lst.online, c.key))[c] == 1
    ensures forall p :: p in Sent(s.lst.sent, c) ==> p.key == c.key
    ensures Sent(s.lst.sent, c) == [] && c.key in s.reg.byPub ==> s.reg.byPub[c.key] !in s.reg.flushed
  {
    ReachedInv(s, run, local, cfg);
  }

  // ---- backoff

  /** Over every run, backoffs exist only for persistent peers; under a sane configuration they stay within range
      and `rand.Int` never panics. */
  lemma BackoffBounded(run: seq<Entry>, local: PubKey, cfg: Config)
    requires IsRun(EMPTY, run, local, cfg)
    ensures var p := After(EMPTY, run, local, cfg).per;
            && p.backoff.Keys <= p.peers.Keys
            && (SaneConfig(cfg) ==>
                  !p.crashed &&
                  forall k :: k in p.backoff ==> cfg.min <= p.backoff[k] <= cfg.max + cfg.max / 20 + 1)
  {
    EmptyInv(cfg);
    RunKeepsInv(EMPTY, run, local, cfg);
    if SaneConfig(cfg) {
      WiggledGrows(cfg.max, cfg.max);
    }
  }
}
