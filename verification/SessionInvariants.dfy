/** What every critical section of the session manager keeps.

    The registry facts hold until shutdown: once `stopping` is set, `addPeer` and `removePeer` freeze the maps.
    Channel closing and the backoff map are safe in every state. */
module SessionInvariants {
  import opened SessionState

  // ---- the registry

  ghost predicate Registered(r: Registry, p: Peer) {
    p.key in r.byPub && r.byPub[p.key] == p
  }

  /** Pending watchers are exactly the registered peers and the ignored ones, and no peer is both. */
  ghost predicate WatchersMatch(r: Registry) {
    && (forall k :: k in r.byPub ==> r.byPub[k].key == k && r.byPub[k] in r.watching)
    && r.ignored <= r.watching
    && (forall p :: p in r.watching ==> (p in r.ignored <==> !Registered(r, p)))
  }

  /** `peersByPub` is the disjoint union of `inboundPeers` and `outboundPeers`. */
  ghost predicate IndexesMatch(r: Registry) {
    && (forall k :: k in r.inbound <==> k in r.byPub && r.byPub[k].inbound)
    && (forall k :: k in r.outbound <==> k in r.byPub && !r.byPub[k].inbound)
    && (forall k :: k in r.inbound ==> r.inbound[k] == r.byPub[k])
    && (forall k :: k in r.outbound ==> r.outbound[k] == r.byPub[k])
  }

  ghost predicate HasIgnored(r: Registry, key: PubKey) {
    exists p :: p in r.ignored && p.key == key
  }

  /** A scheduled connection waits for an ignored peer of an unregistered key. */
  ghost predicate HandoversWait(r: Registry) {
    forall k :: k in r.scheduled ==> k !in r.byPub && HasIgnored(r, k)
  }

  ghost predicate Identities(r: Registry) {
    && r.watching <= r.created
    && r.launched <= r.created
    && r.flushed <= r.created
    && (forall p :: p in r.created ==> p.id < r.nextId && (p in r.launched || p in r.watching))
  }

  ghost predicate Owned(r: Registry, conn: nat) {
    exists p :: p in r.created && p.conn == conn
  }

  ghost predicate Scheduled(r: Registry, conn: nat) {
    exists k :: k in r.scheduled && r.scheduled[k].conn == conn
  }

  /** Every connection ever handed over is in exactly one place: closed by the handler, in one scheduled callback,
      owned by one peer object, or (`held`) in the hands of the critical section now running. */
  ghost predicate ConnectionsPlaced(r: Registry, held: set<nat>) {
    && r.rejected <= r.handed && held <= r.handed && r.rejected !! held
    && (forall p :: p in r.created ==> p.conn in r.handed && p.conn !in r.rejected && p.conn !in held)
    && (forall p, q :: p in r.created && q in r.created && p.conn == q.conn ==> p == q)
    && (forall k :: k in r.scheduled ==>
          var c := r.scheduled[k].conn; c in r.handed && c !in r.rejected && c !in held && !Owned(r, c))
    && (forall k, j :: k in r.scheduled && j in r.scheduled && r.scheduled[k].conn == r.scheduled[j].conn ==> k == j)
    && (forall c :: c in r.handed ==> c in r.rejected || c in held || Scheduled(r, c) || Owned(r, c))
  }

  ghost predicate RegistryInv(r: Registry, held: set<nat>) {
    WatchersMatch(r) && IndexesMatch(r) && HandoversWait(r) && Identities(r) && ConnectionsPlaced(r, held)
  }

  // ---- registry transitions

  ghost predicate Fresh(r: Registry, p: Peer) {
    p.id == r.nextId && p.key !in r.byPub && p.key !in r.scheduled
  }

  ghost function Added(r: Registry, p: Peer): Registry {
    AddPeer(r.(nextId := r.nextId + 1, created := r.created + {p}), p).(watching := r.watching + {p})
  }

  lemma AddWatchers(r: Registry, p: Peer)
    requires WatchersMatch(r) && Identities(r) && Fresh(r, p)
    ensures WatchersMatch(Added(r, p)) && Identities(Added(r, p))
  {
  }

  lemma AddIndexes(r: Registry, p: Peer)
    requires IndexesMatch(r) && p.key !in r.byPub
    ensures IndexesMatch(Added(r, p))
  {
  }

  lemma AddHandovers(r: Registry, p: Peer)
    requires HandoversWait(r) && Fresh(r, p)
    ensures HandoversWait(Added(r, p))
  {
    SameIgnored(r, Added(r, p));
  }

  lemma SameIgnored(r: Registry, t: Registry)
    requires r.ignored <= t.ignored
    ensures forall k :: HasIgnored(r, k) ==> HasIgnored(t, k)
  {
  }

  lemma SameOwned(r: Registry, t: Registry)
    requires r.created == t.created
    ensures forall c :: Owned(r, c) == Owned(t, c)
  {
  }

  lemma AddPlaces(r: Registry, p: Peer)
    requires ConnectionsPlaced(r, {p.conn}) && p !in r.created
    ensures ConnectionsPlaced(Added(r, p), {})
  {
    var t := Added(r, p);
    forall c ensures Owned(t, c) == (c == p.conn || Owned(r, c)) {
      if Owned(r, c) {
        var q :| q in r.created && q.conn == c;
        assert q in t.created;
      }
      assert p in t.created;
    }
    forall c ensures Scheduled(t, c) == Scheduled(r, c) {
    }
  }

  lemma AddKeepsRegistry(r: Registry, p: Peer)
    requires RegistryInv(r, {p.conn}) && Fresh(r, p)
    ensures RegistryInv(Added(r, p), {})
  {
    AddWatchers(r, p);
    AddIndexes(r, p);
    AddHandovers(r, p);
    AddPlaces(r, p);
  }

  lemma RemoveIndexes(r: Registry, p: Peer)
    requires IndexesMatch(r) && Registered(r, p)
    ensures IndexesMatch(RemovePeer(r, p))
  {
  }

  lemma SamePlaces(r: Registry, t: Registry, held: set<nat>)
    requires ConnectionsPlaced(r, held)
    requires t.handed == r.handed && t.rejected == r.rejected
    requires t.created == r.created && t.scheduled == r.scheduled
    ensures ConnectionsPlaced(t, held)
  {
    SameOwned(r, t);
    forall c ensures Scheduled(t, c) == Scheduled(r, c) {
    }
  }

  /** Unregistering a peer and ignoring its watcher, as `DisconnectPeer` does. */
  ghost function Detached(r: Registry, p: Peer): Registry {
    RemovePeer(r, p).(ignored := r.ignored + {p})
  }

  lemma DetachWatchers(r: Registry, p: Peer)
    requires WatchersMatch(r) && Identities(r) && Registered(r, p)
    ensures WatchersMatch(Detached(r, p)) && Identities(Detached(r, p))
  {
  }

  lemma DetachHandovers(r: Registry, p: Peer)
    requires HandoversWait(r)
    ensures HandoversWait(Detached(r, p)) && HasIgnored(Detached(r, p), p.key)
  {
    assert p in Detached(r, p).ignored;
    SameIgnored(r, Detached(r, p));
  }

  lemma SameIndexes(r: Registry, t: Registry)
    requires IndexesMatch(r) && t.byPub == r.byPub && t.inbound == r.inbound && t.outbound == r.outbound
    ensures IndexesMatch(t)
  {
  }

  lemma DetachKeepsRegistry(r: Registry, p: Peer, held: set<nat>)
    requires RegistryInv(r, held) && Registered(r, p)
    ensures RegistryInv(Detached(r, p), held)
    ensures HasIgnored(Detached(r, p), p.key)
  {
    DetachWatchers(r, p);
    RemoveIndexes(r, p);
    SameIndexes(RemovePeer(r, p), Detached(r, p));
    DetachHandovers(r, p);
    SamePlaces(r, Detached(r, p), held);
  }

  ghost function WithScheduled(r: Registry, key: PubKey, cb: Callback): Registry {
    r.(scheduled := r.scheduled[key := cb])
  }

  lemma SchedulePlaces(r: Registry, key: PubKey, cb: Callback)
    requires ConnectionsPlaced(r, {cb.conn}) && key !in r.scheduled
    ensures ConnectionsPlaced(WithScheduled(r, key, cb), {})
  {
    var t := WithScheduled(r, key, cb);
    SameOwned(r, t);
    forall c ensures Scheduled(t, c) == (c == cb.conn || Scheduled(r, c)) {
      if Scheduled(r, c) {
        var k :| k in r.scheduled && r.scheduled[k].conn == c;
        assert k in t.scheduled && t.scheduled[k].conn == c;
      }
      assert key in t.scheduled;
    }
    assert !Owned(r, cb.conn);
  }

  lemma ScheduleHandovers(r: Registry, key: PubKey, cb: Callback)
    requires HandoversWait(r) && key !in r.byPub && HasIgnored(r, key)
    ensures HandoversWait(WithScheduled(r, key, cb))
  {
    SameIgnored(r, WithScheduled(r, key, cb));
  }

  lemma SameWatchers(r: Registry, t: Registry)
    requires WatchersMatch(r) && Identities(r)
    requires t.byPub == r.byPub && t.watching == r.watching && t.ignored == r.ignored
    requires t.nextId == r.nextId && t.created == r.created
    requires r.launched <= t.launched <= r.created && t.flushed <= r.created
    ensures WatchersMatch(t) && Identities(t)
  {
  }

  lemma ScheduleKeepsRegistry(r: Registry, key: PubKey, cb: Callback)
    requires RegistryInv(r, {cb.conn}) && key !in r.byPub && key !in r.scheduled && HasIgnored(r, key)
    ensures RegistryInv(WithScheduled(r, key, cb), {})
  {
    var t := WithScheduled(r, key, cb);
    SameWatchers(r, t);
    SameIndexes(r, t);
    ScheduleHandovers(r, key, cb);
    SchedulePlaces(r, key, cb);
  }

  lemma SamePlacesAs(r: Registry, t: Registry)
    requires t.created == r.created && t.scheduled == r.scheduled
    ensures forall c :: Owned(t, c) == Owned(r, c) && Scheduled(t, c) == Scheduled(r, c)
  {
  }

  lemma SameHandovers(r: Registry, t: Registry)
    requires HandoversWait(r) && t.byPub == r.byPub && t.ignored == r.ignored && t.scheduled == r.scheduled
    ensures HandoversWait(t)
  {
    SameIgnored(r, t);
  }

  lemma RejectKeepsRegistry(r: Registry, conn: nat)
    requires RegistryInv(r, {conn})
    ensures RegistryInv(r.(rejected := r.rejected + {conn}), {})
  {
    var t := r.(rejected := r.rejected + {conn});
    SameWatchers(r, t);
    SameIndexes(r, t);
    SameHandovers(r, t);
    SamePlacesAs(r, t);
  }

  lemma HandedKeepsRegistry(r: Registry, conn: nat)
    requires RegistryInv(r, {}) && conn !in r.handed
    ensures RegistryInv(r.(handed := r.handed + {conn}), {conn})
  {
    var t := r.(handed := r.handed + {conn});
    SameWatchers(r, t);
    SameIndexes(r, t);
    SameHandovers(r, t);
    SamePlacesAs(r, t);
  }

  /** The watcher of a registered peer: it removes that peer and nothing else. */
  ghost function Left(r: Registry, p: Peer): Registry {
    RemovePeer(r.(watching := r.watching - {p}), p)
  }

  lemma LeaveWatchers(r: Registry, p: Peer)
    requires WatchersMatch(r) && Identities(r) && Registered(r, p) && p in r.launched
    ensures WatchersMatch(Left(r, p)) && Identities(Left(r, p))
  {
  }

  lemma LeaveHandovers(r: Registry, p: Peer)
    requires HandoversWait(r)
    ensures HandoversWait(Left(r, p))
  {
    SameIgnored(r, Left(r, p));
  }

  lemma LeaveKeepsRegistry(r: Registry, p: Peer)
    requires RegistryInv(r, {}) && Registered(r, p) && p in r.launched
    ensures RegistryInv(Left(r, p), {})
  {
    LeaveWatchers(r, p);
    RemoveIndexes(r, p);
    SameIndexes(RemovePeer(r, p), Left(r, p));
    LeaveHandovers(r, p);
    SamePlaces(r, Left(r, p), {});
  }

  /** The watcher of an ignored peer, taking the scheduled callback of its key (if any) out of the map. */
  ghost function Forgotten(r: Registry, p: Peer): Registry {
    r.(watching := r.watching - {p}, ignored := r.ignored - {p}, scheduled := r.scheduled - {p.key})
  }

  ghost function Taken(r: Registry, key: PubKey): set<nat> {
    if key in r.scheduled then {r.scheduled[key].conn} else {}
  }

  lemma ForgetWatchers(r: Registry, p: Peer)
    requires WatchersMatch(r) && Identities(r) && p in r.ignored && p in r.launched
    ensures WatchersMatch(Forgotten(r, p)) && Identities(Forgotten(r, p))
  {
  }

  lemma ForgetHandovers(r: Registry, p: Peer)
    requires HandoversWait(r)
    ensures HandoversWait(Forgotten(r, p))
  {
    var t := Forgotten(r, p);
    forall k | k in t.scheduled ensures HasIgnored(t, k) {
      assert HasIgnored(r, k);
      var q :| q in r.ignored && q.key == k;
      assert q in t.ignored;
    }
  }

  lemma ForgetPlaces(r: Registry, p: Peer)
    requires ConnectionsPlaced(r, {})
    ensures ConnectionsPlaced(Forgotten(r, p), Taken(r, p.key))
  {
    var t := Forgotten(r, p);
    var held := Taken(r, p.key);
    SameOwned(r, t);
    forall c ensures Scheduled(r, c) == (c in held || Scheduled(t, c)) {
      if Scheduled(r, c) {
        var k :| k in r.scheduled && r.scheduled[k].conn == c;
        assert k == p.key || k in t.scheduled;
      }
    }
    forall q | q in t.created ensures q.conn !in held {
      assert Owned(r, q.conn);
    }
  }

  lemma ForgetKeepsRegistry(r: Registry, p: Peer)
    requires RegistryInv(r, {}) && p in r.ignored && p in r.launched
    ensures RegistryInv(Forgotten(r, p), Taken(r, p.key))
  {
    ForgetWatchers(r, p);
    SameIndexes(r, Forgotten(r, p));
    ForgetHandovers(r, p);
    ForgetPlaces(r, p);
  }
}
