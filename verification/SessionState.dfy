/** The state of the peer-session manager (`oblnd/server.go`) as a value, and what each critical section under
    `s.mu` does to it. The class in Server.dfy performs these steps on mutable fields; the other Session modules
    prove what the steps keep.

    Fields below a "history" comment record what happened; no step branches on them. */
module SessionState {
  import opened Wrappers
  import opened Backoff

  newtype Byte = x: int | 0 <= x < 256

  /** A serialized compressed public key. */
  datatype PubKey = PubKey(bytes: seq<Byte>)

  /** A peer object. `id` is its identity: two objects for the same key differ in it. */
  datatype Peer = Peer(id: nat, key: PubKey, inbound: bool, conn: nat, buffer: nat)

  /** The closure stored in `scheduledPeerConnection`: it will call `peerConnected` with these arguments. */
  datatype Callback = Callback(conn: nat, inbound: bool)

  /** A `chan struct{}` made for a key, or a registered `peerChan`; `n` is its identity. */
  datatype Chan = Chan(key: PubKey, n: nat)

  datatype Registry = Registry(
    byPub: map<PubKey, Peer>,
    inbound: map<PubKey, Peer>,
    outbound: map<PubKey, Peer>,
    ignored: set<Peer>,
    scheduled: map<PubKey, Callback>,
    // history
    nextId: nat,
    created: set<Peer>,   // every peer object ever made
    watching: set<Peer>,  // peers whose termination watcher has not yet run its critical section
    launched: set<Peer>,  // peers whose initializer has started that watcher
    flushed: set<Peer>,   // peers whose initializer has notified the online listeners
    handed: set<nat>,     // connections given to the accept handlers
    rejected: set<nat>)   // connections closed by the accept handlers

  datatype Listeners = Listeners(
    online: map<PubKey, seq<Chan>>,
    offline: map<PubKey, seq<Chan>>,
    // history
    nextChan: nat,
    issued: set<Chan>,             // every NotifyWhenOnline registration
    sent: map<Chan, seq<Peer>>,    // what each of them was sent
    closes: multiset<Chan>)        // how often each channel was closed

  datatype Persistence = Persistence(
    peers: map<PubKey, bool>,
    backoff: map<PubKey, int>,
    reqs: map<PubKey, seq<nat>>,
    retry: map<PubKey, Chan>,
    // history
    crashed: bool)  // rand.Int panicked

  datatype Errors = Errors(
    kept: map<PubKey, nat>,
    // history
    nextBuffer: nat,
    totals: map<nat, nat>)  // CircularBuffer.Total() of every buffer

  datatype State = State(reg: Registry, lst: Listeners, per: Persistence, err: Errors, stopping: bool)

  const EMPTY: State :=
    State(Registry(map[], map[], map[], {}, map[], 0, {}, {}, {}, {}, {}, {}),
          Listeners(map[], map[], 0, {}, map[], multiset{}),
          Persistence(map[], map[], map[], map[], false),
          Errors(map[], 0, map[]), false)

  /** What the environment decides during one critical section. `sawStop` is the answer of the `Stopped()` read
      before the lock is taken (it may be stale), `stop` the answer of the read inside `addPeer` or `removePeer`,
      and `stored` tells whether disconnecting a removed peer puts an error into its buffer. */
  datatype Oracle = Oracle(sawStop: bool, stop: bool, stored: bool)

  datatype Event =
    | Inbound(conn: nat, key: PubKey)
    | Outbound(conn: nat, key: PubKey, managed: bool)
    | Disconnect(key: PubKey)
    | Launch(peer: Peer)
    | Flush(peer: Peer, cut: nat)
    | Watch(peer: Peer, session: Session, retry: bool)
    | NotifyOnline(key: PubKey, quit: bool)
    | NotifyOffline(key: PubKey)
    | ConnectPermanent(key: PubKey, req: nat)
    | Prune(key: PubKey)
    | WatchNewChannel(key: PubKey)
    | Establish(key: PubKey)
    | Reconnect(key: PubKey, reqs: seq<nat>)
    | AppendRequest(key: PubKey, req: nat)
    | StoreError(peer: Peer)
    | Stop

  // ---- key order

  /** `bytes.Compare(a, b) > 0`. */
  predicate Greater(a: seq<Byte>, b: seq<Byte>) {
    if a == [] then false
    else if b == [] then true
    else a[0] > b[0] || (a[0] == b[0] && Greater(a[1..], b[1..]))
  }

  predicate ShouldDropLocalConnection(local: PubKey, remote: PubKey) {
    Greater(local.bytes, remote.bytes)
  }

  // ---- listeners

  function Sent(sent: map<Chan, seq<Peer>>, c: Chan): seq<Peer> {
    if c in sent then sent[c] else []
  }

  /** Sends `p` on every channel of `chans`, in order. */
  function SendAll(sent: map<Chan, seq<Peer>>, chans: seq<Chan>, p: Peer): map<Chan, seq<Peer>> {
    if chans == [] then sent
    else
      var before := SendAll(sent, chans[..|chans| - 1], p);
      var c := chans[|chans| - 1];
      before[c := Sent(before, c) + [p]]
  }

  function Waiting(chans: map<PubKey, seq<Chan>>, key: PubKey): seq<Chan> {
    if key in chans then chans[key] else []
  }

  /** Closes every offline channel of a key and forgets them. */
  function CloseOffline(l: Listeners, key: PubKey): Listeners {
    l.(closes := l.closes + multiset(Waiting(l.offline, key)), offline := l.offline - {key})
  }

  /** The initializer's last critical section; `cut` is the iteration at which `quit` is chosen, if any. */
  function FlushOnline(l: Listeners, p: Peer, cut: nat): Listeners {
    var chans := Waiting(l.online, p.key);
    if cut < |chans| then l.(sent := SendAll(l.sent, chans[..cut], p))
    else l.(sent := SendAll(l.sent, chans, p), online := l.online - {p.key})
  }

  // ---- registry

  function AddPeer(r: Registry, p: Peer): Registry {
    r.(byPub := r.byPub[p.key := p],
       inbound := if p.inbound then r.inbound[p.key := p] else r.inbound,
       outbound := if p.inbound then r.outbound else r.outbound[p.key := p])
  }

  function RemovePeer(r: Registry, p: Peer): Registry {
    r.(byPub := r.byPub - {p.key},
       inbound := if p.inbound then r.inbound - {p.key} else r.inbound,
       outbound := if p.inbound then r.outbound else r.outbound - {p.key})
  }

  function Total(e: Errors, buffer: nat): nat {
    if buffer in e.totals then e.totals[buffer] else 0
  }

  function Record(e: Errors, buffer: nat): Errors {
    e.(totals := e.totals[buffer := Total(e, buffer) + 1])
  }

  /** `cancelConnReqs`; the calls into the connection manager are not modelled. */
  function CancelConnReqs(s: State, key: PubKey): State {
    s.(lst := if key in s.per.retry then s.lst.(closes := s.lst.closes + multiset{s.per.retry[key]}) else s.lst,
       per := s.per.(retry := s.per.retry - {key}, reqs := s.per.reqs - {key}))
  }

  /** The peer object `peerConnected` makes: it takes over the buffer kept for the key, or a fresh one. */
  function NewPeer(s: State, key: PubKey, cb: Callback): Peer {
    Peer(s.reg.nextId, key, cb.inbound, cb.conn, if key in s.err.kept then s.err.kept[key] else s.err.nextBuffer)
  }

  /** `peerConnected`, including `addPeer`. During shutdown the new peer is disconnected and not registered. */
  function PeerConnected(s: State, key: PubKey, cb: Callback, stop: bool): State {
    var p := NewPeer(s, key, cb);
    var made := s.reg.(nextId := s.reg.nextId + 1, created := s.reg.created + {p});
    s.(reg := if stop then made else AddPeer(made, p).(watching := made.watching + {p}),
       err := s.err.(kept := s.err.kept - {key},
                     nextBuffer := if key in s.err.kept then s.err.nextBuffer else s.err.nextBuffer + 1))
  }

  /** `removePeer`: during shutdown only the connection is closed. */
  function PeerRemoved(s: State, p: Peer, o: Oracle): State {
    var e := if o.stored then Record(s.err, p.buffer) else s.err;
    if o.stop then s.(err := e)
    else s.(reg := RemovePeer(s.reg, p),
            err := if Total(e, p.buffer) > 0 then e.(kept := e.kept[p.key := p.buffer]) else e)
  }

  function Reject(s: State, conn: nat): State {
    s.(reg := s.reg.(rejected := s.reg.rejected + {conn}))
  }

  /** The replace step: remove the incumbent, ignore its watcher, and schedule the new connection. */
  function Handover(s: State, incumbent: Peer, cb: Callback, o: Oracle): State {
    var t := PeerRemoved(s, incumbent, o);
    t.(reg := t.reg.(ignored := t.reg.ignored + {incumbent}, scheduled := t.reg.scheduled[incumbent.key := cb]))
  }

  // ---- the accept handlers, from the lock on

  function InboundConnected(s: State, local: PubKey, conn: nat, key: PubKey, o: Oracle): State {
    if key in s.reg.outbound || key in s.reg.scheduled then Reject(s, conn)
    else if key !in s.reg.byPub then PeerConnected(CancelConnReqs(s, key), key, Callback(conn, true), o.stop)
    else if !s.reg.byPub[key].inbound && !ShouldDropLocalConnection(local, key) then Reject(s, conn)
    else Handover(CancelConnReqs(s, key), s.reg.byPub[key], Callback(conn, true), o)
  }

  function OutboundConnected(s: State, local: PubKey, conn: nat, key: PubKey, managed: bool, o: Oracle): State {
    if key in s.reg.inbound || (key !in s.per.reqs && managed) || key in s.reg.scheduled then Reject(s, conn)
    else OutboundAdmitted(CancelConnReqs(s, key), local, conn, key, o)
  }

  /** The outbound handler once the key's requests are cancelled. */
  function OutboundAdmitted(s: State, local: PubKey, conn: nat, key: PubKey, o: Oracle): State {
    if key !in s.reg.byPub then PeerConnected(s, key, Callback(conn, false), o.stop)
    else if s.reg.byPub[key].inbound && ShouldDropLocalConnection(local, key) then Reject(s, conn)
    else Handover(s, s.reg.byPub[key], Callback(conn, false), o)
  }

  function Disconnected(s: State, key: PubKey, o: Oracle): State {
    if key !in s.reg.byPub then s
    else
      var p := s.reg.byPub[key];
      var t := CancelConnReqs(s, key);
      var u := PeerRemoved(t.(per := t.per.(peers := t.per.peers - {key}, backoff := t.per.backoff - {key})), p, o);
      u.(reg := u.reg.(ignored := u.reg.ignored + {p}))
  }

  // ---- the termination watcher

  /** Creates the retry canceller of a key if there is none. */
  function EnsureRetry(s: State, key: PubKey): State {
    if key in s.per.retry then s
    else s.(per := s.per.(retry := s.per.retry[key := Chan(key, s.lst.nextChan)]),
            lst := s.lst.(nextChan := s.lst.nextChan + 1))
  }

  /** The reconnect part for a persistent peer; `retry` is false when no usable address is left. */
  function ScheduleRetry(s: State, key: PubKey, session: Session, retry: bool, cfg: Config): State {
    if key !in s.per.peers || !retry then s
    else
      var next := NextPeerBackoff(if key in s.per.backoff then Some(s.per.backoff[key]) else None, session, cfg);
      if next.None? then s.(per := s.per.(crashed := true))
      else EnsureRetry(s.(per := s.per.(backoff := s.per.backoff[key := next.value])), key)
  }

  function IgnoredTerminated(s: State, p: Peer, stop: bool): State {
    var t := s.(reg := s.reg.(ignored := s.reg.ignored - {p}));
    if p.key !in t.reg.scheduled then t
    else PeerConnected(t.(reg := t.reg.(scheduled := t.reg.scheduled - {p.key})), p.key, t.reg.scheduled[p.key], stop)
  }

  function Terminated(s: State, p: Peer, session: Session, retry: bool, o: Oracle, cfg: Config): State {
    var t := s.(lst := CloseOffline(s.lst, p.key), reg := s.reg.(watching := s.reg.watching - {p}));
    if p in t.reg.ignored then IgnoredTerminated(t, p, o.stop)
    else ScheduleRetry(PeerRemoved(t, p, o), p.key, session, retry, cfg)
  }

  // ---- notification requests

  function OnlineRequested(s: State, key: PubKey, quit: bool): State {
    var c := Chan(key, s.lst.nextChan);
    var l := s.lst.(nextChan := s.lst.nextChan + 1, issued := s.lst.issued + {c});
    s.(lst :=
       if key !in s.reg.byPub then l.(online := l.online[key := Waiting(l.online, key) + [c]])
       else if quit then l
       else l.(sent := SendAll(l.sent, [c], s.reg.byPub[key])))
  }

  function OfflineRequested(s: State, key: PubKey): State {
    var c := Chan(key, s.lst.nextChan);
    var l := s.lst.(nextChan := s.lst.nextChan + 1);
    s.(lst :=
       if key !in s.reg.byPub then l.(closes := l.closes + multiset{c})
       else l.(offline := l.offline[key := Waiting(l.offline, key) + [c]]))
  }

  // ---- persistent peers

  function DefaultBackoff(p: Persistence, key: PubKey, cfg: Config): Persistence {
    if key in p.backoff then p else p.(backoff := p.backoff[key := cfg.min])
  }

  function Requests(p: Persistence, key: PubKey): seq<nat> {
    if key in p.reqs then p.reqs[key] else []
  }

  function PermanentRequested(s: State, key: PubKey, req: nat, cfg: Config): State {
    if key in s.reg.byPub then s
    else
      var p := DefaultBackoff(s.per.(peers := s.per.peers[key := true]), key, cfg);
      s.(per := p.(reqs := p.reqs[key := Requests(p, key) + [req]]))
  }

  function Pruned(s: State, key: PubKey): State {
    if key !in s.per.peers || s.per.peers[key] then s
    else CancelConnReqs(s.(per := s.per.(peers := s.per.peers - {key}, backoff := s.per.backoff - {key})), key)
  }

  // ---- one step of the system

  function Step(s: State, e: Event, o: Oracle, local: PubKey, cfg: Config): State {
    match e
    case Inbound(conn, key) =>
      var t := s.(reg := s.reg.(handed := s.reg.handed + {conn}));
      if o.sawStop then t else InboundConnected(t, local, conn, key, o)
    case Outbound(conn, key, managed) =>
      var t := s.(reg := s.reg.(handed := s.reg.handed + {conn}));
      if o.sawStop then t else OutboundConnected(t, local, conn, key, managed, o)
    case Disconnect(key) => Disconnected(s, key, o)
    case Launch(p) => if o.sawStop then s else s.(reg := s.reg.(launched := s.reg.launched + {p}))
    case Flush(p, cut) => s.(lst := FlushOnline(s.lst, p, cut), reg := s.reg.(flushed := s.reg.flushed + {p}))
    case Watch(p, session, retry) => if o.sawStop then s else Terminated(s, p, session, retry, o, cfg)
    case NotifyOnline(key, quit) => OnlineRequested(s, key, quit)
    case NotifyOffline(key) => OfflineRequested(s, key)
    case ConnectPermanent(key, req) => PermanentRequested(s, key, req, cfg)
    case Prune(key) => Pruned(s, key)
    case WatchNewChannel(key) =>
      if key in s.per.peers then s else s.(per := s.per.(peers := s.per.peers[key := false]))
    case Establish(key) => s.(per := DefaultBackoff(s.per.(peers := s.per.peers[key := false]), key, cfg))
    case Reconnect(key, reqs) => EnsureRetry(s.(per := s.per.(reqs := s.per.reqs[key := reqs])), key)
    case AppendRequest(key, req) => s.(per := s.per.(reqs := s.per.reqs[key := Requests(s.per, key) + [req]]))
    case StoreError(p) => s.(err := Record(s.err, p.buffer))
    case Stop => s
  }

  function Next(s: State, e: Event, o: Oracle, local: PubKey, cfg: Config): State {
    Step(s, e, o, local, cfg).(stopping := s.stopping || o.stop)
  }

  /** When a step can happen. Connections and peer objects have identities of their own, an initializer and a
      watcher run once per peer, and the stop flag is only ever read as set after it was set. */
  predicate Enabled(s: State, e: Event, o: Oracle) {
    && (o.sawStop ==> s.stopping)
    && (s.stopping ==> o.stop)
    && match e
       case Inbound(conn, _) => conn !in s.reg.handed
       case Outbound(conn, _, _) => conn !in s.reg.handed
       case Launch(p) => p in s.reg.created && p !in s.reg.launched
       case Flush(p, cut) =>
         p in s.reg.launched && p !in s.reg.flushed && (cut < |Waiting(s.lst.online, p.key)| ==> o.stop)
       case Watch(p, _, _) => p in s.reg.launched && p in s.reg.watching
       case NotifyOnline(_, quit) => quit ==> o.stop
       case StoreError(p) => p in s.reg.created
       case _ => true
  }

  /** A run: the events that happened, each with what the environment decided. */
  datatype Entry = Entry(event: Event, oracle: Oracle)

  /** The state after a run from `s`. */
  function After(s: State, run: seq<Entry>, local: PubKey, cfg: Config): State {
    if run == [] then s
    else
      var last := run[|run| - 1];
      Next(After(s, run[..|run| - 1], local, cfg), last.event, last.oracle, local, cfg)
  }

  predicate IsRun(s: State, run: seq<Entry>, local: PubKey, cfg: Config) {
    run == [] ||
    (IsRun(s, run[..|run| - 1], local, cfg) &&
     Enabled(After(s, run[..|run| - 1], local, cfg), run[|run| - 1].event, run[|run| - 1].oracle))
  }
}
