/** The preimage beacon (`oblnd/witness_beacon.go`) as a state machine: every atomic step of the callers and of the
    delivery goroutines, in any order.

    `AddPreimages` is two steps, the cache write and the snapshot of the subscribers under the lock; between them
    anything else may happen. Each delivery goroutine sends its batch one preimage at a time. */
module BeaconState {
  import opened Wrappers

  /** A preimage together with its hash. */
  datatype Preimage = Preimage(value: nat, hash: nat)

  /** A value in a subscriber's channel; `op` is the AddPreimages call it stems from. */
  datatype Item = Item(op: nat, preimage: Preimage)

  /** A subscription: `updateChan` (capacity ten), `quit`, and what the consumer has received. `known` is history:
      the hashes in the cache when the subscription was made. */
  datatype Client = Client(buffer: seq<Item>, received: seq<Item>, quit: bool, known: set<nat>)

  /** An AddPreimages call whose cache write succeeded; `targets` is the snapshot, once taken. */
  datatype Op = Op(batch: seq<Preimage>, targets: Option<set<nat>>)

  /** A delivery goroutine. */
  datatype Route = Route(op: nat, client: nat)

  datatype State = State(
    cache: map<nat, Preimage>,
    counter: nat,                     // clientCounter
    subscribers: set<nat>,            // keys of the subscribers map
    clients: map<nat, Client>,        // every subscription ever made
    ops: seq<Op>,
    queued: map<Route, seq<Preimage>>)  // what each running delivery still has to send

  const CAPACITY := 10

  const EMPTY: State := State(map[], 0, {}, map[], [], map[])

  datatype Event =
    | Subscribe
    | Cancel(client: nat)
    | Write(batch: seq<Preimage>)        // a successful cache write
    | Announce(op: nat)                  // the snapshot and the start of the deliveries
    | Deliver(route: Route)              // one send into updateChan
    | Abandon(route: Route)              // a delivery sees quit closed and returns
    | Receive(client: nat)

  /** The cache after writing a batch, later entries winning. */
  function Stored(cache: map<nat, Preimage>, batch: seq<Preimage>): map<nat, Preimage> {
    if batch == [] then cache
    else
      var last := batch[|batch| - 1];
      Stored(cache, batch[..|batch| - 1])[last.hash := last]
  }

  function Hashes(batch: seq<Preimage>): set<nat> {
    set i | 0 <= i < |batch| :: batch[i].hash
  }

  function Subscribed(s: State): State {
    s.(counter := s.counter + 1,
       subscribers := s.subscribers + {s.counter},
       clients := s.clients[s.counter := Client([], [], false, s.cache.Keys)])
  }

  function Cancelled(s: State, c: nat): State
    requires c in s.clients
  {
    s.(subscribers := s.subscribers - {c}, clients := s.clients[c := s.clients[c].(quit := true)])
  }

  function Written(s: State, batch: seq<Preimage>): State {
    s.(cache := Stored(s.cache, batch), ops := s.ops + [Op(batch, None)])
  }

  function Routes(op: nat, clients: set<nat>): set<Route> {
    set c | c in clients :: Route(op, c)
  }

  /** The deliveries of a call after some more have been started. */
  function Started(queued: map<Route, seq<Preimage>>, op: nat, clients: set<nat>, batch: seq<Preimage>)
    : map<Route, seq<Preimage>>
  {
    queued + map r | r in Routes(op, clients) :: batch
  }

  function Announced(s: State, op: nat): State
    requires op < |s.ops|
  {
    s.(ops := s.ops[op := s.ops[op].(targets := Some(s.subscribers))],
       queued := Started(s.queued, op, s.subscribers, s.ops[op].batch))
  }

  function Delivered(s: State, r: Route): State
    requires r in s.queued && s.queued[r] != [] && r.client in s.clients
  {
    var c := s.clients[r.client];
    s.(clients := s.clients[r.client := c.(buffer := c.buffer + [Item(r.op, s.queued[r][0])])],
       queued := s.queued[r := s.queued[r][1..]])
  }

  function Received(s: State, c: nat): State
    requires c in s.clients && s.clients[c].buffer != []
  {
    var k := s.clients[c];
    s.(clients := s.clients[c := k.(buffer := k.buffer[1..], received := k.received + [k.buffer[0]])])
  }

  /** When a step can happen. A subscription is cancelled at most once; a second close of `quit` would panic. */
  predicate Enabled(s: State, e: Event) {
    match e
    case Subscribe => true
    case Cancel(c) => c in s.clients && !s.clients[c].quit
    case Write(batch) => batch != []
    case Announce(op) => op < |s.ops| && s.ops[op].targets.None?
    case Deliver(r) => r in s.queued && s.queued[r] != [] && r.client in s.clients &&
                       |s.clients[r.client].buffer| < CAPACITY
    case Abandon(r) => r in s.queued && r.client in s.clients && s.clients[r.client].quit
    case Receive(c) => c in s.clients && s.clients[c].buffer != []
  }

  function Next(s: State, e: Event): State
    requires Enabled(s, e)
  {
    match e
    case Subscribe => Subscribed(s)
    case Cancel(c) => Cancelled(s, c)
    case Write(batch) => Written(s, batch)
    case Announce(op) => Announced(s, op)
    case Deliver(r) => Delivered(s, r)
    case Abandon(r) => s.(queued := s.queued - {r})
    case Receive(c) => Received(s, c)
  }

  /** A run: `states[0]` is empty and each step leads to the next state. */
  ghost predicate IsRun(states: seq<State>, events: seq<Event>) {
    && |states| == |events| + 1 && states[0] == EMPTY
    && forall i :: 0 <= i < |events| ==> Enabled(states[i], events[i]) && states[i + 1] == Next(states[i], events[i])
  }
}
