/** Subscribing and then looking up never misses a preimage, and every subscriber gets every batch announced after
    it subscribed exactly once and in order, over every interleaving. */
module BeaconProperties {
  import opened BeaconState

  /** The part of a subscriber's channel history that stems from one AddPreimages call. */
  function Stream(items: seq<Item>, op: nat): seq<Preimage> {
    if items == [] then []
    else
      var before := Stream(items[..|items| - 1], op);
      var last := items[|items| - 1];
      if last.op == op then before + [last.preimage] else before
  }

  /** Everything a subscriber was sent: what it received and what still lies in its channel. */
  function History(c: Client): seq<Item> {
    c.received + c.buffer
  }

  function Queued(s: State, r: Route): seq<Preimage> {
    if r in s.queued then s.queued[r] else []
  }

  ghost predicate CacheHolds(cache: map<nat, Preimage>, batch: seq<Preimage>) {
    Hashes(batch) <= cache.Keys
  }

  /** Batches are cached before they are announced, and the cache only holds preimages under their own hash. */
  ghost predicate CacheOk(s: State) {
    && (forall h :: h in s.cache ==> s.cache[h].hash == h)
    && (forall i :: 0 <= i < |s.ops| ==> CacheHolds(s.cache, s.ops[i].batch))
  }

  ghost predicate ClientsOk(s: State) {
    && (forall c: nat :: c in s.clients <==> c < s.counter)
    && (forall c :: c in s.subscribers <==> c in s.clients && !s.clients[c].quit)
    && (forall c :: c in s.clients ==> |s.clients[c].buffer| <= CAPACITY)
    && (forall r :: r in s.queued ==> r.client in s.clients && r.op < |s.ops|)
    && (forall op :: 0 <= op < |s.ops| && s.ops[op].targets.Some? ==> s.ops[op].targets.value <= s.clients.Keys)
  }

  /** Subscriber `c` was in the snapshot of call `op`. */
  ghost predicate Targeted(s: State, op: nat, c: nat)
    requires op < |s.ops|
  {
    s.ops[op].targets.Some? && c in s.ops[op].targets.value
  }

  /** An announced batch was either sent to a subscriber or already in the cache when it subscribed, unless it had
      cancelled. */
  ghost predicate NobodySkipped(s: State) {
    forall op, c :: 0 <= op < |s.ops| && s.ops[op].targets.Some? && c in s.clients ==>
      Targeted(s, op, c) || s.clients[c].quit || Hashes(s.ops[op].batch) <= s.clients[c].known
  }

  /** Per call and subscriber, received, buffered and queued preimages make up the batch, in order and each once; a
      subscriber that cancelled has seen a prefix. */
  ghost predicate Accounted(s: State, op: nat, c: nat)
    requires op < |s.ops| && c in s.clients
  {
    var seen := Stream(History(s.clients[c]), op);
    if !Targeted(s, op, c) then seen == [] && Route(op, c) !in s.queued
    else if Route(op, c) in s.queued || !s.clients[c].quit then seen + Queued(s, Route(op, c)) == s.ops[op].batch
    else seen <= s.ops[op].batch
  }

  ghost predicate StreamsOk(s: State) {
    && (forall op, c :: 0 <= op < |s.ops| && c in s.clients ==> Accounted(s, op, c))
    && (forall c, i :: c in s.clients && 0 <= i < |History(s.clients[c])| ==> History(s.clients[c])[i].op < |s.ops|)
  }

  ghost predicate Inv(s: State) {
    CacheOk(s) && ClientsOk(s) && NobodySkipped(s) && StreamsOk(s)
  }

  // ---- one step

  lemma {:induction false} StoredKeys(cache: map<nat, Preimage>, batch: seq<Preimage>)
    requires forall h :: h in cache ==> cache[h].hash == h
    ensures var t := Stored(cache, batch);
            t.Keys == cache.Keys + Hashes(batch) && forall h :: h in t ==> t[h].hash == h
  {
    if batch != [] {
      var front := batch[..|batch| - 1];
      StoredKeys(cache, front);
      assert Hashes(batch) == Hashes(front) + {batch[|batch| - 1].hash} by {
        forall h | h in Hashes(batch) ensures h in Hashes(front) + {batch[|batch| - 1].hash} {
          var i :| 0 <= i < |batch| && batch[i].hash == h;
          assert i < |front| ==> front[i].hash == h;
        }
        forall h | h in Hashes(front) ensures h in Hashes(batch) {
          var i :| 0 <= i < |front| && front[i].hash == h;
          assert batch[i].hash == h;
        }
      }
    }
  }

  lemma {:induction false} StreamOfNone(items: seq<Item>, op: nat)
    requires forall i :: 0 <= i < |items| ==> items[i].op != op
    ensures Stream(items, op) == []
  {
    if items != [] {
      StreamOfNone(items[..|items| - 1], op);
    }
  }

  lemma StreamAppend(items: seq<Item>, last: Item, op: nat)
    ensures Stream(items + [last], op) == if last.op == op then Stream(items, op) + [last.preimage]
                                          else Stream(items, op)
  {
    assert (items + [last])[..|items|] == items;
  }

  lemma CacheStep(s: State, e: Event)
    requires Enabled(s, e) && CacheOk(s)
    ensures CacheOk(Next(s, e))
  {
    if e.Write? {
      StoredKeys(s.cache, e.batch);
    }
  }

  lemma ClientsStep(s: State, e: Event)
    requires Enabled(s, e) && ClientsOk(s)
    ensures ClientsOk(Next(s, e))
  {
  }

  lemma SkippedStep(s: State, e: Event)
    requires Enabled(s, e) && NobodySkipped(s) && ClientsOk(s) && CacheOk(s)
    ensures NobodySkipped(Next(s, e))
  {
    var t := Next(s, e);
    forall op, c | 0 <= op < |t.ops| && t.ops[op].targets.Some? && c in t.clients
      ensures Targeted(t, op, c) || t.clients[c].quit || Hashes(t.ops[op].batch) <= t.clients[c].known
    {
      if c in s.clients {
        assert op < |s.ops|;
        assert s.ops[op].targets.Some? ==>
          Targeted(s, op, c) || s.clients[c].quit || Hashes(s.ops[op].batch) <= s.clients[c].known;
      } else {
        assert CacheHolds(s.cache, s.ops[op].batch);
      }
    }
  }

  /** Steps other than a send leave every subscriber's channel history as it was. */
  lemma HistoryStep(s: State, e: Event, c: nat)
    requires Enabled(s, e) && ClientsOk(s) && c in s.clients
    ensures c in Next(s, e).clients
    ensures History(Next(s, e).clients[c])
         == if e.Deliver? && e.route.client == c then History(s.clients[c]) + [Item(e.route.op, s.queued[e.route][0])]
            else History(s.clients[c])
  {
    var k := s.clients[c];
    if e.Receive? && e.client == c {
      assert k.buffer == [k.buffer[0]] + k.buffer[1..];
      assert History(Next(s, e).clients[c]) == History(k);
    } else if e.Deliver? && e.route.client == c {
      assert History(Next(s, e).clients[c]) == History(k) + [Item(e.route.op, s.queued[e.route][0])];
    } else {
      assert Next(s, e).clients[c].received == k.received && Next(s, e).clients[c].buffer == k.buffer;
    }
  }

  /** A send moves the first queued preimage of its own route to the end of the stream. */
  lemma OwnDeliverAccounted(s: State, r: Route)
    requires Enabled(s, Deliver(r)) && ClientsOk(s) && r.op < |s.ops| && Accounted(s, r.op, r.client)
    ensures Accounted(Next(s, Deliver(r)), r.op, r.client)
  {
    HistoryStep(s, Deliver(r), r.client);
    var h, q := History(s.clients[r.client]), s.queued[r];
    StreamAppend(h, Item(r.op, q[0]), r.op);
    assert (Stream(h, r.op) + [q[0]]) + q[1..] == Stream(h, r.op) + q;
  }

  /** It leaves every other route alone. */
  lemma OtherDeliverAccounted(s: State, r: Route, op: nat, c: nat)
    requires Enabled(s, Deliver(r)) && ClientsOk(s) && c in s.clients && op < |s.ops| && Accounted(s, op, c)
    requires r != Route(op, c)
    ensures Accounted(Next(s, Deliver(r)), op, c)
  {
    HistoryStep(s, Deliver(r), c);
    if r.client == c {
      StreamAppend(History(s.clients[c]), Item(r.op, s.queued[r][0]), op);
    }
  }

  lemma AnnounceAccounted(s: State, call: nat, op: nat, c: nat)
    requires Enabled(s, Announce(call)) && ClientsOk(s) && c in s.clients && op < |s.ops| && Accounted(s, op, c)
    ensures Accounted(Next(s, Announce(call)), op, c)
  {
    HistoryStep(s, Announce(call), c);
    assert [] + s.ops[op].batch == s.ops[op].batch;
  }

  lemma AccountedStep(s: State, e: Event, op: nat, c: nat)
    requires Enabled(s, e) && ClientsOk(s) && c in s.clients && op < |s.ops| && Accounted(s, op, c)
    ensures Accounted(Next(s, e), op, c)
  {
    if e.Deliver? {
      if e.route == Route(op, c) {
        OwnDeliverAccounted(s, e.route);
      } else {
        OtherDeliverAccounted(s, e.route, op, c);
      }
    } else if e.Announce? {
      AnnounceAccounted(s, e.op, op, c);
    } else {
      HistoryStep(s, e, c);
      if e.Abandon? && e.route == Route(op, c) {
        assert Stream(History(s.clients[c]), op) <= s.ops[op].batch;
      }
    }
  }

  lemma StreamsStep(s: State, e: Event)
    requires Enabled(s, e) && Inv(s)
    ensures StreamsOk(Next(s, e))
  {
    var t := Next(s, e);
    forall c, i | c in t.clients && 0 <= i < |History(t.clients[c])|
      ensures History(t.clients[c])[i].op < |t.ops|
    {
      if c in s.clients {
        HistoryStep(s, e, c);
      }
    }
    forall op, c | 0 <= op < |t.ops| && c in t.clients ensures Accounted(t, op, c) {
      if c !in s.clients {
        assert History(t.clients[c]) == [];
      } else if op < |s.ops| {
        AccountedStep(s, e, op, c);
      } else {
        HistoryStep(s, e, c);
        StreamOfNone(History(t.clients[c]), op);
      }
    }
  }

  lemma {:induction false} RunInv(states: seq<State>, events: seq<Event>, n: nat)
    requires IsRun(states, events) && n <= |events|
    ensures Inv(states[n])
  {
    if n > 0 {
      RunInv(states, events, n - 1);
      var s := states[n - 1];
      CacheStep(s, events[n - 1]);
      ClientsStep(s, events[n - 1]);
      SkippedStep(s, events[n - 1]);
      StreamsStep(s, events[n - 1]);
    }
  }

  // ---- the guarantees

  /** Subscribe, then look up: once AddPreimages has returned, each preimage of the batch was in the cache when an
      uncancelled subscriber subscribed, or has been received by it, or is buffered or queued for it. */
  lemma SubscribeThenLookupNeverMisses(states: seq<State>, events: seq<Event>, n: nat, op: nat, c: nat, p: Preimage)
    requires IsRun(states, events) && n <= |events|
    requires var s := states[n];
             op < |s.ops| && s.ops[op].targets.Some? && p in s.ops[op].batch && c in s.clients && !s.clients[c].quit
    ensures var s := states[n];
            || p.hash in s.clients[c].known
            || (exists i :: 0 <= i < |History(s.clients[c])| && History(s.clients[c])[i] == Item(op, p))
            || p in Queued(s, Route(op, c))
  {
    RunInv(states, events, n);
    var s := states[n];
    assert Accounted(s, op, c);
    if Targeted(s, op, c) {
      if p !in Queued(s, Route(op, c)) {
        assert p in Stream(History(s.clients[c]), op) + Queued(s, Route(op, c));
        StreamComesFromItems(History(s.clients[c]), op, p);
      }
    } else {
      assert p.hash in Hashes(s.ops[op].batch);
    }
  }

  lemma {:induction false} StreamComesFromItems(items: seq<Item>, op: nat, p: Preimage)
    requires p in Stream(items, op)
    ensures exists i :: 0 <= i < |items| && items[i] == Item(op, p)
  {
    var front := items[..|items| - 1];
    if items[|items| - 1] != Item(op, p) {
      StreamComesFromItems(front, op, p);
      var i :| 0 <= i < |front| && front[i] == Item(op, p);
      assert items[i] == Item(op, p);
    }
  }

  /** Everything ever written to the cache, oldest first. */
  function AllWritten(ops: seq<Op>): seq<Preimage> {
    if ops == [] then [] else AllWritten(ops[..|ops| - 1]) + ops[|ops| - 1].batch
  }

  /** `p` was written, and nothing with its hash after it. */
  ghost predicate IsLatest(all: seq<Preimage>, p: Preimage) {
    exists k :: 0 <= k < |all| && all[k] == p && forall j :: k < j < |all| ==> all[j].hash != p.hash
  }

  /** The cache holds the latest preimage written for each hash, under that hash, and nothing else. */
  ghost predicate HoldsLatest(cache: map<nat, Preimage>, all: seq<Preimage>) {
    && (forall h :: h in cache ==> cache[h].hash == h && IsLatest(all, cache[h]))
    && (forall k :: 0 <= k < |all| ==> all[k].hash in cache)
  }

  lemma StoredOne(cache: map<nat, Preimage>, all: seq<Preimage>, p: Preimage)
    requires HoldsLatest(cache, all)
    ensures HoldsLatest(cache[p.hash := p], all + [p])
  {
    var t, now := cache[p.hash := p], all + [p];
    forall h | h in t ensures t[h].hash == h && IsLatest(now, t[h]) {
      if h == p.hash {
        assert now[|all|] == p;
      } else {
        assert IsLatest(all, cache[h]);
        var k :| 0 <= k < |all| && all[k] == cache[h] && forall j :: k < j < |all| ==> all[j].hash != h;
        assert now[k] == cache[h];
      }
    }
  }

  lemma {:induction false} StoredLatest(cache: map<nat, Preimage>, all: seq<Preimage>, batch: seq<Preimage>)
    requires HoldsLatest(cache, all)
    ensures HoldsLatest(Stored(cache, batch), all + batch)
  {
    if batch == [] {
      assert all + batch == all;
    } else {
      var front, last := batch[..|batch| - 1], batch[|batch| - 1];
      StoredLatest(cache, all, front);
      StoredOne(Stored(cache, front), all + front, last);
      assert all + batch == (all + front) + [last];
    }
  }

  predicate LastOfItsHash(batch: seq<Preimage>, i: nat)
    requires i < |batch|
  {
    forall j :: i < j < |batch| ==> batch[j].hash != batch[i].hash
  }

  /** Writing a batch stores each of its preimages that no later one of the batch replaces. */
  lemma {:induction false} WriteStores(cache: map<nat, Preimage>, batch: seq<Preimage>, i: nat)
    requires i < |batch| && LastOfItsHash(batch, i)
    ensures var t := Stored(cache, batch); batch[i].hash in t && t[batch[i].hash] == batch[i]
  {
    var front := batch[..|batch| - 1];
    if i < |front| {
      WriteStores(cache, front, i);
    }
  }

  /** It leaves every other hash alone. */
  lemma {:induction false} WriteLeavesOthers(cache: map<nat, Preimage>, batch: seq<Preimage>, h: nat)
    requires h !in Hashes(batch)
    ensures var t := Stored(cache, batch); (h in t <==> h in cache) && (h in t ==> t[h] == cache[h])
  {
    if batch != [] {
      var front := batch[..|batch| - 1];
      assert forall i :: 0 <= i < |front| ==> front[i].hash == batch[i].hash;
      assert batch[|batch| - 1].hash in Hashes(batch);
      WriteLeavesOthers(cache, front, h);
    }
  }

  lemma SameBatches(ops: seq<Op>, later: seq<Op>)
    requires |later| == |ops| && forall i :: 0 <= i < |ops| ==> later[i].batch == ops[i].batch
    ensures AllWritten(later) == AllWritten(ops)
  {
    if ops != [] {
      SameBatches(ops[..|ops| - 1], later[..|later| - 1]);
    }
  }

  lemma {:induction false} RunHoldsLatest(states: seq<State>, events: seq<Event>, n: nat)
    requires IsRun(states, events) && n <= |events|
    ensures HoldsLatest(states[n].cache, AllWritten(states[n].ops))
  {
    if n > 0 {
      RunHoldsLatest(states, events, n - 1);
      var s, t := states[n - 1], states[n];
      assert Enabled(s, events[n - 1]) && t == Next(s, events[n - 1]);
      if events[n - 1].Write? {
        var batch := events[n - 1].batch;
        StoredLatest(s.cache, AllWritten(s.ops), batch);
        assert t.ops[..|t.ops| - 1] == s.ops;
      } else {
        SameBatches(s.ops, t.ops);
      }
    }
  }

  lemma {:induction false} WrittenHolds(ops: seq<Op>, op: nat, p: Preimage)
    requires op < |ops| && p in ops[op].batch
    ensures p in AllWritten(ops)
  {
    if op < |ops| - 1 {
      WrittenHolds(ops[..|ops| - 1], op, p);
    }
  }

  /** A lookup finds every preimage ever added: under its hash the cache holds the latest preimage written for that
      hash, which is the one added unless another one with the same hash was written. */
  lemma LookupFindsAdded(states: seq<State>, events: seq<Event>, n: nat, op: nat, p: Preimage)
    requires IsRun(states, events) && n <= |events| && op < |states[n].ops| && p in states[n].ops[op].batch
    ensures var s := states[n];
            && p.hash in s.cache && IsLatest(AllWritten(s.ops), s.cache[p.hash])
            && ((forall q :: q in AllWritten(s.ops) && q.hash == p.hash ==> q == p) ==> s.cache[p.hash] == p)
  {
    RunHoldsLatest(states, events, n);
    WrittenHolds(states[n].ops, op, p);
    var all := AllWritten(states[n].ops);
    var k :| 0 <= k < |all| && all[k] == p;
    assert IsLatest(all, states[n].cache[p.hash]);
  }

  /** Nothing is ever dropped from the cache: a lookup after the subscription finds whatever was cached at that
      time, namely the latest preimage written under the hash asked for. */
  lemma {:induction false} LookupFindsKnown(states: seq<State>, events: seq<Event>, n: nat, c: nat, h: nat)
    requires IsRun(states, events) && n <= |events| && c in states[n].clients && h in states[n].clients[c].known
    ensures h in states[n].cache && states[n].cache[h].hash == h
    ensures IsLatest(AllWritten(states[n].ops), states[n].cache[h])
  {
    KnownStaysCached(states, events, n, c, h);
    RunHoldsLatest(states, events, n);
  }

  lemma {:induction false} KnownStaysCached(states: seq<State>, events: seq<Event>, n: nat, c: nat, h: nat)
    requires IsRun(states, events) && n <= |events| && c in states[n].clients && h in states[n].clients[c].known
    ensures h in states[n].cache
  {
    if n > 0 {
      var s := states[n - 1];
      RunInv(states, events, n - 1);
      assert Enabled(s, events[n - 1]) && states[n] == Next(s, events[n - 1]);
      if events[n - 1].Write? {
        StoredKeys(s.cache, events[n - 1].batch);
      }
      if c in s.clients {
        KnownStaysCached(states, events, n - 1, c, h);
      }
    }
  }

  /** Delivery is exactly once and in order: for a subscriber in a call's snapshot, what it got from the call plus
      what is still queued is the batch itself; outside the snapshot it gets nothing; a cancelled subscriber, once
      its delivery has given up, has got a prefix. */
  lemma DeliveredOnceInOrder(states: seq<State>, events: seq<Event>, n: nat, op: nat, c: nat)
    requires IsRun(states, events) && n <= |events| && op < |states[n].ops| && c in states[n].clients
    ensures var s := states[n];
            var seen := Stream(s.clients[c].received + s.clients[c].buffer, op);
            && |s.clients[c].buffer| <= 10
            && if !Targeted(s, op, c) then seen == []
               else seen <= s.ops[op].batch &&
                    (!s.clients[c].quit ==> seen + Queued(s, Route(op, c)) == s.ops[op].batch)
  {
    RunInv(states, events, n);
    var s := states[n];
    assert Accounted(s, op, c);
    assert forall a: seq<Preimage>, b: seq<Preimage> :: a <= a + b;
  }

  lemma Extend(states: seq<State>, events: seq<Event>, e: Event) returns (longer: seq<State>)
    requires IsRun(states, events) && Enabled(states[|events|], e)
    ensures longer == states + [Next(states[|events|], e)] && IsRun(longer, events + [e])
  {
    longer := states + [Next(states[|events|], e)];
    var all := events + [e];
    forall i | 0 <= i < |all| ensures Enabled(longer[i], all[i]) && longer[i + 1] == Next(longer[i], all[i]) {
      assert longer[i] == states[i];
    }
  }

  /** Nothing a subscriber is owed gets stuck: from every reached state in which it is in a call's snapshot and has
      not cancelled, its reads and its delivery's sends alone bring it the whole batch, in order and once. */
  lemma {:induction false} EverythingCanArrive(states: seq<State>, events: seq<Event>, op: nat, c: nat)
    returns (later: seq<State>, more: seq<Event>)
    requires IsRun(states, events)
    requires var s := states[|events|];
             op < |s.ops| && c in s.clients && Targeted(s, op, c) && !s.clients[c].quit
    ensures IsRun(later, events + more)
    ensures forall i :: 0 <= i < |more| ==> more[i] == Receive(c) || more[i] == Deliver(Route(op, c))
    ensures var s, t := states[|events|], later[|events + more|];
            c in t.clients && Stream(t.clients[c].received, op) == s.ops[op].batch
    decreases var s := states[|events|]; 2 * |Queued(s, Route(op, c))| + |s.clients[c].buffer|
  {
    var s := states[|events|];
    RunInv(states, events, |events|);
    if s.clients[c].buffer == [] && Queued(s, Route(op, c)) == [] {
      later, more := states, [];
      assert events + more == events && Accounted(s, op, c);
      assert History(s.clients[c]) == s.clients[c].received;
    } else {
      var e := if s.clients[c].buffer != [] then Receive(c) else Deliver(Route(op, c));
      var longer := Extend(states, events, e);
      var rest;
      later, rest := EverythingCanArrive(longer, events + [e], op, c);
      more := [e] + rest;
      assert events + more == (events + [e]) + rest;
    }
  }
}
