/** The preimage beacon in the form the source gives it: an object whose methods update its maps. Each method is one
    atomic step of BeaconState, except AddPreimages, which is the cache write followed by the snapshot. */
module Beacon {
  import opened Wrappers
  import opened BeaconState
  import opened BeaconProperties

  class PreimageBeacon {
    var wCache: map<nat, Preimage>
    var clientCounter: nat
    var subscribers: set<nat>
    var clients: map<nat, Client>
    var calls: seq<Op>
    var deliveries: map<Route, seq<Preimage>>

    ghost function Abs(): State
      reads this
    {
      State(wCache, clientCounter, subscribers, clients, calls, deliveries)
    }

    constructor ()
      ensures Abs() == EMPTY
    {
      wCache, clientCounter, subscribers := map[], 0, {};
      clients, calls, deliveries := map[], [], map[];
    }

    method SubscribeUpdates() returns (clientID: nat)
      modifies this
      ensures Enabled(old(Abs()), Subscribe) && Abs() == Next(old(Abs()), Subscribe)
      ensures clientID == old(clientCounter)
    {
      clientID := clientCounter;
      subscribers := subscribers + {clientID};
      clients := clients[clientID := Client([], [], false, wCache.Keys)];
      clientCounter := clientCounter + 1;
    }

    /** The subscription's cancel closure. */
    method CancelSubscription(clientID: nat)
      requires Enabled(Abs(), Cancel(clientID))
      modifies this
      ensures Abs() == Next(old(Abs()), Cancel(clientID))
    {
      subscribers := subscribers - {clientID};
      clients := clients[clientID := clients[clientID].(quit := true)];
    }

    method LookupPreimage(payHash: nat) returns (preimage: Option<Preimage>)
      ensures preimage == if payHash in wCache then Some(wCache[payHash]) else None
    {
      if payHash in wCache {
        return Some(wCache[payHash]);
      }
      return None;
    }

    /** The cache write of AddPreimages, one entry after the other. */
    method AddWitnesses(preimages: seq<Preimage>)
      requires preimages != []
      modifies this`wCache, this`calls
      ensures Abs() == Next(old(Abs()), Write(preimages))
    {
      var i := 0;
      while i < |preimages|
        invariant 0 <= i <= |preimages|
        invariant wCache == Stored(old(wCache), preimages[..i])
        invariant calls == old(calls)
      {
        assert preimages[..i + 1][..i] == preimages[..i];
        wCache := wCache[preimages[i].hash := preimages[i]];
        i := i + 1;
      }
      assert preimages[..i] == preimages;
      calls := calls + [Op(preimages, None)];
    }

    /** The locked part of AddPreimages: one delivery goroutine per subscriber. */
    method NotifySubscribers(call: nat)
      requires Enabled(Abs(), Announce(call))
      modifies this`calls, this`deliveries
      ensures Abs() == Next(old(Abs()), Announce(call))
    {
      var rest := subscribers;
      var batch := calls[call].batch;
      calls := calls[call := calls[call].(targets := Some(subscribers))];
      while rest != {}
        invariant rest <= subscribers
        invariant calls == old(calls)[call := old(calls)[call].(targets := Some(subscribers))]
        invariant deliveries == Started(old(deliveries), call, subscribers - rest, batch)
        decreases |rest|
      {
        var c :| c in rest;
        StartOne(old(deliveries), call, subscribers - rest, batch, c);
        assert subscribers - rest + {c} == subscribers - (rest - {c});
        rest := rest - {c};
        deliveries := deliveries[Route(call, c) := batch];
      }
      assert subscribers - rest == subscribers;
    }

    /** `AddPreimages`, when nothing else runs between its two parts; `stored` is the outcome of the cache write.
        Reports success. */
    method AddPreimages(preimages: seq<Preimage>, stored: bool) returns (ok: bool)
      modifies this
      ensures ok <==> preimages == [] || stored
      ensures Abs() == if preimages == [] || !stored then old(Abs())
                       else Announced(Written(old(Abs()), preimages), |old(calls)|)
      ensures stored ==> forall i :: 0 <= i < |preimages| && LastOfItsHash(preimages, i) ==>
                                       preimages[i].hash in wCache && wCache[preimages[i].hash] == preimages[i]
    {
      if preimages == [] {
        return true;
      }
      if !stored {
        return false;
      }
      AddWitnesses(preimages);
      NotifySubscribers(|calls| - 1);
      WritesStore(old(wCache), preimages);
      return true;
    }

    /** One iteration of a delivery goroutine's loop, choosing between the send and the closed quit channel. */
    method DeliverNext(r: Route, quit: bool)
      requires Enabled(Abs(), if quit then Abandon(r) else Deliver(r))
      modifies this`clients, this`deliveries
      ensures Abs() == Next(old(Abs()), if quit then Abandon(r) else Deliver(r))
    {
      if quit {
        deliveries := deliveries - {r};
        return;
      }
      var c := clients[r.client];
      clients := clients[r.client := c.(buffer := c.buffer + [Item(r.op, deliveries[r][0])])];
      deliveries := deliveries[r := deliveries[r][1..]];
    }

    /** The consumer reads from its channel. */
    method ReadUpdate(clientID: nat) returns (p: Preimage)
      requires Enabled(Abs(), Receive(clientID))
      modifies this`clients
      ensures Abs() == Next(old(Abs()), Receive(clientID))
      ensures p == old(clients)[clientID].buffer[0].preimage
    {
      var c := clients[clientID];
      p := c.buffer[0].preimage;
      clients := clients[clientID := c.(buffer := c.buffer[1..], received := c.received + [c.buffer[0]])];
    }
  }

  lemma WritesStore(cache: map<nat, Preimage>, batch: seq<Preimage>)
    ensures forall i :: 0 <= i < |batch| && LastOfItsHash(batch, i) ==>
                          batch[i].hash in Stored(cache, batch) && Stored(cache, batch)[batch[i].hash] == batch[i]
  {
    forall i | 0 <= i < |batch| && LastOfItsHash(batch, i)
      ensures batch[i].hash in Stored(cache, batch) && Stored(cache, batch)[batch[i].hash] == batch[i]
    {
      WriteStores(cache, batch, i);
    }
  }

  lemma StartOne(queued: map<Route, seq<Preimage>>, op: nat, clients: set<nat>, batch: seq<Preimage>, c: nat)
    ensures Started(queued, op, clients + {c}, batch) == Started(queued, op, clients, batch)[Route(op, c) := batch]
  {
    assert Routes(op, clients + {c}) == Routes(op, clients) + {Route(op, c)};
  }
}
