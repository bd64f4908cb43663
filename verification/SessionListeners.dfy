/** Listener channels and retry cancellers: none is closed twice, and every online registration is answered once. */
module SessionListeners {
  import opened SessionState

  // ---- channels that are only ever closed: offline listeners and retry cancellers

  /** The places a channel is in: closed (as often as that happened), stored for its key's disconnect, or stored as
      its key's retry canceller. */
  ghost function Uses(l: Listeners, retry: map<PubKey, Chan>, c: Chan): nat {
    l.closes[c] + multiset(Waiting(l.offline, c.key))[c] + if c.key in retry && retry[c.key] == c then 1 else 0
  }

  /** No channel is in two places, so none is closed twice and no stored one is closed already. */
  ghost predicate ChannelsOnce(l: Listeners, retry: map<PubKey, Chan>) {
    && (forall c :: Uses(l, retry, c) <= if c.n < l.nextChan then 1 else 0)
    && (forall k :: k in retry ==> retry[k].key == k)
    && (forall k, c :: c in Waiting(l.offline, k) ==> c.key == k)
  }

  lemma CloseOfflineUses(l: Listeners, retry: map<PubKey, Chan>, key: PubKey, c: Chan)
    requires forall k, d :: d in Waiting(l.offline, k) ==> d.key == k
    ensures Uses(CloseOffline(l, key), retry, c) == Uses(l, retry, c)
  {
    if c.key != key {
      assert c !in Waiting(l.offline, key);
      assert multiset(Waiting(l.offline, key))[c] == 0;
    }
  }

  lemma CloseOfflineLists(l: Listeners, key: PubKey)
    ensures var t := CloseOffline(l, key);
            Waiting(t.offline, key) == [] && forall k :: k != key ==> Waiting(t.offline, k) == Waiting(l.offline, k)
  {
  }

  lemma CloseOfflineOnce(l: Listeners, retry: map<PubKey, Chan>, key: PubKey)
    requires ChannelsOnce(l, retry)
    ensures ChannelsOnce(CloseOffline(l, key), retry)
    ensures forall c :: Uses(CloseOffline(l, key), retry, c) == Uses(l, retry, c)
    ensures var t := CloseOffline(l, key);
            && Waiting(t.offline, key) == []
            && (forall k :: k != key ==> Waiting(t.offline, k) == Waiting(l.offline, k))
            && (forall c :: c in Waiting(l.offline, key) ==> t.closes[c] == 1)
  {
    var t := CloseOffline(l, key);
    CloseOfflineLists(l, key);
    forall c ensures Uses(t, retry, c) == Uses(l, retry, c) {
      CloseOfflineUses(l, retry, key, c);
    }
    forall c | c in Waiting(l.offline, key) ensures t.closes[c] == 1 {
      assert Uses(l, retry, c) <= 1;
    }
  }

  lemma CancelRetryUses(s: State, key: PubKey)
    requires forall k :: k in s.per.retry ==> s.per.retry[k].key == k
    ensures var t := CancelConnReqs(s, key); forall c :: Uses(t.lst, t.per.retry, c) == Uses(s.lst, s.per.retry, c)
  {
  }

  lemma CancelRetryOnce(s: State, key: PubKey)
    requires ChannelsOnce(s.lst, s.per.retry)
    ensures var t := CancelConnReqs(s, key); ChannelsOnce(t.lst, t.per.retry)
    ensures var t := CancelConnReqs(s, key);
            && key !in t.per.retry && (key in s.per.retry ==> t.lst.closes[s.per.retry[key]] == 1)
            && forall c :: Uses(t.lst, t.per.retry, c) == Uses(s.lst, s.per.retry, c)
  {
    CancelRetryUses(s, key);
    if key in s.per.retry {
      var c := s.per.retry[key];
      assert Uses(s.lst, s.per.retry, c) <= 1;
      assert CancelConnReqs(s, key).lst.closes[c] == s.lst.closes[c] + 1;
    }
  }

  lemma EnsureRetryOnce(s: State, key: PubKey)
    requires ChannelsOnce(s.lst, s.per.retry)
    ensures var t := EnsureRetry(s, key); ChannelsOnce(t.lst, t.per.retry)
    ensures var t, made := EnsureRetry(s, key), Chan(key, s.lst.nextChan);
            && (key in s.per.retry ==> t == s)
            && (key !in s.per.retry ==> t.per.retry == s.per.retry[key := made] && Uses(s.lst, s.per.retry, made) == 0)
            && forall c :: Uses(t.lst, t.per.retry, c)
                        == Uses(s.lst, s.per.retry, c) + if key !in s.per.retry && c == made then 1 else 0
  {
    var t := EnsureRetry(s, key);
    if key !in s.per.retry {
      var made := Chan(key, s.lst.nextChan);
      forall c ensures Uses(t.lst, t.per.retry, c) == Uses(s.lst, s.per.retry, c) + if c == made then 1 else 0 {
      }
      assert Uses(s.lst, s.per.retry, made) == 0;
    }
  }

  /** Appending one channel to one key's list. */
  lemma WaitingAfterAppend(chans: map<PubKey, seq<Chan>>, key: PubKey, made: Chan)
    requires made.key == key
    requires forall k, c :: c in Waiting(chans, k) ==> c.key == k
    ensures var t := chans[key := Waiting(chans, key) + [made]];
            && (forall k, c :: c in Waiting(t, k) ==> c.key == k)
            && (forall c: Chan :: multiset(Waiting(t, c.key))[c]
                         == multiset(Waiting(chans, c.key))[c] + if c == made then 1 else 0)
  {
    var t := chans[key := Waiting(chans, key) + [made]];
    forall k, c | c in Waiting(t, k) ensures c.key == k {
      assert c in Waiting(chans, k) || (k == key && c == made);
    }
  }

  /** A channel made by this step takes up one place, wherever it is put. */
  lemma OneMoreOnce(l: Listeners, t: Listeners, retry: map<PubKey, Chan>, made: Chan)
    requires ChannelsOnce(l, retry) && made.n == l.nextChan && t.nextChan == l.nextChan + 1
    requires forall c :: Uses(t, retry, c) == Uses(l, retry, c) + if c == made then 1 else 0
    requires forall k, c :: c in Waiting(t.offline, k) ==> c.key == k
    ensures ChannelsOnce(t, retry)
  {
    assert Uses(l, retry, made) == 0;
  }

  lemma OfflineRequestOnce(s: State, key: PubKey)
    requires ChannelsOnce(s.lst, s.per.retry)
    ensures var t := OfflineRequested(s, key); ChannelsOnce(t.lst, t.per.retry)
    ensures var t, made := OfflineRequested(s, key), Chan(key, s.lst.nextChan);
            && Uses(s.lst, s.per.retry, made) == 0
            && (forall c :: Uses(t.lst, t.per.retry, c) == Uses(s.lst, s.per.retry, c) + if c == made then 1 else 0)
            && (key in s.reg.byPub <==> made in Waiting(t.lst.offline, key))
            && (key !in s.reg.byPub <==> t.lst.closes[made] == 1)
  {
    var t := OfflineRequested(s, key).lst;
    var made := Chan(key, s.lst.nextChan);
    if key in s.reg.byPub {
      WaitingAfterAppend(s.lst.offline, key, made);
    }
    forall c ensures Uses(t, s.per.retry, c) == Uses(s.lst, s.per.retry, c) + if c == made then 1 else 0 {
    }
    OneMoreOnce(s.lst, t, s.per.retry, made);
  }

  lemma OtherListenersOnce(l: Listeners, t: Listeners, retry: map<PubKey, Chan>)
    requires ChannelsOnce(l, retry)
    requires t.closes == l.closes && t.offline == l.offline && t.nextChan >= l.nextChan
    ensures ChannelsOnce(t, retry)
  {
    forall c ensures Uses(t, retry, c) == Uses(l, retry, c) {
    }
  }

  // ---- online registrations

  /** Every registration waits once or was answered once, with a peer of the key it asked for. */
  ghost predicate AnsweredOnce(l: Listeners) {
    && (forall c :: |Sent(l.sent, c)| + multiset(Waiting(l.online, c.key))[c] == if c in l.issued then 1 else 0)
    && (forall c :: c in l.issued ==> c.n < l.nextChan)
    && (forall k, c :: c in Waiting(l.online, k) ==> c.key == k)
    && (forall c, p :: p in Sent(l.sent, c) ==> p.key == c.key)
  }

  lemma {:induction false} SendAllCounts(sent: map<Chan, seq<Peer>>, chans: seq<Chan>, p: Peer, c: Chan)
    ensures |Sent(SendAll(sent, chans, p), c)| == |Sent(sent, c)| + multiset(chans)[c]
    ensures forall q :: q in Sent(SendAll(sent, chans, p), c) ==> q in Sent(sent, c) || (q == p && c in chans)
  {
    if chans != [] {
      var front := chans[..|chans| - 1];
      assert chans == front + [chans[|chans| - 1]];
      SendAllCounts(sent, front, p, c);
    }
  }

  lemma FlushSends(l: Listeners, p: Peer, c: Chan)
    requires AnsweredOnce(l)
    ensures Sent(SendAll(l.sent, Waiting(l.online, p.key), p), c)
         == if c in Waiting(l.online, p.key) then [p] else Sent(l.sent, c)
  {
    var chans := Waiting(l.online, p.key);
    if c in chans {
      SendAllCounts(l.sent, chans, p, c);
      assert |Sent(l.sent, c)| + multiset(Waiting(l.online, c.key))[c] <= 1;
      assert Sent(l.sent, c) == [];
      var now := Sent(SendAll(l.sent, chans, p), c);
      assert |now| == 1 && now[0] in now;
    } else {
      SendAllSkips(l.sent, chans, p, c);
    }
  }

  lemma {:induction false} SendAllSkips(sent: map<Chan, seq<Peer>>, chans: seq<Chan>, p: Peer, c: Chan)
    requires c !in chans
    ensures Sent(SendAll(sent, chans, p), c) == Sent(sent, c)
  {
    if chans != [] {
      SendAllSkips(sent, chans[..|chans| - 1], p, c);
    }
  }

  lemma FlushAnswersOnce(l: Listeners, p: Peer, cut: nat)
    requires AnsweredOnce(l) && cut >= |Waiting(l.online, p.key)|
    ensures AnsweredOnce(FlushOnline(l, p, cut))
    ensures var t := FlushOnline(l, p, cut);
            && Waiting(t.online, p.key) == []
            && (forall k :: k != p.key ==> Waiting(t.online, k) == Waiting(l.online, k))
            && (forall c :: Sent(t.sent, c) == if c in Waiting(l.online, p.key) then [p] else Sent(l.sent, c))
  {
    var t := FlushOnline(l, p, cut);
    var chans := Waiting(l.online, p.key);
    forall c
      ensures |Sent(t.sent, c)| + multiset(Waiting(t.online, c.key))[c]
           == |Sent(l.sent, c)| + multiset(Waiting(l.online, c.key))[c]
      ensures forall q :: q in Sent(t.sent, c) ==> q.key == c.key
      ensures Sent(t.sent, c) == if c in chans then [p] else Sent(l.sent, c)
    {
      SendAllCounts(l.sent, chans, p, c);
      FlushSends(l, p, c);
      if c.key != p.key {
        assert c !in chans;
        assert multiset(chans)[c] == 0;
      }
    }
    forall k, c | c in Waiting(t.online, k) ensures c.key == k {
      assert c in Waiting(l.online, k);
    }
  }

  lemma SentAtOnce(sent: map<Chan, seq<Peer>>, made: Chan, p: Peer)
    requires p.key == made.key && forall c, q :: q in Sent(sent, c) ==> q.key == c.key
    ensures var t := SendAll(sent, [made], p);
            && (forall c :: |Sent(t, c)| == |Sent(sent, c)| + if c == made then 1 else 0)
            && (forall c, q :: q in Sent(t, c) ==> q.key == c.key)
            && (forall c :: Sent(t, c) == Sent(sent, c) + if c == made then [p] else [])
  {
    assert [made][..0] == [];
    assert SendAll(sent, [made], p) == SendAll(sent, [], p)[made := Sent(sent, made) + [p]];
    forall c
      ensures |Sent(SendAll(sent, [made], p), c)| == |Sent(sent, c)| + if c == made then 1 else 0
      ensures forall q :: q in Sent(SendAll(sent, [made], p), c) ==> q.key == c.key
    {
      SendAllCounts(sent, [made], p, c);
    }
  }

  lemma OnlineRequestAnswersOnce(s: State, key: PubKey)
    requires AnsweredOnce(s.lst)
    requires key in s.reg.byPub ==> s.reg.byPub[key].key == key
    ensures AnsweredOnce(OnlineRequested(s, key, false).lst)
    ensures var t, made := OnlineRequested(s, key, false).lst, Chan(key, s.lst.nextChan);
            && made in t.issued && (forall c :: c != made ==> Sent(t.sent, c) == Sent(s.lst.sent, c))
            && (if key in s.reg.byPub then Sent(t.sent, made) == [s.reg.byPub[key]] && t.online == s.lst.online
                else Sent(t.sent, made) == [] && Waiting(t.online, key) == Waiting(s.lst.online, key) + [made])
  {
    var l := s.lst;
    var made := Chan(key, l.nextChan);
    assert made !in l.issued;
    if key !in s.reg.byPub {
      WaitingAfterAppend(l.online, key, made);
    } else {
      SentAtOnce(l.sent, made, s.reg.byPub[key]);
    }
  }

  lemma OtherAnswersOnce(l: Listeners, t: Listeners)
    requires AnsweredOnce(l)
    requires t.online == l.online && t.sent == l.sent && t.issued == l.issued && t.nextChan >= l.nextChan
    ensures AnsweredOnce(t)
  {
  }
}
