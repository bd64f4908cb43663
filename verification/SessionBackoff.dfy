/** The backoffs the session manager stores are in range over every run exactly under one condition on the
    configuration: any series of sessions of a peer is the backoff history of some run. */
module SessionBackoff {
  import opened Wrappers
  import opened Backoff
  import opened SessionState
  import opened SessionInvariants
  import opened SessionSteps
  import opened SessionProperties

  const CALM := Oracle(false, false, false)

  lemma ExtendRun(run: seq<Entry>, e: Event, local: PubKey, cfg: Config) returns (longer: seq<Entry>)
    requires IsRun(EMPTY, run, local, cfg) && Enabled(After(EMPTY, run, local, cfg), e, CALM)
    ensures IsRun(EMPTY, longer, local, cfg)
    ensures After(EMPTY, longer, local, cfg) == Next(After(EMPTY, run, local, cfg), e, CALM, local, cfg)
  {
    longer := run + [Entry(e, CALM)];
    assert longer[..|longer| - 1] == run;
  }

  /** The key of a persistent peer with backoff `b` is idle, and connections from `n` on are new. */
  ghost predicate Idle(s: State, key: PubKey, b: int, n: nat) {
    && !s.stopping && key !in s.reg.byPub && key !in s.reg.scheduled
    && key in s.per.peers && key in s.per.backoff && s.per.backoff[key] == b
    && forall c :: c in s.reg.handed ==> c < n
  }

  /** The live peer of the key, made from connection `n`. */
  ghost predicate Busy(s: State, p: Peer, b: int, n: nat) {
    && !s.stopping && Registered(s.reg, p) && p.key !in s.reg.scheduled && p in s.reg.watching && p !in s.reg.ignored
    && p.key in s.per.peers && p.key in s.per.backoff && s.per.backoff[p.key] == b
    && forall c :: c in s.reg.handed ==> c <= n
  }

  lemma ArrivalBegins(s: State, key: PubKey, b: int, n: nat, local: PubKey, cfg: Config) returns (p: Peer)
    requires LiveInv(s) && Idle(s, key, b, n)
    ensures p.key == key && p in Next(s, Inbound(n, key), CALM, local, cfg).reg.created && p !in s.reg.launched
    ensures Busy(Next(s, Inbound(n, key), CALM, local, cfg), p, b, n)
    ensures Next(s, Inbound(n, key), CALM, local, cfg).reg.launched == s.reg.launched
  {
    var t := s.(reg := s.reg.(handed := s.reg.handed + {n}));
    p := NewPeer(t, key, Callback(n, true));
    assert key !in s.reg.outbound;
    assert p !in s.reg.created;
  }

  lemma WatcherEnds(s: State, p: Peer, b: int, n: nat, session: Session, local: PubKey, cfg: Config)
    requires Busy(s, p, b, n)
    ensures var t := Next(s, Watch(p, session, true), CALM, local, cfg);
            var next := NextPeerBackoff(Some(b), session, cfg);
            if next.Some? then Idle(t, p.key, next.value, n + 1) else t.per.crashed
  {
  }

  /** One more session of an idle persistent peer: a connection arrives, the watcher starts, and the peer leaves. */
  lemma OneMoreSession(run: seq<Entry>, key: PubKey, b: int, n: nat, session: Session, local: PubKey, cfg: Config)
    returns (longer: seq<Entry>)
    requires IsRun(EMPTY, run, local, cfg) && Idle(After(EMPTY, run, local, cfg), key, b, n)
    ensures IsRun(EMPTY, longer, local, cfg)
    ensures var t := After(EMPTY, longer, local, cfg);
            var next := NextPeerBackoff(Some(b), session, cfg);
            if next.Some? then Idle(t, key, next.value, n + 1) else t.per.crashed
  {
    var s := After(EMPTY, run, local, cfg);
    ReachedInv(s, run, local, cfg);
    var p := ArrivalBegins(s, key, b, n, local, cfg);
    var arrived := ExtendRun(run, Inbound(n, key), local, cfg);
    var launched := ExtendRun(arrived, Launch(p), local, cfg);
    longer := ExtendRun(launched, Watch(p, session, true), local, cfg);
    WatcherEnds(After(EMPTY, launched, local, cfg), p, b, n, session, local, cfg);
  }

  /** Every series of sessions that starts at the minimum is the backoff history of a run. */
  lemma {:induction false} SeriesHappens(sessions: seq<Session>, key: PubKey, local: PubKey, cfg: Config)
    returns (run: seq<Entry>)
    ensures IsRun(EMPTY, run, local, cfg)
    ensures var t := After(EMPTY, run, local, cfg);
            var r := AfterSessions(cfg.min, sessions, cfg);
            if r.Some? then Idle(t, key, r.value, |sessions|) else t.per.crashed
  {
    if sessions == [] {
      run := ExtendRun([], ConnectPermanent(key, 0), local, cfg);
    } else {
      var before := sessions[..|sessions| - 1];
      run := SeriesHappens(before, key, local, cfg);
      var r := AfterSessions(cfg.min, before, cfg);
      if r.Some? {
        run := OneMoreSession(run, key, r.value, |before|, sessions[|sessions| - 1], local, cfg);
      }
    }
  }

  /** `rand.Int` has not panicked, and all stored backoffs lie between the minimum and the ceiling. */
  ghost predicate BackoffsInRange(p: Persistence, cfg: Config) {
    !p.crashed && forall k :: k in p.backoff ==> InRange(p.backoff[k], cfg)
  }

  /** For every configuration the check accepts: the manager's backoffs are in range over every run if and only if
      the minimum is at least 5 ns, the maximum at least 10 ns, and doubling the largest backoff does not overflow. */
  lemma BackoffBoundedExactlyWhen(local: PubKey, cfg: Config)
    requires 0 <= cfg.min <= cfg.max && 10 * cfg.max <= 9 * INT64_HALF
    ensures (forall run :: IsRun(EMPTY, run, local, cfg) ==> BackoffsInRange(After(EMPTY, run, local, cfg).per, cfg))
            <==> 5 <= cfg.min && 10 <= cfg.max
                 && 2 * (cfg.max + (cfg.max / 10 - cfg.max / 10 / 2)) < INT64_HALF
  {
    RunsInRangeExactlyWhen(cfg);
    if SaneConfig(cfg) {
      forall run | IsRun(EMPTY, run, local, cfg)
        ensures BackoffsInRange(After(EMPTY, run, local, cfg).per, cfg)
      {
        EmptyInv(cfg);
        RunKeepsInv(EMPTY, run, local, cfg);
      }
    } else {
      var sessions :| !StaysInRange(cfg.min, sessions, cfg);
      var run := SeriesHappens(sessions, PubKey([]), local, cfg);
      assert !BackoffsInRange(After(EMPTY, run, local, cfg).per, cfg);
    }
  }
}
