/** Reconnect backoff of persistent peers: `nextPeerBackoff` and `computeNextBackoff`.

    Durations are nanoseconds in Go's `int64`; doubling wraps exactly as it does there. */
module Backoff {
  import opened Wrappers

  const INT64_HALF: int := 0x8000_0000_0000_0000

  /** `defaultStableConnDuration`: ten minutes. */
  const STABLE_CONN_DURATION: int := 600_000_000_000

  /** The `minbackoff` and `maxbackoff` settings. */
  datatype Config = Config(min: int, max: int)

  /** Two's complement wrap-around of an `int64` result. */
  function Wrap64(x: int): int {
    (x + INT64_HALF) % (2 * INT64_HALF) - INT64_HALF
  }

  /** Go's `/`, which truncates toward zero, for a positive divisor. */
  function TruncDiv(x: int, d: int): int
    requires d > 0
  {
    if x >= 0 then x / d else -(-x / d)
  }

  function Min(a: int, b: int): int {
    if a <= b then a else b
  }

  /** Doubles the backoff and truncates it at the maximum. The value drawn by `rand.Int` is discarded by the
      source, so the wiggle is the whole margin; there is none when no number could be drawn. A zero margin makes
      `rand.Int` panic (`None`). */
  function ComputeNextBackoff(curr: int, max: int, drawn: bool): Option<int> {
    var next := Min(Wrap64(2 * curr), max);
    var margin := TruncDiv(next, 10);
    if margin == 0 then None
    else if drawn then Some(Wrap64(next + (margin - TruncDiv(margin, 2))))
    else Some(next)
  }

  type Duration = x: int | -INT64_HALF <= x < INT64_HALF

  /** How a session ended, as `nextPeerBackoff` sees it: how long it lasted, or `None` when the peer never started,
      and whether `rand.Int` could draw a number for the next backoff. */
  datatype Session = Session(uptime: Option<Duration>, drawn: bool)

  predicate IsStable(session: Session) {
    session.uptime.Some? && session.uptime.value >= STABLE_CONN_DURATION
  }

  /** The backoff to store next; `stored` is the peer's entry in the backoff map, if any. */
  function NextPeerBackoff(stored: Option<int>, session: Session, cfg: Config): Option<int> {
    if stored.None? then Some(cfg.min)
    else
      var next := ComputeNextBackoff(stored.value, cfg.max, session.drawn);
      if !IsStable(session) || next.None? then next
      else
        var relaxed := Wrap64(next.value - session.uptime.value);
        Some(if relaxed > cfg.min then relaxed else cfg.min)
  }

  /** A non-negative duration and its wiggle: about a twentieth more. */
  function Wiggled(x: int): int {
    x + (x / 10 - x / 10 / 2)
  }

  /** The largest backoff that can be stored under a configuration. */
  function Ceiling(cfg: Config): int {
    Wiggled(cfg.max)
  }

  /** The configuration check (`MinBackoff <= MaxBackoff`) together with the two facts the arithmetic relies on
      and does not check: no zero margin, and no overflow when the ceiling is doubled. Runs are in range exactly
      under this condition (`RunsInRangeExactlyWhen`). */
  predicate SaneConfig(cfg: Config) {
    5 <= cfg.min <= cfg.max && 10 <= cfg.max && 2 * Ceiling(cfg) < INT64_HALF
  }

  predicate InRange(backoff: int, cfg: Config) {
    cfg.min <= backoff <= Ceiling(cfg)
  }

  lemma Wrap64Identity(x: int)
    requires -INT64_HALF <= x < INT64_HALF
    ensures Wrap64(x) == x
  {
  }

  lemma WiggledGrows(x: int, y: int)
    requires 0 <= x <= y
    ensures x <= Wiggled(x) <= Wiggled(y) <= y + y / 20 + 1
  {
  }

  /** What one escalation step does when nothing overflows: at least the truncated double, strictly above
      it when a number was drawn, and at most the wiggle above the maximum. */
  lemma ComputeNextBackoffBounds(curr: int, max: int, drawn: bool)
    requires 5 <= curr && 10 <= max && 2 * curr < INT64_HALF && Wiggled(max) < INT64_HALF
    ensures var r := ComputeNextBackoff(curr, max, drawn);
            && r == Some(if drawn then Wiggled(Min(2 * curr, max)) else Min(2 * curr, max))
            && Min(2 * curr, max) <= r.value <= Wiggled(max)
            && (r.value == Min(2 * curr, max) <==> !drawn)
  {
    Wrap64Identity(2 * curr);
    var next := Min(2 * curr, max);
    WiggledGrows(next, max);
    Wrap64Identity(Wiggled(next));
  }

  /** `rand.Int` panics exactly on the doubled, truncated values of magnitude below ten nanoseconds. */
  lemma PanicsExactlyOnZeroMargin(curr: int, max: int, drawn: bool)
    ensures ComputeNextBackoff(curr, max, drawn).None? <==> -10 < Min(Wrap64(2 * curr), max) < 10
  {
  }

  /** When doubling overflows the result is negative, or wraps once more to beyond the ceiling. */
  lemma OverflowMisses(curr: int, max: int, drawn: bool)
    requires INT64_HALF <= 2 * curr < 2 * INT64_HALF && 0 <= max && 10 * max <= 9 * INT64_HALF
    ensures var r := ComputeNextBackoff(curr, max, drawn);
            r.Some? ==> r.value < 0 || r.value > Wiggled(max)
  {
    WiggledGrows(max, max);
    var next := 2 * curr - 2 * INT64_HALF;
    assert Wrap64(2 * curr) == next;
    var margin := -(-next / 10);
    assert TruncDiv(next, 10) == margin;
    var r := next + (margin + -margin / 2);
    if r < -INT64_HALF {
      assert Wrap64(r) == r + 2 * INT64_HALF;
    } else {
      Wrap64Identity(r);
    }
  }

  /** A negative backoff, which only an overflow can leave behind: it doubles as it is, unless that overflows too
      and makes the double a non-negative one. */
  lemma NegativeEscalates(curr: int, max: int, drawn: bool)
    requires -INT64_HALF <= curr < 0 && 0 <= max && 10 * max <= 9 * INT64_HALF
    ensures var r := ComputeNextBackoff(curr, max, drawn);
            (r.Some? && 2 * curr <= r.value <= Wiggled(max))
            <==> if 2 * curr < -INT64_HALF then 10 <= Min(2 * curr + 2 * INT64_HALF, max)
                 else 2 * curr <= -10 && !drawn
  {
    WiggledGrows(max, max);
    if 2 * curr < -INT64_HALF {
      var next := Min(2 * curr + 2 * INT64_HALF, max);
      assert Wrap64(2 * curr) == 2 * curr + 2 * INT64_HALF;
      WiggledGrows(next, max);
      Wrap64Identity(Wiggled(next));
    } else {
      Wrap64Identity(2 * curr);
      var margin := -(-2 * curr / 10);
      assert TruncDiv(2 * curr, 10) == margin;
      var r := 2 * curr + (margin + -margin / 2);
      if r < -INT64_HALF {
        assert Wrap64(r) == r + 2 * INT64_HALF;
      } else {
        Wrap64Identity(r);
      }
    }
  }

  /** Escalation lands between the truncated double and the ceiling exactly when doubling does not overflow and the
      truncated double is at least ten nanoseconds; otherwise the wrapped value makes the retry immediate or absurdly
      late, or `rand.Int` panics. A negative backoff does so when its wrapped double is at least ten nanoseconds, or
      when it merely doubles without a wiggle. Maxima above nine tenths of the int64 range (262 years) are left out:
      there the wiggle itself can overflow. */
  lemma EscalatesExactlyWhen(curr: int, max: int, drawn: bool)
    requires -INT64_HALF <= curr < INT64_HALF && 0 <= max && 10 * max <= 9 * INT64_HALF
    ensures var r := ComputeNextBackoff(curr, max, drawn);
            (r.Some? && Min(2 * curr, max) <= r.value <= Wiggled(max))
            <==> if curr >= 0 then 2 * curr < INT64_HALF && 10 <= Min(2 * curr, max)
                 else if 2 * curr < -INT64_HALF then 10 <= Min(2 * curr + 2 * INT64_HALF, max)
                 else 2 * curr <= -10 && !drawn
  {
    WiggledGrows(max, max);
    if curr < 0 {
      NegativeEscalates(curr, max, drawn);
    } else if 2 * curr >= INT64_HALF {
      OverflowMisses(curr, max, drawn);
    } else if 10 <= Min(2 * curr, max) {
      ComputeNextBackoffBounds(curr, max, drawn);
    } else {
      PanicsExactlyOnZeroMargin(curr, max, drawn);
      Wrap64Identity(2 * curr);
    }
  }

  /** One step never leaves the range, whatever the session was. */
  lemma NextPeerBackoffInRange(stored: Option<int>, session: Session, cfg: Config)
    requires SaneConfig(cfg)
    requires stored.Some? ==> InRange(stored.value, cfg)
    ensures var r := NextPeerBackoff(stored, session, cfg); r.Some? && InRange(r.value, cfg)
  {
    if stored.Some? {
      ComputeNextBackoffBounds(stored.value, cfg.max, session.drawn);
      var next := ComputeNextBackoff(stored.value, cfg.max, session.drawn).value;
      if IsStable(session) {
        Wrap64Identity(next - session.uptime.value);
      }
    }
  }

  /** A session that lasted at least the next backoff minus the minimum resets the backoff to the minimum, and a
      stable session resets it only then. */
  lemma StableSessionReset(stored: int, session: Session, cfg: Config)
    requires SaneConfig(cfg) && InRange(stored, cfg) && IsStable(session)
    ensures var next := ComputeNextBackoff(stored, cfg.max, session.drawn);
            next.Some? &&
            (NextPeerBackoff(Some(stored), session, cfg) == Some(cfg.min) <==>
             session.uptime.value >= next.value - cfg.min)
  {
    ComputeNextBackoffBounds(stored, cfg.max, session.drawn);
    Wrap64Identity(ComputeNextBackoff(stored, cfg.max, session.drawn).value - session.uptime.value);
  }

  /** What `nextPeerBackoff` returns: the minimum for a peer without a stored backoff, the next backoff after a failed
      start or a session shorter than ten minutes, and otherwise the next backoff less the uptime, unless that falls
      to the minimum. */
  lemma NextPeerBackoffCases(stored: int, session: Session, cfg: Config)
    requires SaneConfig(cfg) && InRange(stored, cfg)
    ensures NextPeerBackoff(None, session, cfg) == Some(cfg.min)
    ensures var next := ComputeNextBackoff(stored, cfg.max, session.drawn);
            var r := NextPeerBackoff(Some(stored), session, cfg);
            && next.Some?
            && (session.uptime.None? || session.uptime.value < 600_000_000_000 ==> r == next)
            && (session.uptime.Some? && 600_000_000_000 <= session.uptime.value < next.value - cfg.min ==>
                  r == Some(next.value - session.uptime.value))
  {
    ComputeNextBackoffBounds(stored, cfg.max, session.drawn);
    if IsStable(session) {
      Wrap64Identity(ComputeNextBackoff(stored, cfg.max, session.drawn).value - session.uptime.value);
    }
  }

  /** The backoff stored after a series of sessions of one persistent peer, oldest first. */
  function AfterSessions(backoff: int, sessions: seq<Session>, cfg: Config): Option<int> {
    if sessions == [] then Some(backoff)
    else
      var before := AfterSessions(backoff, sessions[..|sessions| - 1], cfg);
      if before.None? then None else NextPeerBackoff(before, sessions[|sessions| - 1], cfg)
  }

  function Pow2(k: nat): nat {
    if k == 0 then 1 else 2 * Pow2(k - 1)
  }

  /** After any series of sessions the backoff is within range. */
  lemma {:induction false} AfterSessionsInRange(backoff: int, sessions: seq<Session>, cfg: Config)
    requires SaneConfig(cfg) && InRange(backoff, cfg)
    ensures var r := AfterSessions(backoff, sessions, cfg); r.Some? && InRange(r.value, cfg)
  {
    if sessions != [] {
      var before := sessions[..|sessions| - 1];
      AfterSessionsInRange(backoff, before, cfg);
      NextPeerBackoffInRange(AfterSessions(backoff, before, cfg), sessions[|sessions| - 1], cfg);
    }
  }

  lemma {:induction false} AfterFirst(backoff: int, first: Session, rest: seq<Session>, cfg: Config)
    requires NextPeerBackoff(Some(backoff), first, cfg).Some?
    ensures AfterSessions(backoff, [first] + rest, cfg)
         == AfterSessions(NextPeerBackoff(Some(backoff), first, cfg).value, rest, cfg)
  {
    var all := [first] + rest;
    if rest == [] {
      assert all == [first] && all[..0] == [];
      assert AfterSessions(backoff, all[..0], cfg) == Some(backoff);
    } else {
      assert all[..|all| - 1] == [first] + rest[..|rest| - 1];
      AfterFirst(backoff, first, rest[..|rest| - 1], cfg);
    }
  }

  /** The backoff after a series of sessions exists and is in range. */
  ghost predicate StaysInRange(backoff: int, sessions: seq<Session>, cfg: Config) {
    var r := AfterSessions(backoff, sessions, cfg);
    r.Some? && InRange(r.value, cfg)
  }

  lemma OneSession(backoff: int, session: Session, cfg: Config)
    ensures AfterSessions(backoff, [session], cfg) == NextPeerBackoff(Some(backoff), session, cfg)
  {
    assert [session][..0] == [];
    assert AfterSessions(backoff, [session][..0], cfg) == Some(backoff);
  }

  /** When doubling the ceiling overflows, failing sessions climb to it and then leave the range. */
  lemma {:induction false} ClimbsOut(backoff: int, cfg: Config) returns (sessions: seq<Session>)
    requires 5 <= cfg.min <= cfg.max && 10 <= cfg.max && 10 * cfg.max <= 9 * INT64_HALF
    requires 2 * Ceiling(cfg) >= INT64_HALF && InRange(backoff, cfg)
    ensures !StaysInRange(backoff, sessions, cfg)
    decreases Ceiling(cfg) - backoff
  {
    var failed := Session(None, true);
    WiggledGrows(cfg.max, cfg.max);
    if 2 * backoff >= INT64_HALF {
      sessions := [failed];
      OneSession(backoff, failed, cfg);
      OverflowMisses(backoff, cfg.max, true);
    } else {
      ComputeNextBackoffBounds(backoff, cfg.max, true);
      var next := NextPeerBackoff(Some(backoff), failed, cfg).value;
      var rest := ClimbsOut(next, cfg);
      sessions := [failed] + rest;
      AfterFirst(backoff, failed, rest, cfg);
    }
  }

  /** For every configuration the check accepts: no series of sessions of a peer that starts at the minimum ever
      panics or leaves the range, if and only if the minimum is at least 5 ns, the maximum at least 10 ns, and
      doubling the largest backoff does not overflow. */
  lemma RunsInRangeExactlyWhen(cfg: Config)
    requires 0 <= cfg.min <= cfg.max && 10 * cfg.max <= 9 * INT64_HALF
    ensures (forall sessions :: StaysInRange(cfg.min, sessions, cfg))
            <==> 5 <= cfg.min && 10 <= cfg.max
                 && 2 * (cfg.max + (cfg.max / 10 - cfg.max / 10 / 2)) < INT64_HALF
  {
    WiggledGrows(cfg.max, cfg.max);
    if SaneConfig(cfg) {
      forall sessions ensures StaysInRange(cfg.min, sessions, cfg) {
        AfterSessionsInRange(cfg.min, sessions, cfg);
      }
    } else if 5 <= cfg.min && 10 <= cfg.max {
      var sessions := ClimbsOut(cfg.min, cfg);
    } else {
      var failed := Session(None, true);
      OneSession(cfg.min, failed, cfg);
      Wrap64Identity(2 * cfg.min);
      PanicsExactlyOnZeroMargin(cfg.min, cfg.max, true);
      assert !StaysInRange(cfg.min, [failed], cfg);
    }
  }

  lemma DoublePow2(k: nat, b: int)
    ensures Pow2(k + 1) * b == 2 * (Pow2(k) * b)
  {
  }

  /** One failed or short session takes a lower bound `low` on the backoff to `2 * low`, up to the maximum. */
  lemma FailureDoubles(low: int, backoff: int, session: Session, cfg: Config)
    requires SaneConfig(cfg) && InRange(backoff, cfg) && !IsStable(session)
    requires backoff >= Min(low, cfg.max)
    ensures var r := NextPeerBackoff(Some(backoff), session, cfg); r.Some? && r.value >= Min(2 * low, cfg.max)
  {
    ComputeNextBackoffBounds(backoff, cfg.max, session.drawn);
  }

  /** Escalation: k failed or short sessions in a row bring the backoff to at least min(2^k * b, MaxBackoff). */
  lemma {:induction false} FailuresEscalate(backoff: int, sessions: seq<Session>, cfg: Config)
    requires SaneConfig(cfg) && InRange(backoff, cfg)
    requires forall i :: 0 <= i < |sessions| ==> !IsStable(sessions[i])
    ensures var r := AfterSessions(backoff, sessions, cfg);
            r.Some? && r.value >= Min(Pow2(|sessions|) * backoff, cfg.max)
  {
    if sessions != [] {
      var k := |sessions| - 1;
      var before := sessions[..k];
      FailuresEscalate(backoff, before, cfg);
      AfterSessionsInRange(backoff, before, cfg);
      DoublePow2(k, backoff);
      FailureDoubles(Pow2(k) * backoff, AfterSessions(backoff, before, cfg).value, sessions[k], cfg);
    }
  }

  /** Once at the maximum, the backoff does not fall below it while sessions keep failing. */
  lemma {:induction false} StaysAtMaximum(backoff: int, sessions: seq<Session>, cfg: Config)
    requires SaneConfig(cfg) && InRange(backoff, cfg) && backoff >= cfg.max
    requires forall i :: 0 <= i < |sessions| ==> !IsStable(sessions[i])
    ensures var r := AfterSessions(backoff, sessions, cfg); r.Some? && r.value >= cfg.max
  {
    if sessions != [] {
      var before := sessions[..|sessions| - 1];
      StaysAtMaximum(backoff, before, cfg);
      AfterSessionsInRange(backoff, before, cfg);
      FailureDoubles(cfg.max, AfterSessions(backoff, before, cfg).value, sessions[|sessions| - 1], cfg);
    }
  }
}
