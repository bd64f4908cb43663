/** Hop walking along an HTLC routing packet (`experimental/admin/htlc_r.go`): the forward step that hands H to the
    next node with the amount it is owed, and the backward step that hands R to the previous one. */
module HtlcRoute {
  import opened Wrappers

  type Id = string

  /** The commitment transaction at the current node, its routing packet already split. */
  datatype CommitmentTx = CommitmentTx(channelId: Id, route: seq<Id>, amountToPayee: real, htlcR: Id)

  datatype Parties = Parties(peerIdA: Id, peerIdB: Id)

  /** Answers of the services a node asks: the latest commitment transaction of a channel, the stored transaction of
      a channel for the same H, and the tracker's node id of a user (empty when unknown). */
  datatype Services = Services(latest: map<Id, Parties>, stored: map<Id, Parties>, nodeIds: map<Id, Id>)

  datatype Message = Message(recipientUser: Id, recipientNode: Id)

  /** The channel to use next, the amount in units of 1e-8, and whom to write to. */
  datatype NextHop = NextHop(channelId: Id, amount: int, msg: Message)

  datatype PreviousHop = PreviousHop(r: Id, channelId: Id, msg: Message)

  // ---- amounts

  /** `Round(8)` of a decimal, half away from zero, in units of 1e-8. */
  function Round8(x: real): int {
    if x >= 0.0 then (x * 100000000.0 + 0.5).Floor else -((-x * 100000000.0 + 0.5).Floor)
  }

  /** The amount sent into hop `step` of a route of `total` hops. */
  function HopAmount(amount: real, rate: real, total: nat, step: nat): int {
    Round8(amount * (1.0 + rate * (total - step - 1) as real))
  }

  lemma Round8Monotone(x: real, y: real)
    requires 0.0 <= x <= y
    ensures Round8(x) <= Round8(y)
  {
  }

  /** Halves are rounded away from zero on both sides. */
  lemma Round8Odd(x: real)
    ensures Round8(-x) == -Round8(x)
  {
  }

  /** Rounding is off by at most half a unit. */
  lemma Round8Close(x: real)
    requires 0.0 <= x
    ensures x * 100000000.0 - 0.5 <= Round8(x) as real <= x * 100000000.0 + 0.5
  {
  }

  lemma HopExact(amount: real, rate: real, total: nat, step: nat)
    requires step + 1 < total
    ensures amount * (1.0 + rate * (total - step - 1) as real)
         == amount * (1.0 + rate * (total - step - 2) as real) + amount * rate
  {
    var k := (total - step - 2) as real;
    assert (total - step - 1) as real == k + 1.0;
    assert amount * (1.0 + rate * (k + 1.0)) == amount * (1.0 + rate * k) + amount * rate by {
      assert rate * (k + 1.0) == rate * k + rate;
    }
  }

  lemma HopPositive(amount: real, rate: real, k: real)
    requires amount >= 0.0 && rate >= 0.0 && k >= 0.0
    ensures amount * (1.0 + rate * k) >= 0.0 && amount * rate >= 0.0
  {
    assert rate * k >= 0.0;
  }

  lemma RoundedDrop(low: real, fee: real)
    requires low >= 0.0 && fee >= 0.0
    ensures var drop := Round8(low + fee) - Round8(low);
            drop >= 0 && fee * 100000000.0 - 1.0 <= drop as real <= fee * 100000000.0 + 1.0
  {
    Round8Monotone(low, low + fee);
    Round8Close(low);
    Round8Close(low + fee);
  }

  /** From hop to hop the forwarded amount never grows, and it drops by the fee of one hop up to one unit. */
  lemma AmountsDropByFee(amount: real, rate: real, total: nat, step: nat)
    requires amount >= 0.0 && rate >= 0.0 && step + 1 < total
    ensures var here := HopAmount(amount, rate, total, step);
            var there := HopAmount(amount, rate, total, step + 1);
            var fee := amount * rate * 100000000.0;
            there <= here && fee - 1.0 <= (here - there) as real <= fee + 1.0
  {
    var k := (total - step - 2) as real;
    var low := amount * (1.0 + rate * k);
    HopExact(amount, rate, total, step);
    HopPositive(amount, rate, k);
    RoundedDrop(low, amount * rate);
    assert HopAmount(amount, rate, total, step) == Round8(low + amount * rate);
    assert HopAmount(amount, rate, total, step + 1) == Round8(low) by {
      assert total - (step + 1) - 1 == total - step - 2;
    }
  }

  /** So amounts never grow along the route. */
  lemma {:induction false} AmountsNeverGrow(amount: real, rate: real, total: nat, step: nat, later: nat)
    requires amount >= 0.0 && rate >= 0.0 && step <= later < total
    ensures HopAmount(amount, rate, total, later) <= HopAmount(amount, rate, total, step)
    decreases later
  {
    if step < later {
      AmountsNeverGrow(amount, rate, total, step, later - 1);
      AmountsDropByFee(amount, rate, total, later - 1);
    }
  }

  /** The last hop pays the payee exactly the rounded amount. */
  lemma LastAmountIsPayees(amount: real, rate: real, total: nat)
    requires total > 0
    ensures HopAmount(amount, rate, total, total - 1) == Round8(amount)
  {
    assert rate * 0.0 == 0.0;
    assert amount * 1.0 == amount;
  }

  predicate Distinct(route: seq<Id>) {
    forall i, j :: 0 <= i < j < |route| ==> route[i] != route[j]
  }

  // ---- the forward step

  /** The position of the first occurrence, or the length. */
  function First(route: seq<Id>, c: Id): (i: nat)
    ensures i <= |route| && (i < |route| ==> route[i] == c)
    ensures forall k :: 0 <= k < i ==> route[k] != c
  {
    if route == [] then 0 else if route[0] == c then 0 else 1 + First(route[1..], c)
  }

  /** The channel the forward step moves to. */
  function Forward(route: seq<Id>, c: Id): Option<Id> {
    var step := First(route, c) + 1;
    if step < |route| then Some(route[step]) else None
  }

  /** The other party of a channel; a missing record reads as one with empty ids. */
  function Recipient(parties: map<Id, Parties>, channelId: Id, user: Id): Id {
    var p := if channelId in parties then parties[channelId] else Parties("", "");
    if user == p.peerIdA then p.peerIdB else p.peerIdA
  }

  /** When the channel is on record with two different parties and the user is one of them, `to` is the other one. */
  predicate ToOtherParty(parties: map<Id, Parties>, channelId: Id, user: Id, to: Id) {
    channelId in parties ==>
      var p := parties[channelId];
      p.peerIdA != p.peerIdB && (user == p.peerIdA || user == p.peerIdB) ==>
        to != user && {user, to} == {p.peerIdA, p.peerIdB}
  }

  lemma RecipientIsOther(parties: map<Id, Parties>, channelId: Id, user: Id)
    ensures ToOtherParty(parties, channelId, user, Recipient(parties, channelId, user))
  {
  }

  /** The message names the node on which the tracker knows its recipient. */
  predicate IsReachable(s: Services, msg: Message) {
    msg.recipientUser in s.nodeIds && s.nodeIds[msg.recipientUser] == msg.recipientNode && msg.recipientNode != ""
  }

  function NodeId(s: Services, user: Id): Id {
    if user in s.nodeIds then s.nodeIds[user] else ""
  }

  function NextNode(tx: CommitmentTx, user: Id, rate: real, s: Services): Option<NextHop> {
    match Forward(tx.route, tx.channelId)
    case None => None
    case Some(next) =>
      var to := Recipient(s.latest, next, user);
      var amount := HopAmount(tx.amountToPayee, rate, |tx.route|, First(tx.route, tx.channelId) + 1);
      if NodeId(s, to) == "" then None else Some(NextHop(next, amount, Message(to, NodeId(s, to))))
  }

  /** H goes to the other party of the next channel, on a node the tracker knows, with the amount of that channel's
      place in the route. */
  lemma NextNodeIsOtherParty(tx: CommitmentTx, user: Id, rate: real, s: Services)
    requires NextNode(tx, user, rate, s).Some?
    ensures var r := NextNode(tx, user, rate, s).value;
            && ToOtherParty(s.latest, r.channelId, user, r.msg.recipientUser)
            && IsReachable(s, r.msg)
            && exists i :: 0 < i < |tx.route| && tx.route[i - 1] == tx.channelId && tx.route[i] == r.channelId &&
                           r.amount == HopAmount(tx.amountToPayee, rate, |tx.route|, i)
  {
    var r := NextNode(tx, user, rate, s).value;
    RecipientIsOther(s.latest, r.channelId, user);
    var i := First(tx.route, tx.channelId) + 1;
    assert tx.route[i - 1] == tx.channelId && tx.route[i] == r.channelId;
  }

  /** It is found whenever there is a next channel and the tracker knows the other party's node. */
  lemma NextNodeFound(tx: CommitmentTx, user: Id, other: Id, rate: real, s: Services, i: nat)
    requires Distinct(tx.route) && i + 1 < |tx.route| && tx.route[i] == tx.channelId
    requires tx.route[i + 1] in s.latest && user != other
    requires s.latest[tx.route[i + 1]] == Parties(user, other) || s.latest[tx.route[i + 1]] == Parties(other, user)
    ensures NextNode(tx, user, rate, s)
         == if other in s.nodeIds && s.nodeIds[other] != ""
            then Some(NextHop(tx.route[i + 1], HopAmount(tx.amountToPayee, rate, |tx.route|, i + 1),
                              Message(other, s.nodeIds[other])))
            else None
  {
    StepsAtPosition(tx.route, i);
  }

  method InterUserGetNextNode(tx: CommitmentTx, user: Id, rate: real, s: Services) returns (r: Option<NextHop>)
    ensures r == NextNode(tx, user, rate, s)
  {
    var totalStep := |tx.route|;
    var currStep := 0;
    while currStep < |tx.route|
      invariant 0 <= currStep <= |tx.route|
      invariant First(tx.route, tx.channelId) == currStep + First(tx.route[currStep..], tx.channelId)
    {
      if tx.route[currStep] == tx.channelId {
        break;
      }
      assert tx.route[currStep..][1..] == tx.route[currStep + 1..];
      currStep := currStep + 1;
    }
    assert First(tx.route, tx.channelId) == currStep;
    currStep := currStep + 1;
    if currStep < totalStep {
      var channelId := tx.route[currStep];
      var latest := if channelId in s.latest then s.latest[channelId] else Parties("", "");
      var recipient := latest.peerIdA;
      if user == latest.peerIdA {
        recipient := latest.peerIdB;
      }
      var node := if recipient in s.nodeIds then s.nodeIds[recipient] else "";
      var amount := HopAmount(tx.amountToPayee, rate, totalStep, currStep);
      if |node| == 0 {
        return None;
      }
      return Some(NextHop(channelId, amount, Message(recipient, node)));
    }
    return None;
  }

  // ---- the backward step

  /** One past the position of the last occurrence, or zero. */
  function Last(route: seq<Id>, c: Id): (i: nat)
    ensures i <= |route| && (i > 0 ==> route[i - 1] == c)
    ensures forall k :: i <= k < |route| ==> route[k] != c
  {
    if route == [] then 0
    else if route[|route| - 1] == c then |route| else Last(route[..|route| - 1], c)
  }

  /** The channel the backward step moves to. */
  function Backward(route: seq<Id>, c: Id): Option<Id> {
    var index := Last(route, c);
    if index > 1 then Some(route[index - 2]) else None
  }

  function PreviousNode(tx: CommitmentTx, user: Id, s: Services): Option<PreviousHop> {
    match Backward(tx.route, tx.channelId)
    case None => None
    case Some(previous) =>
      var to := Recipient(s.stored, previous, user);
      if previous !in s.stored || NodeId(s, to) == "" then None
      else Some(PreviousHop(tx.htlcR, previous, Message(to, NodeId(s, to))))
  }

  /** R itself goes to the other party of the previous channel, on a node the tracker knows. */
  lemma PreviousNodeIsOtherParty(tx: CommitmentTx, user: Id, s: Services)
    requires PreviousNode(tx, user, s).Some?
    ensures var r := PreviousNode(tx, user, s).value;
            && r.r == tx.htlcR && r.channelId in s.stored
            && ToOtherParty(s.stored, r.channelId, user, r.msg.recipientUser)
            && IsReachable(s, r.msg)
            && exists i :: 0 <= i < |tx.route| - 1 && tx.route[i + 1] == tx.channelId && tx.route[i] == r.channelId
  {
    var r := PreviousNode(tx, user, s).value;
    RecipientIsOther(s.stored, r.channelId, user);
    var i := Last(tx.route, tx.channelId) - 2;
    assert tx.route[i + 1] == tx.channelId && tx.route[i] == r.channelId;
  }

  lemma PreviousNodeFound(tx: CommitmentTx, user: Id, other: Id, s: Services, i: nat)
    requires Distinct(tx.route) && i + 1 < |tx.route| && tx.route[i + 1] == tx.channelId
    requires tx.route[i] in s.stored && user != other
    requires s.stored[tx.route[i]] == Parties(user, other) || s.stored[tx.route[i]] == Parties(other, user)
    ensures PreviousNode(tx, user, s)
         == if other in s.nodeIds && s.nodeIds[other] != ""
            then Some(PreviousHop(tx.htlcR, tx.route[i], Message(other, s.nodeIds[other])))
            else None
  {
    StepsAtPosition(tx.route, i + 1);
  }

  method InterUserGetHtlcRFromLocalForPreNode(tx: CommitmentTx, user: Id, s: Services) returns (r: Option<PreviousHop>)
    ensures r == PreviousNode(tx, user, s)
  {
    var index := |tx.route| - 1;
    assert tx.route[..index + 1] == tx.route;
    while index >= 0
      invariant -1 <= index < |tx.route|
      invariant Last(tx.route, tx.channelId) == Last(tx.route[..index + 1], tx.channelId)
    {
      if tx.route[index] == tx.channelId {
        break;
      }
      assert tx.route[..index + 1][..index] == tx.route[..index];
      index := index - 1;
    }
    if index > 0 && tx.route[index - 1] in s.stored {
      var parties := s.stored[tx.route[index - 1]];
      var recipient := parties.peerIdA;
      if user == parties.peerIdA {
        recipient := parties.peerIdB;
      }
      var node := if recipient in s.nodeIds then s.nodeIds[recipient] else "";
      if |node| == 0 {
        return None;
      }
      return Some(PreviousHop(tx.htlcR, tx.route[index - 1], Message(recipient, node)));
    }
    return None;
  }

  // ---- the two walks

  /** On a route of distinct channels both steps stand where the channel stands. */
  lemma StepsAtPosition(route: seq<Id>, i: nat)
    requires Distinct(route) && i < |route|
    ensures First(route, route[i]) == i && Last(route, route[i]) == i + 1
  {
    var f := First(route, route[i]);
    assert f <= i;
    var l := Last(route, route[i]);
    assert l > i;
  }

  /** R travels back exactly the way H came: the backward step undoes the forward step and the other way round. */
  lemma BackwardInvertsForward(route: seq<Id>, c: Id, d: Id)
    requires Distinct(route) && c in route && d in route
    ensures Forward(route, c) == Some(d) <==> Backward(route, d) == Some(c)
  {
    var i :| 0 <= i < |route| && route[i] == c;
    var j :| 0 <= j < |route| && route[j] == d;
    StepsAtPosition(route, i);
    StepsAtPosition(route, j);
  }

  /** `n` forward steps. */
  function Walk(route: seq<Id>, c: Id, n: nat): Option<Id> {
    if n == 0 then Some(c)
    else
      var before := Walk(route, c, n - 1);
      if before.None? then None else Forward(route, before.value)
  }

  /** From the first channel, n forward steps lead to the n-th, up to the last one, and no further. */
  lemma {:induction false} WalkReachesEveryHop(route: seq<Id>, n: nat)
    requires Distinct(route) && 0 < |route| && n <= |route|
    ensures Walk(route, route[0], n) == if n < |route| then Some(route[n]) else None
  {
    if n > 0 {
      WalkReachesEveryHop(route, n - 1);
      StepsAtPosition(route, n - 1);
    }
  }
}
