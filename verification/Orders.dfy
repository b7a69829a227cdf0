/** The order lifecycle: the transition table, one order row with its milestones, and the price breakdown. */
module Orders {
  import opened Results
  import opened Int64
  import opened Ledger

  datatype Status =
    | PendingPayment | PaymentFailed | Paid | InProgress | Delivered | RevisionRequested | Accepted
    | Disputed | CancelRequested | Cancelled | PayoutPending | PaidOut | Closed

  function Transitions(from: Status): seq<Status>
  {
    match from
    case PendingPayment => [Paid, PaymentFailed]
    case PaymentFailed => [PendingPayment]
    case Paid => [InProgress]
    case InProgress => [Delivered, CancelRequested, Disputed]
    case Delivered => [RevisionRequested, Accepted, Disputed]
    case RevisionRequested => [Delivered, Disputed]
    case Accepted => [Closed, Disputed]
    case CancelRequested => [Cancelled, InProgress]
    case Disputed => [InProgress, Closed, Cancelled]
    case Cancelled => []
    case Closed => []
    case PayoutPending => [PaidOut]
    case PaidOut => []
  }

  predicate CanTransition(from: Status, to: Status)
  {
    to in Transitions(from)
  }

  /** From which statuses each status can be entered. */
  lemma EnteredFrom(from: Status, to: Status)
    ensures to == PendingPayment ==> (CanTransition(from, to) <==> from == PaymentFailed)
    ensures to == PaymentFailed ==> (CanTransition(from, to) <==> from == PendingPayment)
    ensures to == Paid ==> (CanTransition(from, to) <==> from == PendingPayment)
    ensures to == InProgress ==> (CanTransition(from, to) <==> from in {Paid, CancelRequested, Disputed})
    ensures to == Delivered ==> (CanTransition(from, to) <==> from in {InProgress, RevisionRequested})
    ensures to == RevisionRequested ==> (CanTransition(from, to) <==> from == Delivered)
    ensures to == Accepted ==> (CanTransition(from, to) <==> from == Delivered)
    ensures to == CancelRequested ==> (CanTransition(from, to) <==> from == InProgress)
    ensures to == Disputed ==>
      (CanTransition(from, to) <==> from in {InProgress, Delivered, RevisionRequested, Accepted})
    ensures to == Cancelled ==> (CanTransition(from, to) <==> from in {CancelRequested, Disputed})
    ensures to == Closed ==> (CanTransition(from, to) <==> from in {Accepted, Disputed})
    ensures to == PayoutPending ==> !CanTransition(from, to)
    ensures to == PaidOut ==> (CanTransition(from, to) <==> from == PayoutPending)
  {
  }

  /** The money is in and work has begun: the order has left its payment states for good. */
  predicate Started(s: Status)
  {
    !s.PendingPayment? && !s.PaymentFailed? && !s.Paid?
  }

  // ----- one order row -----

  datatype Visit = Visit(status: Status, at: int)

  /** The columns of an order that change or carry money, and (for reasoning) every status it has been in. */
  datatype Order = Order(
    status: Status, bill: Bill, revisionsUsed: nat, revisionsAllowed: nat,
    paidAt: Option<int>, deliveredAt: Option<int>, acceptedAt: Option<int>, cancelledAt: Option<int>,
      closedAt: Option<int>,
    visits: seq<Visit>)

  function Placed(bill: Bill, revisionsAllowed: nat, now: int): Order
  {
    Order(PendingPayment, bill, 0, revisionsAllowed, None, None, None, None, None, [Visit(PendingPayment, now)])
  }

  /** The status update with its milestone columns. */
  function Moved(o: Order, to: Status, now: int): Order
  {
    o.(status := to,
       paidAt := if to.Paid? then Some(now) else o.paidAt,
       deliveredAt := if to.Delivered? then Some(now) else o.deliveredAt,
       acceptedAt := if to.Accepted? then Some(now) else o.acceptedAt,
       cancelledAt := if to.Cancelled? then Some(now) else o.cancelledAt,
       closedAt := if to.Closed? then Some(now) else o.closedAt,
       visits := o.visits + [Visit(to, now)])
  }

  /** When the order last entered a status, if ever. */
  function LastEntry(visits: seq<Visit>, s: Status): Option<int>
  {
    if visits == [] then None
    else if visits[|visits| - 1].status == s then Some(visits[|visits| - 1].at)
    else LastEntry(visits[..|visits| - 1], s)
  }

  function TimesEntered(visits: seq<Visit>, s: Status): nat
  {
    if visits == [] then 0
    else TimesEntered(visits[..|visits| - 1], s) + if visits[|visits| - 1].status == s then 1 else 0
  }

  lemma VisitStep(visits: seq<Visit>, v: Visit, s: Status)
    ensures LastEntry(visits + [v], s) == if v.status == s then Some(v.at) else LastEntry(visits, s)
    ensures TimesEntered(visits + [v], s) == TimesEntered(visits, s) + if v.status == s then 1 else 0
  {
    assert (visits + [v])[..|visits|] == visits;
  }

  predicate Chained(visits: seq<Visit>)
  {
    forall i :: 0 < i < |visits| ==>
      CanTransition(visits[i - 1].status, visits[i].status) && visits[i - 1].at <= visits[i].at
  }

  /** The row and its past agree: table-legal moves from pending payment, never back to it, and milestones that say
      when. */
  predicate Consistent(o: Order, now: int)
  {
    && o.visits != [] && o.visits[0].status == PendingPayment
    && Chained(o.visits)
    && (forall i :: 0 < i < |o.visits| ==> o.visits[i].status != PendingPayment)
    && o.visits[|o.visits| - 1].status == o.status && o.visits[|o.visits| - 1].at <= now
    && o.paidAt == LastEntry(o.visits, Paid)
    && o.deliveredAt == LastEntry(o.visits, Delivered)
    && o.acceptedAt == LastEntry(o.visits, Accepted)
    && o.cancelledAt == LastEntry(o.visits, Cancelled)
    && o.closedAt == LastEntry(o.visits, Closed)
  }

  lemma MovedConsistent(o: Order, to: Status, now: int)
    requires Consistent(o, now) && CanTransition(o.status, to) && to != PendingPayment
    ensures Consistent(Moved(o, to, now), now)
  {
    var v := Visit(to, now);
    VisitStep(o.visits, v, Paid);
    VisitStep(o.visits, v, Delivered);
    VisitStep(o.visits, v, Accepted);
    VisitStep(o.visits, v, Cancelled);
    VisitStep(o.visits, v, Closed);
    hide LastEntry, Transitions;
  }

  lemma {:induction false} EntryExists(visits: seq<Visit>, s: Status)
    ensures LastEntry(visits, s).Some? <==> exists i :: 0 <= i < |visits| && visits[i].status == s
    ensures LastEntry(visits, s).Some? ==>
      exists i :: 0 <= i < |visits| && visits[i].status == s && Some(visits[i].at) == LastEntry(visits,
        s) && forall j :: i < j < |visits| ==> visits[j].status != s
  {
    if visits != [] {
      var n := |visits| - 1;
      if visits[n].status != s {
        EntryExists(visits[..n], s);
        if LastEntry(visits, s).Some? {
          var i :| 0 <= i < n && visits[i].status == s && Some(visits[i].at) == LastEntry(visits[..n],
            s) && forall j :: i < j < n ==> visits[j].status != s;
          assert visits[i].status == s;
        }
      }
    }
  }

  /** A milestone is set exactly when its status has been visited, and then to the time of the latest visit. */
  lemma MilestonesSayWhen(o: Order, now: int)
    requires Consistent(o, now)
    ensures o.paidAt.Some? <==> exists i :: 0 <= i < |o.visits| && o.visits[i].status == Paid
    ensures o.deliveredAt.Some? <==> exists i :: 0 <= i < |o.visits| && o.visits[i].status == Delivered
    ensures o.acceptedAt.Some? <==> exists i :: 0 <= i < |o.visits| && o.visits[i].status == Accepted
    ensures o.cancelledAt.Some? <==> exists i :: 0 <= i < |o.visits| && o.visits[i].status == Cancelled
    ensures o.closedAt.Some? <==> exists i :: 0 <= i < |o.visits| && o.visits[i].status == Closed
  {
    EntryExists(o.visits, Paid);
    EntryExists(o.visits, Delivered);
    EntryExists(o.visits, Accepted);
    EntryExists(o.visits, Cancelled);
    EntryExists(o.visits, Closed);
    hide Chained, LastEntry;
  }

  /** Cancelled and closed absorb, a failed payment is never revived, and once paid an order never returns to its
      payment states. */
  lemma {:induction false} HistoryIsOneWay(o: Order, now: int, i: nat, j: nat)
    requires Consistent(o, now) && i < j < |o.visits|
    ensures o.visits[i].status !in {Cancelled, Closed, PaymentFailed}
    ensures o.visits[j].status != PendingPayment
    ensures o.visits[i].status == Paid || Started(o.visits[i].status) ==> Started(o.visits[j].status)
    ensures o.visits[i].at <= o.visits[j].at
    decreases j - i
  {
    var next := o.visits[i + 1].status;
    assert CanTransition(o.visits[i].status, next) && next != PendingPayment;
    hide LastEntry;
    if i + 1 < j { HistoryIsOneWay(o, now, i + 1, j); }
  }

  /** What an order was directly before it became what it is: accepted or sent back only when delivered, delivered only
      out of work or revision, in dispute only from work, delivery, revision or acceptance; and no order is ever paid
      out. */
  lemma {:induction false} DirectlyBefore(o: Order, now: int, i: nat)
    requires Consistent(o, now) && 0 < i < |o.visits|
    ensures var before, after := o.visits[i - 1].status, o.visits[i].status;
      && (after == Paid || after == PaymentFailed ==> before == PendingPayment)
      && (after == InProgress ==> before in {Paid, CancelRequested, Disputed})
      && (after == Delivered ==> before in {InProgress, RevisionRequested})
      && (after == RevisionRequested || after == Accepted ==> before == Delivered)
      && (after == CancelRequested ==> before == InProgress)
      && (after == Disputed ==> before in {InProgress, Delivered, RevisionRequested, Accepted})
      && (after == Cancelled ==> before in {CancelRequested, Disputed})
      && (after == Closed ==> before in {Accepted, Disputed})
      && after !in {PendingPayment, PayoutPending, PaidOut}
  {
    EnteredFrom(o.visits[i - 1].status, o.visits[i].status);
    hide Transitions, LastEntry;
    if o.visits[i].status == PaidOut { NeverPayingOut(o, now, i - 1); }
  }

  lemma NeverPayingOut(o: Order, now: int, i: nat)
    requires Consistent(o, now) && i < |o.visits|
    ensures o.visits[i].status != PayoutPending
  {
    if i > 0 { EnteredFrom(o.visits[i - 1].status, o.visits[i].status); }
    hide Transitions, LastEntry;
  }

  /** An order is accepted and sent back, taken together, at most as often as it is delivered. */
  lemma {:induction false} AcceptedAfterDelivery(visits: seq<Visit>)
    requires visits != [] ==> visits[0].status == PendingPayment
    requires Chained(visits)
    ensures TimesEntered(visits, Accepted) + TimesEntered(visits, RevisionRequested) <= TimesEntered(visits, Delivered)
    ensures visits != [] && visits[|visits| - 1].status == Delivered ==>
      TimesEntered(visits, Accepted) + TimesEntered(visits, RevisionRequested) < TimesEntered(visits, Delivered)
    decreases |visits|
  {
    if visits != [] {
      var n := |visits| - 1;
      AcceptedAfterDelivery(visits[..n]);
      if n > 0 { EnteredFrom(visits[n - 1].status, visits[n].status); }
      hide Transitions;
    }
  }

  /** An order now delivered was last delivered at its delivery stamp. */
  lemma LatestDelivery(o: Order, now: int)
    requires Consistent(o, now) && o.status == Delivered
    ensures o.deliveredAt == Some(o.visits[|o.visits| - 1].at)
    ensures forall i :: 0 <= i < |o.visits| ==> o.visits[i].at <= o.deliveredAt.value
  {
    forall i | 0 <= i < |o.visits| ensures o.visits[i].at <= o.visits[|o.visits| - 1].at {
      if i < |o.visits| - 1 { HistoryIsOneWay(o, now, i, |o.visits| - 1); }
    }
  }

  // ----- the price breakdown -----

  datatype Totals = Totals(subtotal: int64, fee: int64, total: int64)

  function SumOf(prices: seq<int64>): int
  {
    if prices == [] then 0 else SumOf(prices[..|prices| - 1]) + prices[|prices| - 1]
  }

  lemma {:induction false} SumOfConcat(a: seq<int64>, b: seq<int64>)
    ensures SumOf(a + b) == SumOf(a) + SumOf(b)
    ensures forall price :: SumOf([price]) == price
    decreases |b|
  {
    forall price: int64 ensures SumOf([price]) == price { assert [price][..0] == []; }
    if b == [] {
      assert a + b == a;
    } else {
      var n := |b| - 1;
      SumOfConcat(a, b[..n]);
      assert (a + b)[..|a| + n] == a + b[..n];
    }
  }

  /** The platform's share in basis points, in 64-bit arithmetic with the fraction dropped. */
  function FeeOf(subtotal: int64, bps: int64): (fee: int64)
  {
    var product := Wrap(subtotal * bps);
    Truncate(product, 10000)
  }

  method CalculateOrderTotals(packagePrice: int64, addonPrices: seq<int64>, bps: int64) returns (r: Totals)
    ensures r.subtotal == Wrap(packagePrice + SumOf(addonPrices))
    ensures r.fee == FeeOf(r.subtotal, bps) && r.total == Wrap(r.subtotal + r.fee)
  {
    hide Wrap;
    var subtotal := packagePrice;
    assert Wrap(packagePrice + 0) == packagePrice by { WrapInRange(packagePrice); }
    for i := 0 to |addonPrices|
      invariant subtotal == Wrap(packagePrice + SumOf(addonPrices[..i]))
    {
      assert addonPrices[..i + 1][..i] == addonPrices[..i];
      WrapTwice(packagePrice + SumOf(addonPrices[..i]), addonPrices[i]);
      subtotal := Wrap(subtotal + addonPrices[i]);
    }
    assert addonPrices[..|addonPrices|] == addonPrices;
    var product: int64 := Wrap(subtotal * bps);
    var fee: int64 := Truncate(product, 10000);
    r := Totals(subtotal, fee, Wrap(subtotal + fee));
  }

  /** The capture posting accepts the breakdown of a positive subtotal exactly when the fee did not wrap below zero
      and the sum fits. */
  lemma CaptureAccepts(subtotal: int64, bps: int64)
    requires subtotal > 0
    ensures var fee := FeeOf(subtotal, bps); var total := Wrap(subtotal + fee);
      && (total > 0 && 0 <= fee <= total <==> Wrap(subtotal * bps) > -10000 && subtotal + fee <= MAX)
      && (total > 0 && 0 <= fee <= total ==> total - fee == subtotal)
  {
    var product, fee := Wrap(subtotal * bps), FeeOf(subtotal, bps);
    var turns := WrapExplicit(subtotal + fee);
    assert fee >= 0 <==> product > -10000 by { TruncateSign(product); }
    hide Wrap;
  }

  lemma TruncateSign(x: int)
    ensures Truncate(x, 10000) >= 0 <==> x > -10000
  {
  }

  /** For a positive subtotal and a share that is not negative: the fee is the exact share with its fraction dropped
      if and only if the product fits in 64 bits. Then the capture posting accepts the breakdown if and only if the
      sum fits too, and the seller is owed the subtotal. */
  lemma CheckoutIsCapturable(subtotal: int64, bps: int64)
    requires subtotal > 0 && bps >= 0
    ensures var fee := FeeOf(subtotal, bps); var total := Wrap(subtotal + fee);
      && (10000 * fee <= subtotal * bps < 10000 * (fee + 1) <==> subtotal * bps <= MAX)
      && (subtotal * bps <= MAX ==> (total > 0 && 0 <= fee <= total <==> subtotal + fee <= MAX))
      && (total > 0 && 0 <= fee <= total ==> total - fee == subtotal)
      && (subtotal * bps <= MAX && bps <= 10000 ==> fee <= subtotal)
  {
    var product: int := subtotal * bps;
    Scaled(subtotal, 0, bps);
    if bps <= 10000 { Scaled(subtotal, bps, 10000); }
    CaptureAccepts(subtotal, bps);
    assert FeeOf(subtotal, bps) == Truncate(Wrap(product), 10000);
    hide FeeOf;
    if product <= MAX {
      WrapInRange(product);
    } else {
      var turns := WrapExplicit(product);
      hide Wrap;
      Wrapped(product, Wrap(product), turns);
    }
    hide Wrap;
  }

  /** Once folded, a product is too far down for its share to be the exact one. */
  lemma Wrapped(product: int, folded: int64, turns: int)
    requires product > MAX && folded == product - SPAN * turns
    ensures 10000 * (Truncate(folded, 10000) + 1) <= product
  {
    assert turns >= 1;
  }

  lemma Scaled(x: int, y: int, z: int)
    requires x >= 0 && 0 <= y <= z
    ensures 0 <= x * y <= x * z
  {
  }

  /** Past that bound a full share of the smallest such subtotal wraps below zero, and the capture is refused. */
  lemma FeeCanWrap()
    ensures var subtotal := MAX / 10000 + 1;
      subtotal > 0 && FeeOf(subtotal, 10000) < 0
  {
  }
}
