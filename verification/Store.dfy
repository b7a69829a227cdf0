/** The tables in memory, and the store's methods on them. */
module Store {
  import opened Results
  import opened Int64
  import opened Ledger
  import opened Bookkeeping
  import opened Orders
  import opened Payments
  import R = StoreRows
  import A = Actors

  /** The columns a status update writes: the status and the milestone that goes with it. */
  method Stamped(row: Order, to: Status, now: int) returns (r: Order)
    ensures r == Moved(row, to, now)
  {
    r := row.(status := to, visits := row.visits + [Visit(to, now)]);
    match to
    case Paid => r := r.(paidAt := Some(now));
    case Delivered => r := r.(deliveredAt := Some(now));
    case Accepted => r := r.(acceptedAt := Some(now));
    case Cancelled => r := r.(cancelledAt := Some(now));
    case Closed => r := r.(closedAt := Some(now));
    case _ =>
  }

  class Tables {
    /** The provider names that the payments table's check admits. */
    const admits: set<string>
    var now: int
    var orders: map<int64, Order>
    var intents: seq<R.Intent>
    var hooks: map<string, R.Hook>
    var revisions: seq<int64>
    var cancellations: seq<R.Request>
    var disputes: seq<R.Request>
    var refunds: seq<R.RefundRow>
    var entries: seq<Entry>
    /** The business events behind the posted entries. */
    ghost var events: seq<Event>

    ghost predicate Valid()
      reads this
    {
      AllPostable(events) && entries == Journal(events)
    }

    ghost function Rows(): R.Db
      reads this
    {
      R.Db(now, admits, orders, intents, hooks, revisions, cancellations, disputes, refunds, events)
    }

    /** The guarded update: the milestone column of the target status is stamped, all others stay. */
    method TransitionOrder(o: int64, from: Status, to: Status) returns (ok: bool)
      modifies this`orders
      ensures (Rows(), ok) == R.TransitionOrder(old(Rows()), o, from, to)
    {
      TransitionIs(Rows(), o, from, to);
      hide Moved, R.TransitionOrder;
      if o !in orders || orders[o].status != from {
        return false;
      }
      var row := Stamped(orders[o], to, now);
      orders := orders[o := row];
      ok := true;
    }

    /** Accepts every delivered order whose delivery is older than the cutoff, and returns their ids. */
    method AutoAcceptOrders(cutoff: int) returns (moved: seq<int64>)
      modifies this`orders
      ensures Rows() == R.AutoAcceptOrders(old(Rows()), cutoff)
      ensures A.Lists(old(Rows()), cutoff, moved)
    {
      hide Moved, R.Overdue, AcceptedBut, A.Lists, R.AutoAcceptOrders;
      ghost var before := Rows();
      moved := [];
      var left := orders.Keys;
      assert AcceptedBut(before, orders, left, moved, cutoff) by { NoneAccepted(before, cutoff); }
      while left != {}
        invariant left <= orders.Keys && AcceptedBut(before, orders, left, moved, cutoff)
        decreases |left|
      {
        var o :| o in left;
        AcceptStep(before, orders, left, moved, cutoff, o);
        left := left - {o};
        if R.Overdue(orders[o], cutoff) {
          orders := orders[o := Moved(orders[o], Accepted, now)];
          moved := moved + [o];
        }
      }
      AllAccepted(before, orders, moved, cutoff);
    }

    /** Under the row lock: refuse when the allowance is used up, otherwise use one revision. */
    method CreateRevisionRequest(o: int64) returns (ok: bool)
      modifies this`orders, this`revisions
      ensures (Rows(), ok) == R.ConsumeRevision(old(Rows()), o)
    {
      if o !in orders {
        return false;
      }
      var used, allowed := orders[o].revisionsUsed, orders[o].revisionsAllowed;
      if used >= allowed {
        return false;
      }
      orders := orders[o := orders[o].(revisionsUsed := used + 1)];
      revisions := revisions + [o];
      ok := true;
    }

    method CreatePaymentIntent(o: int64, provider: string, key: string) returns (ok: bool)
      modifies this`intents
      ensures (Rows(), ok) == R.CreateIntent(old(Rows()), o, provider, key)
    {
      if provider !in admits {
        return false;
      }
      for i := 0 to |intents|
        invariant forall j :: 0 <= j < i ==> intents[j].key != key
      {
        if intents[i].key == key {
          return false;
        }
      }
      intents := intents + [R.Intent(o, provider, key, "", Pending, "", None, None, None)];
      ok := true;
    }

    method TransitionPaymentIntent(i: nat, from: PaymentStatus, to: PaymentStatus) returns (ok: bool)
      modifies this`intents
      ensures (Rows(), ok) == R.TransitionIntent(old(Rows()), i, from, to)
    {
      if i >= |intents| || intents[i].status != from {
        return false;
      }
      var row := intents[i].(status := to);
      match to {
        case Succeeded => row := row.(succeededAt := Some(now));
        case Failed => row := row.(failedAt := Some(now));
        case Canceled => row := row.(canceledAt := Some(now));
        case _ =>
      }
      intents := intents[i := row];
      ok := true;
    }

    method GetPaymentIntentByIdempotencyKey(key: string) returns (r: Option<nat>)
      ensures r == R.FindByKey(intents, key)
    {
      for i := 0 to |intents|
        invariant forall j :: 0 <= j < i ==> intents[j].key != key
      {
        if intents[i].key == key {
          return Some(i);
        }
      }
      r := None;
    }

    method SetPaymentIntentSession(i: nat, ref: string)
      modifies this`intents
      ensures Rows() == R.SetSession(old(Rows()), i, ref)
    {
      if i < |intents| {
        intents := intents[i := intents[i].(providerRef := ref)];
      }
    }

    method SetPaymentIntentChargeRef(i: nat, ref: string)
      modifies this`intents
      ensures Rows() == R.SetChargeRef(old(Rows()), i, ref)
    {
      if i < |intents| {
        intents := intents[i := intents[i].(chargeRef := ref)];
      }
    }

    method GetPaymentIntentByProviderRef(provider: string, ref: string) returns (r: Option<nat>)
      ensures r == R.FindByRef(intents, provider, ref)
    {
      for i := 0 to |intents|
        invariant forall j :: 0 <= j < i ==> !R.Bears(intents[j], provider, ref)
      {
        if R.Bears(intents[i], provider, ref) {
          return Some(i);
        }
      }
      r := None;
    }

    method LatestPaymentIntentForOrder(o: int64) returns (r: Option<nat>)
      ensures r == R.LatestIntent(intents, o)
    {
      var i := |intents|;
      while i > 0
        invariant 0 <= i <= |intents|
        invariant forall j :: i <= j < |intents| ==> intents[j].order != o
      {
        i := i - 1;
        if intents[i].order == o {
          return Some(i);
        }
      }
      r := None;
    }

    method MarkWebhookProcessed(key: string)
      modifies this`hooks
      ensures Rows() == R.MarkHook(old(Rows()), key)
      ensures hooks == if key in old(hooks) then old(hooks)[key := R.Hook(old(hooks)[key].payment, true)]
        else old(hooks)
    {
      if key in hooks {
        hooks := hooks[key := hooks[key].(processed := true)];
      }
    }

    /** A new row unless the event key is already there. */
    method InsertWebhookEvent(key: string, payment: Option<R.Payment>) returns (inserted: bool)
      modifies this`hooks
      ensures (Rows(), inserted) == R.InsertHook(old(Rows()), key, payment)
      ensures inserted <==> key !in old(hooks)
      ensures hooks == if inserted then old(hooks)[key := R.Hook(payment, false)] else old(hooks)
    {
      inserted := key !in hooks;
      if inserted {
        hooks := hooks[key := R.Hook(payment, false)];
      }
    }

    method CreateRequest(matter: R.Matter, o: int64)
      modifies this`cancellations, this`disputes
      ensures Rows() == R.OpenRequest(old(Rows()), matter, o)
    {
      match matter
      case Cancellation => cancellations := cancellations + [R.Request(o, true)];
      case Dispute => disputes := disputes + [R.Request(o, true)];
    }

    method GetOpenRequest(matter: R.Matter, o: int64) returns (r: Option<nat>)
      ensures r == R.FindOpen(R.Requests(Rows(), matter), o)
    {
      var rows := if matter.Cancellation? then cancellations else disputes;
      var i := |rows|;
      while i > 0
        invariant 0 <= i <= |rows|
        invariant forall j :: i <= j < |rows| ==> rows[j] != R.Request(o, true)
      {
        i := i - 1;
        if rows[i] == R.Request(o, true) {
          return Some(i);
        }
      }
      r := None;
    }

    method ResolveRequest(matter: R.Matter, i: nat) returns (ok: bool)
      modifies this`cancellations, this`disputes
      ensures (Rows(), ok) == R.CloseRequest(old(Rows()), matter, i)
    {
      var rows := if matter.Cancellation? then cancellations else disputes;
      if i >= |rows| || !rows[i].open {
        return false;
      }
      rows := rows[i := rows[i].(open := false)];
      match matter {
        case Cancellation => cancellations := rows;
        case Dispute => disputes := rows;
      }
      ok := true;
    }

    /** Whether the order has a refund that has not failed. */
    method HasRefund(o: int64) returns (found: bool)
      ensures found <==> R.Live(refunds, o) > 0
    {
      for i := 0 to |refunds|
        invariant R.Live(refunds[..i], o) == 0
      {
        assert refunds[..i + 1] == refunds[..i] + [refunds[i]];
        R.LiveStep(refunds[..i], refunds[i], o);
        if R.IsLive(refunds[i], o) {
          R.LiveIsPositive(refunds, i, o);
          return true;
        }
      }
      assert refunds[..|refunds|] == refunds;
      found := false;
    }

    /** Inserts a pending refund, subject to the unique index on refunds that have not failed. */
    method CreateRefund(o: int64) returns (ok: bool)
      modifies this`refunds
      ensures (Rows(), ok) == R.CreateRefund(old(Rows()), o)
    {
      var taken := HasRefund(o);
      ok := !taken;
      if ok {
        refunds := refunds + [R.RefundRow(o, R.RefundPending)];
      }
    }

    method SetRefundStatus(i: nat, answer: PaymentStatus) returns (ok: bool)
      modifies this`refunds
      ensures (Rows(), ok) == R.SetRefundStatus(old(Rows()), i, answer)
    {
      var status := R.StoredStatus(answer);
      ok := i < |refunds| && status.Some?;
      if ok {
        refunds := refunds[i := refunds[i].(status := status.value)];
      }
    }

    /** Validates the group again; then the whole group goes in, or nothing does. */
    method PostLedgerEntries(group: seq<Entry>, ghost e: Event) returns (ok: bool)
      requires Valid() && (Acceptable(group) ==> Postable(e) && group == Bookkeeping.Entries(e))
      modifies this`entries, this`events
      ensures Valid() && (ok <==> Acceptable(group))
      ensures ok ==> entries == old(entries) + group && Rows() == R.Post(old(Rows()), e).0
      ensures !ok ==> entries == old(entries) && Rows() == old(Rows())
    {
      hide Bookkeeping.Entries, Journal, Acceptable, Postable;
      var problem := Validate(group);
      ok := problem.None?;
      if ok {
        JournalStep(events, e);
        PostIs(Rows(), e);
        entries := entries + group;
        events := events + [e];
      }
    }
  }

  /** The orders outside `left` have been looked at: the overdue ones among them are accepted and listed. */
  ghost predicate AcceptedBut(before: R.Db, after: map<int64, Order>, left: set<int64>, moved: seq<int64>, cutoff: int)
  {
    && after.Keys == before.orders.Keys
    && (forall o :: o in after ==>
        after[o] == (if o !in left && R.Overdue(before.orders[o], cutoff)
          then Moved(before.orders[o], Accepted, before.now) else before.orders[o]))
    && (forall o :: o in moved <==> o in before.orders && o !in left && R.Overdue(before.orders[o], cutoff))
    && (forall i, j :: 0 <= i < j < |moved| ==> moved[i] != moved[j])
  }

  lemma NoneAccepted(before: R.Db, cutoff: int)
    ensures AcceptedBut(before, before.orders, before.orders.Keys, [], cutoff)
  {
  }

  lemma AcceptStep(before: R.Db, after: map<int64, Order>, left: set<int64>, moved: seq<int64>, cutoff: int, o: int64)
    requires o in left && left <= after.Keys && AcceptedBut(before, after, left, moved, cutoff)
    ensures if R.Overdue(after[o], cutoff)
      then AcceptedBut(before, after[o := Moved(after[o], Accepted, before.now)], left - {o}, moved + [o], cutoff)
      else AcceptedBut(before, after, left - {o}, moved, cutoff)
  {
    hide Moved, R.Overdue;
  }

  lemma AllAccepted(before: R.Db, after: map<int64, Order>, moved: seq<int64>, cutoff: int)
    requires AcceptedBut(before, after, {}, moved, cutoff)
    ensures before.(orders := after) == R.AutoAcceptOrders(before, cutoff) && A.Lists(before, cutoff, moved)
  {
    hide Moved, R.Overdue;
    assert (set o | o in moved) == R.OverdueOrders(before, cutoff);
    assert after == R.AutoAcceptOrders(before, cutoff).orders;
  }

  lemma TransitionIs(db: R.Db, o: int64, from: Status, to: Status)
    ensures R.TransitionOrder(db, o, from, to)
         == if o in db.orders && db.orders[o].status == from
           then (db.(orders := db.orders[o := Moved(db.orders[o], to, db.now)]), true) else (db, false)
  {
  }

  lemma PostIs(db: R.Db, e: Event)
    requires Postable(e)
    ensures R.Post(db, e) == (db.(ledger := db.ledger + [e]), true)
  {
  }
}
