/** The rows that orders, payments, refunds and the ledger share, and the store's statements as functions on them. */
module StoreRows {
  import opened Results
  import opened Int64
  import opened Ledger
  import opened Orders
  import opened Payments

  datatype Intent = Intent(
    order: int64, provider: string, key: string, providerRef: string, status: PaymentStatus, chargeRef: string,
    succeededAt: Option<int>, failedAt: Option<int>, canceledAt: Option<int>)

  /** What a provider says about a payment. */
  datatype Payment = Payment(provider: string, providerRef: string, status: PaymentStatus, chargeRef: string)

  /** A stored webhook event; events that concern no payment carry none. */
  datatype Hook = Hook(payment: Option<Payment>, processed: bool)

  /** A cancellation request or a dispute. */
  datatype Request = Request(order: int64, open: bool)

  datatype RefundStatus = RefundPending | RefundSucceeded | RefundFailed

  datatype RefundRow = RefundRow(order: int64, status: RefundStatus)

  /** The tables, with the clock and the provider names that the payments table admits. */
  datatype Db = Db(
    now: int, admits: set<string>, orders: map<int64, Order>, intents: seq<Intent>, hooks: map<string, Hook>,
    revisions: seq<int64>, cancellations: seq<Request>, disputes: seq<Request>, refunds: seq<RefundRow>,
    ledger: seq<Event>)

  // ----- orders -----

  /** Compare-and-set on the status, with the milestone columns; false when the row is missing or has moved on. */
  function TransitionOrder(db: Db, o: int64, from: Status, to: Status): (Db, bool)
  {
    if o in db.orders && db.orders[o].status == from
    then (db.(orders := db.orders[o := Moved(db.orders[o], to, db.now)]), true)
    else (db, false)
  }

  predicate Overdue(o: Order, cutoff: int)
  {
    o.status.Delivered? && o.deliveredAt.Some? && o.deliveredAt.value < cutoff
  }

  function OverdueOrders(db: Db, cutoff: int): (ids: set<int64>)
    ensures forall o :: o in ids <==> o in db.orders && Overdue(db.orders[o], cutoff)
  {
    set o | o in db.orders && Overdue(db.orders[o], cutoff)
  }

  /** One statement that accepts every overdue delivery. */
  function AutoAcceptOrders(db: Db, cutoff: int): Db
  {
    db.(orders := map o | o in db.orders :: if Overdue(db.orders[o], cutoff)
      then Moved(db.orders[o], Accepted, db.now) else db.orders[o])
  }

  /** Lock, check the allowance, use one revision, and record the request. */
  function ConsumeRevision(db: Db, o: int64): (Db, bool)
  {
    if o in db.orders && db.orders[o].revisionsUsed < db.orders[o].revisionsAllowed
    then (db.(orders := db.orders[o := db.orders[o].(revisionsUsed := db.orders[o].revisionsUsed + 1)],
      revisions := db.revisions + [o]), true)
    else (db, false)
  }

  // ----- payment intents and webhook events -----

  function CheckoutKey(o: int64): string
  {
    IdempotencyKey("checkout", o, 0)
  }

  /** The provider names the shipped schema admits. */
  const SCHEMA_PROVIDERS: set<string> := {"stripe", "btcpay", "evm"}

  /** Inserted unless the column check refuses the provider or the unique key has been used. */
  function CreateIntent(db: Db, o: int64, provider: string, key: string): (Db, bool)
  {
    if provider !in db.admits || exists i :: 0 <= i < |db.intents| && db.intents[i].key == key then (db, false)
    else (db.(intents := db.intents + [Intent(o, provider, key, "", Pending, "", None, None, None)]), true)
  }

  /** The intent that has a key; the unique index allows no second one. */
  function FindByKey(intents: seq<Intent>, key: string): (r: Option<nat>)
    ensures r.Some? ==> r.value < |intents| && intents[r.value].key == key
    ensures r.Some? ==> forall j :: 0 <= j < r.value ==> intents[j].key != key
    ensures r.None? <==> forall i :: 0 <= i < |intents| ==> intents[i].key != key
  {
    if intents == [] then None
    else
      var n := |intents| - 1;
      var earlier := FindByKey(intents[..n], key);
      if earlier.Some? then earlier else if intents[n].key == key then Some(n) else None
  }

  /** The status update with its stamp. */
  function Settled(i: Intent, to: PaymentStatus, now: int): Intent
  {
    i.(status := to,
       succeededAt := if to.Succeeded? then Some(now) else i.succeededAt,
       failedAt := if to.Failed? then Some(now) else i.failedAt,
       canceledAt := if to.Canceled? then Some(now) else i.canceledAt)
  }

  function TransitionIntent(db: Db, i: nat, from: PaymentStatus, to: PaymentStatus): (Db, bool)
  {
    if i < |db.intents| && db.intents[i].status == from
    then (db.(intents := db.intents[i := Settled(db.intents[i], to, db.now)]), true)
    else (db, false)
  }

  function SetSession(db: Db, i: nat, ref: string): Db
  {
    if i < |db.intents| then db.(intents := db.intents[i := db.intents[i].(providerRef := ref)]) else db
  }

  function SetChargeRef(db: Db, i: nat, ref: string): Db
  {
    if i < |db.intents| then db.(intents := db.intents[i := db.intents[i].(chargeRef := ref)]) else db
  }

  predicate Bears(i: Intent, provider: string, ref: string)
  {
    i.provider == provider && i.providerRef == ref
  }

  /** The intent a provider's reference belongs to. */
  function FindByRef(intents: seq<Intent>, provider: string, ref: string): (r: Option<nat>)
    ensures r.Some? ==> r.value < |intents| && Bears(intents[r.value], provider, ref)
    ensures r.Some? ==> forall j :: 0 <= j < r.value ==> !Bears(intents[j], provider, ref)
    ensures r.None? <==> forall i :: 0 <= i < |intents| ==> !Bears(intents[i], provider, ref)
  {
    if intents == [] then None
    else
      var n := |intents| - 1;
      var earlier := FindByRef(intents[..n], provider, ref);
      if earlier.Some? then earlier else if Bears(intents[n], provider, ref) then Some(n) else None
  }

  /** The order's newest intent. */
  function LatestIntent(intents: seq<Intent>, o: int64): (r: Option<nat>)
    ensures r.Some? ==> r.value < |intents| && intents[r.value].order == o && forall j ::
      r.value < j < |intents| ==> intents[j].order != o
    ensures r.None? <==> forall i :: 0 <= i < |intents| ==> intents[i].order != o
  {
    if intents == [] then None
    else
      var n := |intents| - 1;
      if intents[n].order == o then Some(n) else LatestIntent(intents[..n], o)
  }

  /** Deduplicated on the event key. */
  function InsertHook(db: Db, key: string, payment: Option<Payment>): (Db, bool)
  {
    if key in db.hooks then (db, false) else (db.(hooks := db.hooks[key := Hook(payment, false)]), true)
  }

  function MarkHook(db: Db, key: string): Db
  {
    if key in db.hooks then db.(hooks := db.hooks[key := db.hooks[key].(processed := true)]) else db
  }

  // ----- cancellation requests and disputes -----

  datatype Matter = Cancellation | Dispute

  function Requests(db: Db, matter: Matter): seq<Request>
  {
    if matter.Cancellation? then db.cancellations else db.disputes
  }

  function WithRequests(db: Db, matter: Matter, rows: seq<Request>): Db
  {
    if matter.Cancellation? then db.(cancellations := rows) else db.(disputes := rows)
  }

  function OpenRequest(db: Db, matter: Matter, o: int64): Db
  {
    WithRequests(db, matter, Requests(db, matter) + [Request(o, true)])
  }

  function FindOpen(rows: seq<Request>, o: int64): (r: Option<nat>)
    ensures r.Some? ==> r.value < |rows| && rows[r.value] == Request(o, true)
    ensures r.Some? ==> forall j :: r.value < j < |rows| ==> rows[j] != Request(o, true)
    ensures r.None? <==> forall i :: 0 <= i < |rows| ==> rows[i] != Request(o, true)
  {
    if rows == [] then None
    else
      var n := |rows| - 1;
      if rows[n] == Request(o, true) then Some(n) else FindOpen(rows[..n], o)
  }

  /** Compare-and-set from open to resolved. */
  function CloseRequest(db: Db, matter: Matter, i: nat): (Db, bool)
  {
    var rows := Requests(db, matter);
    if i < |rows| && rows[i].open then (WithRequests(db, matter, rows[i := rows[i].(open := false)]), true)
    else (db, false)
  }

  // ----- refunds -----

  function Live(refunds: seq<RefundRow>, o: int64): nat
  {
    if refunds == [] then 0
    else Live(refunds[..|refunds| - 1], o) + if IsLive(refunds[|refunds| - 1], o) then 1 else 0
  }

  predicate IsLive(row: RefundRow, o: int64)
  {
    row.order == o && !row.status.RefundFailed?
  }

  lemma LiveStep(refunds: seq<RefundRow>, row: RefundRow, o: int64)
    ensures Live(refunds + [row], o) == Live(refunds, o) + if IsLive(row, o) then 1 else 0
  {
    assert (refunds + [row])[..|refunds|] == refunds;
  }

  lemma {:induction false} LiveUpdate(refunds: seq<RefundRow>, i: nat, row: RefundRow, o: int64)
    requires i < |refunds|
    ensures Live(refunds[i := row], o)
      == Live(refunds, o) - (if IsLive(refunds[i], o) then 1 else 0) + (if IsLive(row, o) then 1 else 0)
  {
    var n := |refunds| - 1;
    if i < n {
      LiveUpdate(refunds[..n], i, row, o);
      assert refunds[i := row][..n] == refunds[..n][i := row];
    } else {
      assert refunds[i := row][..n] == refunds[..n];
    }
  }

  lemma {:induction false} LiveIsPositive(refunds: seq<RefundRow>, i: nat, o: int64)
    requires i < |refunds| && IsLive(refunds[i], o)
    ensures Live(refunds, o) >= 1
  {
    var n := |refunds| - 1;
    if i < n { LiveIsPositive(refunds[..n], i, o); }
  }

  /** The unique index admits one refund per order that has not failed. */
  function CreateRefund(db: Db, o: int64): (Db, bool)
  {
    if Live(db.refunds, o) > 0 then (db, false) else (db.(refunds := db.refunds + [RefundRow(o, RefundPending)]), true)
  }

  /** The status column admits three of the provider's answers; any other violates its check. */
  function StoredStatus(answer: PaymentStatus): Option<RefundStatus>
  {
    match answer
    case Pending => Some(RefundPending)
    case Succeeded => Some(RefundSucceeded)
    case Failed => Some(RefundFailed)
    case _ => None
  }

  function SetRefundStatus(db: Db, i: nat, answer: PaymentStatus): (Db, bool)
  {
    if i < |db.refunds| && StoredStatus(answer).Some?
    then (db.(refunds := db.refunds[i := db.refunds[i].(status := StoredStatus(answer).value)]), true)
    else (db, false)
  }

  // ----- ledger -----

  /** A posting group goes in only when its builder accepts it. */
  function Post(db: Db, e: Event): (Db, bool)
  {
    if Postable(e) then (db.(ledger := db.ledger + [e]), true) else (db, false)
  }
}
