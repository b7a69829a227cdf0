/** Payment intents over every run: who opens and registers them, how they move, and what payment workers know of
    them. */
module Checkouts {
  import opened Results
  import opened Int64
  import opened Ledger
  import opened Bookkeeping
  import opened Orders
  import opened Payments
  import opened StoreRows
  import opened Actors
  import opened Protocol
  import opened Duties
  import opened Runs
  import opened Guarantees

  // ----- one intent per order -----

  ghost predicate IntentsOk(db: Db)
  {
    && (forall i :: 0 <= i < |db.intents| ==> db.intents[i].key == IdempotencyKey("checkout", db.intents[i].order, 0))
    && (forall i, j :: 0 <= i < j < |db.intents| ==> db.intents[i].order != db.intents[j].order)
  }

  /** An intent keeps its order, provider, key and, once it has one, its session; it keeps having a charge; and its
      status moves only as the payment table allows. */
  predicate IntentMoves(before: Intent, after: Intent)
  {
    && after.order == before.order && after.provider == before.provider && after.key == before.key
    && (before.providerRef != "" ==> after.providerRef == before.providerRef)
    && (before.chargeRef != "" ==> after.chargeRef != "")
    && (after.status == before.status || CanTransitionPayment(before.status, after.status))
  }

  ghost predicate Evolves(db: Db, db': Db)
  {
    && db'.admits == db.admits && |db.intents| <= |db'.intents| && db.orders.Keys <= db'.orders.Keys
    && forall i :: 0 <= i < |db.intents| ==> IntentMoves(db.intents[i], db'.intents[i])
  }

  lemma FinalStays(before: Intent, after: Intent)
    requires IntentMoves(before, after)
    ensures Final(before.status) ==> after.status == before.status
  {
  }

  // ----- what rows and actors know -----

  predicate IntentOf(db: Db, i: nat, o: int64)
  {
    i < |db.intents| && db.intents[i].order == o
  }

  predicate Registered(db: Db, i: nat, o: int64)
  {
    IntentOf(db, i, o) && db.intents[i].providerRef != ""
  }

  /** Open, and not yet known to its provider. */
  predicate Unregistered(db: Db, i: nat, o: int64)
  {
    IntentOf(db, i, o) && db.intents[i].providerRef == "" && db.intents[i].status == Pending
  }

  /** The order's payment is finished, one way or another. */
  ghost predicate Finished(db: Db, o: int64)
  {
    exists i: nat :: IntentOf(db, i, o) && Final(db.intents[i].status)
  }

  /** The order's payment succeeded, with a charge that can be refunded. */
  ghost predicate Charged(db: Db, o: int64)
  {
    exists i: nat :: IntentOf(db, i, o) && db.intents[i].status == Succeeded && db.intents[i].chargeRef != ""
  }

  /** The order's payment succeeded. */
  ghost predicate PaidFor(db: Db, o: int64)
  {
    exists i: nat :: IntentOf(db, i, o) && db.intents[i].status == Succeeded
  }

  predicate SnapshotOk(db: Db, sn: Snapshot)
  {
    Registered(db, sn.intent, sn.order) && !Final(sn.status)
  }

  predicate SnapshotsOk(db: Db, stale: seq<Snapshot>)
  {
    forall sn :: sn in stale ==> SnapshotOk(db, sn)
  }

  predicate ContOk(db: Db, cont: Cont)
  {
    cont.Reconcile? ==> SnapshotsOk(db, cont.rest)
  }

  /** A payment method leads to one of these. */
  predicate Offered(provider: string)
  {
    provider in {"stripe", "btcpay", "evm-base", "evm-polygon"}
  }

  /** An intent belongs to an order, and to a provider that is offered and that its column admits. */
  predicate Placeable(db: Db, i: Intent)
  {
    i.order in db.orders && i.provider in db.admits && Offered(i.provider)
  }

  /** The checkout of an order, which is its only one. */
  predicate InCheckout(pc: Pc, o: int64)
  {
    (pc.OpenIntent? || pc.CreateSession? || pc.AttachSession?) && pc.order == o
  }

  ghost predicate KnowsPayment(db: Db, pc: Pc)
  {
    match pc
    case OpenIntent(o, provider) => o in db.orders && Offered(provider) && forall i: nat :: !IntentOf(db, i, o)
    case CreateSession(o, i, provider) => Unregistered(db, i, o) && db.intents[i].provider == provider
    case AttachSession(o, i, _) => Unregistered(db, i, o)
    case LoadIntent(_, payment) => Genuine(Some(payment))
    case Sweep(stale) => SnapshotsOk(db, stale)
    case RecordCharge(i, o, seen, payment, cont) =>
      && Registered(db, i, o) && payment.chargeRef != "" && ContOk(db, cont)
      && (Final(seen) ==> Final(db.intents[i].status)) && (cont.Reconcile? ==> !Final(seen))
    case MoveIntent(i, o, _, _, cont) => Registered(db, i, o) && ContOk(db, cont)
    case LoadForCapture(o, cont) => Finished(db, o) && ContOk(db, cont)
    case ClaimPaid(bill, cont) => Finished(db, bill.order) && ContOk(db, cont)
    case PostCapture(_, cont) => ContOk(db, cont)
    case Advance(_, cont) => ContOk(db, cont)
    case LoadForFailure(_, cont) => ContOk(db, cont)
    case MoveToFailed(_, cont) => ContOk(db, cont)
    case PostRelease(bill, _) => PaidFor(db, bill.order) && Payable(bill) > 0
    case CheckRefund(bill, _) => Charged(db, bill.order)
    case CallProvider(bill, _) => Charged(db, bill.order)
    case InsertRefund(bill, _, _) => Charged(db, bill.order)
    case StoreAnswer(bill, _, _, _) => Charged(db, bill.order)
    case PostRefund(bill, _, _) => Charged(db, bill.order)
    case _ => true
  }

  /** Beyond its payment states an order has a finished payment. */
  ghost predicate PaymentBehind(db: Db, o: int64)
    requires o in db.orders
  {
    db.orders[o].status.PendingPayment? || db.orders[o].status.PaymentFailed? || Finished(db, o)
  }

  /** A refund needs a charge, and a release a payment that succeeded. */
  ghost predicate Warranted(db: Db, e: Event)
  {
    (e.Refunded? ==> Charged(db, e.bill.order)) && (e.Released? ==> PaidFor(db, e.bill.order))
  }

  ghost predicate PaymentRowsOk(db: Db)
  {
    && IntentsOk(db)
    && (forall i :: 0 <= i < |db.intents| ==> Placeable(db, db.intents[i]))
    && (forall key :: key in db.hooks ==> Genuine(db.hooks[key].payment))
    && (forall o :: o in db.orders ==> PaymentBehind(db, o))
    && (forall e :: e in db.ledger ==> Warranted(db, e))
  }

  ghost predicate CheckoutInv(s: State)
  {
    && PaymentRowsOk(s.db)
    && (forall a :: a in s.actors ==> KnowsPayment(s.db, s.actors[a]))
    && (forall a, b, o ::
      a in s.actors && b in s.actors && InCheckout(s.actors[a], o) && InCheckout(s.actors[b], o) ==> a == b)
  }

  // ----- how intents evolve under one step -----

  lemma RunEvolves(db: Db, pc: Pc, window: nat, input: Input)
    requires PcOk(db, window, pc) && KnowsPayment(db, pc)
    ensures Evolves(db, Run(db, pc, window, input).0)
  {
    WhoRuns(db, pc, window, input);
    RunFrames(db, pc, window, input);
    hide Run, RunRequest, RunRefund, OnError, PaymentTransitions, Settle, AfterCharge, CheckoutKey, Moved;
    if !(pc.OpenIntent? || pc.AttachSession? || pc.MoveIntent? || pc.RecordCharge?) {
      hide RunPayment, PcOk, KnowsPayment;
    }
  }

  // ----- what others know stays true -----

  lemma FinishedStays(db: Db, db': Db, o: int64)
    requires Evolves(db, db')
    ensures Finished(db, o) ==> Finished(db', o)
    ensures Charged(db, o) ==> Charged(db', o)
    ensures PaidFor(db, o) ==> PaidFor(db', o)
  {
    PaidForStays(db, db', o);
    if Finished(db, o) {
      var i: nat :| IntentOf(db, i, o) && Final(db.intents[i].status);
      FinalStays(db.intents[i], db'.intents[i]);
      assert IntentOf(db', i, o);
    }
    if Charged(db, o) {
      var i: nat :| IntentOf(db, i, o) && db.intents[i].status == Succeeded && db.intents[i].chargeRef != "";
      FinalStays(db.intents[i], db'.intents[i]);
      assert IntentOf(db', i, o);
    }
  }

  lemma PaidForStays(db: Db, db': Db, o: int64)
    requires Evolves(db, db')
    ensures PaidFor(db, o) ==> PaidFor(db', o)
  {
    if PaidFor(db, o) {
      var i: nat :| IntentOf(db, i, o) && db.intents[i].status == Succeeded;
      FinalStays(db.intents[i], db'.intents[i]);
      assert IntentOf(db', i, o);
    }
  }

  lemma RegisteredStays(db: Db, db': Db, i: nat, o: int64)
    requires Evolves(db, db') && Registered(db, i, o)
    ensures Registered(db', i, o) && (Final(db.intents[i].status) ==> Final(db'.intents[i].status))
  {
    FinalStays(db.intents[i], db'.intents[i]);
  }

  lemma SnapshotsStay(db: Db, db': Db, stale: seq<Snapshot>)
    requires Evolves(db, db') && SnapshotsOk(db, stale)
    ensures SnapshotsOk(db', stale)
  {
    hide Evolves, Registered;
    forall sn | sn in stale ensures SnapshotOk(db', sn) { RegisteredStays(db, db', sn.intent, sn.order); }
  }

  /** Nobody else touches what belongs to a checkout. */
  ghost predicate LeavesCheckout(db: Db, db': Db, o: int64)
  {
    forall i: nat :: IntentOf(db', i, o) ==>
      IntentOf(db, i, o) && (Unregistered(db, i, o) ==> Unregistered(db', i, o))
  }

  lemma KnowledgeStays(db: Db, db': Db, pc: Pc)
    requires Evolves(db, db') && KnowsPayment(db, pc)
    requires forall o :: InCheckout(pc, o) ==> LeavesCheckout(db, db', o)
    ensures KnowsPayment(db', pc)
  {
    if pc.OpenIntent? || pc.CreateSession? || pc.AttachSession? {
      CheckoutKnowledgeStays(db, db', pc);
    } else {
      hide Evolves, LeavesCheckout, Registered, Finished, Charged, PaidFor, SnapshotsOk;
      match pc
      case PostRelease(bill, _) => FinishedStays(db, db', bill.order);
      case Sweep(stale) => SnapshotsStay(db, db', stale);
      case RecordCharge(i, o, _, _, cont) => RegisteredStays(db, db', i, o); ContStays(db, db', cont);
      case MoveIntent(i, o, _, _, cont) => RegisteredStays(db, db', i, o); ContStays(db, db', cont);
      case LoadForCapture(o, cont) => FinishedStays(db, db', o); ContStays(db, db', cont);
      case ClaimPaid(bill, cont) => FinishedStays(db, db', bill.order); ContStays(db, db', cont);
      case PostCapture(_, cont) => ContStays(db, db', cont);
      case Advance(_, cont) => ContStays(db, db', cont);
      case LoadForFailure(_, cont) => ContStays(db, db', cont);
      case MoveToFailed(_, cont) => ContStays(db, db', cont);
      case CheckRefund(bill, _) => FinishedStays(db, db', bill.order);
      case CallProvider(bill, _) => FinishedStays(db, db', bill.order);
      case InsertRefund(bill, _, _) => FinishedStays(db, db', bill.order);
      case StoreAnswer(bill, _, _, _) => FinishedStays(db, db', bill.order);
      case PostRefund(bill, _, _) => FinishedStays(db, db', bill.order);
      case _ =>
    }
  }

  lemma CheckoutKnowledgeStays(db: Db, db': Db, pc: Pc)
    requires Evolves(db, db') && KnowsPayment(db, pc) && (pc.OpenIntent? || pc.CreateSession? || pc.AttachSession?)
    requires LeavesCheckout(db, db', pc.order)
    ensures KnowsPayment(db', pc)
  {
    if !pc.OpenIntent? {
      assert IntentOf(db', pc.intent, pc.order);
    }
  }

  lemma ContStays(db: Db, db': Db, cont: Cont)
    requires Evolves(db, db') && ContOk(db, cont)
    ensures ContOk(db', cont)
  {
    if cont.Reconcile? { SnapshotsStay(db, db', cont.rest); }
    hide Evolves, SnapshotsOk;
  }

  lemma RunLeavesCheckout(db: Db, pc: Pc, window: nat, input: Input, o: int64)
    requires KnowsPayment(db, pc) && !InCheckout(pc, o)
    ensures LeavesCheckout(db, Run(db, pc, window, input).0, o)
  {
    WhoRuns(db, pc, window, input);
    RunFrames(db, pc, window, input);
    hide Run, RunRequest, RunRefund, OnError, CanTransitionPayment, Settle, AfterCharge, CheckoutKey, Moved;
    if !(pc.OpenIntent? || pc.AttachSession? || pc.MoveIntent? || pc.RecordCharge?) {
      hide RunPayment, KnowsPayment;
    }
  }

  // ----- what an actor learns -----

  lemma RunLearns(db: Db, pc: Pc, window: nat, input: Input)
    requires PaymentRowsOk(db) && DbOk(db) && PcOk(db, window, pc) && KnowsPayment(db, pc)
    ensures var (db', pc') := Run(db, pc, window, input); KnowsPayment(db', pc')
  {
    WhoRuns(db, pc, window, input);
    RunEvolves(db, pc, window, input);
    hide Run, RunPayment, RunRequest, RunRefund, OnError, KnowsPayment, PcOk, DbOk, PaymentRowsOk, Evolves;
    if Errs(pc, input) {
      ErrorLearns(db, pc);
    } else if PaymentStep(pc) {
      if Reads(pc) { PaymentReadLearns(db, pc, window, input); } else { PaymentWriteLearns(db, pc, window, input); }
    } else if RefundStep(pc) {
      RefundLearns(db, pc, input);
    } else {
      RequestLearns(db, pc, window, input);
    }
  }

  lemma ErrorLearns(db: Db, pc: Pc)
    requires KnowsPayment(db, pc)
    ensures KnowsPayment(db, OnError(pc))
  {
    hide Finished, SnapshotsOk, CanTransitionPayment;
  }

  lemma PaymentReadLearns(db: Db, pc: Pc, window: nat, input: Input)
    requires PaymentRowsOk(db) && DbOk(db) && KnowsPayment(db, pc) && PaymentStep(pc) && Reads(pc)
    ensures var (db', pc') := RunPayment(db, pc, input); db' == db && KnowsPayment(db, pc')
  {
    hide RunPayment, PaymentRowsOk, DbOk, KnowsPayment;
    match pc
    case LoadHook(key) => HookLearns(db, key, input);
    case LoadIntent(key, payment) => IntentLearns(db, key, payment, input);
    case ListStale => ListLearns(db, input);
    case Sweep(stale) => SweepLearns(db, stale, input);
    case LoadForCapture(o, cont) => OrderLearns(db, o, cont, input);
    case LoadForFailure(o, cont) => FailureLearns(db, o, cont, input);
    case CreateSession(o, i, provider) => SessionLearns(db, o, i, provider, input);
  }

  lemma HookLearns(db: Db, key: string, input: Input)
    requires PaymentRowsOk(db)
    ensures var (db', pc') := RunPayment(db, LoadHook(key), input); db' == db && KnowsPayment(db, pc')
  {
    hide IntentsOk, PaymentBehind, Charged;
  }

  lemma IntentLearns(db: Db, key: string, payment: Payment, input: Input)
    requires KnowsPayment(db, LoadIntent(key, payment))
    ensures var (db', pc') := RunPayment(db, LoadIntent(key, payment), input); db' == db && KnowsPayment(db, pc')
  {
    IntentIsFound(db, key, payment);
    hide FindByRef, Observe, Genuine;
  }

  lemma ListLearns(db: Db, input: Input)
    ensures var (db', pc') := RunPayment(db, ListStale, input); db' == db && KnowsPayment(db, pc')
  {
    hide IsStale, SnapshotOf, SnapshotsOk;
    if forall i :: i in input.stale ==> IsStale(db, i) { StaleAreOk(db, input); }
  }

  lemma SweepLearns(db: Db, stale: seq<Snapshot>, input: Input)
    requires KnowsPayment(db, Sweep(stale))
    ensures var (db', pc') := RunPayment(db, Sweep(stale), input); db' == db && KnowsPayment(db, pc')
  {
    if stale != [] { SnapshotLearns(db, stale, input); }
    hide Observe, SnapshotsOk;
  }

  lemma OrderLearns(db: Db, o: int64, cont: Cont, input: Input)
    requires DbOk(db) && KnowsPayment(db, LoadForCapture(o, cont))
    ensures var (db', pc') := RunPayment(db, LoadForCapture(o, cont), input); db' == db && KnowsPayment(db, pc')
  {
    hide RunPayment, DbOk, Known, Finished, SnapshotsOk;
    OrderLoads(db, o, cont, input);
    KnownBill(db, o);
  }

  lemma OrderLoads(db: Db, o: int64, cont: Cont, input: Input)
    ensures RunPayment(db, LoadForCapture(o, cont), input)
      == (db,
        if o !in db.orders then GiveUp(cont) else if db.orders[o].status != PendingPayment then Done(cont)
        else ClaimPaid(db.orders[o].bill, cont))
  {
    hide GiveUp, Done;
  }

  lemma FailureLearns(db: Db, o: int64, cont: Cont, input: Input)
    requires KnowsPayment(db, LoadForFailure(o, cont))
    ensures var (db', pc') := RunPayment(db, LoadForFailure(o, cont), input); db' == db && KnowsPayment(db, pc')
  {
    hide SnapshotsOk;
  }

  lemma SessionLearns(db: Db, o: int64, i: nat, provider: string, input: Input)
    requires KnowsPayment(db, CreateSession(o, i, provider))
    ensures var (db', pc') := RunPayment(db, CreateSession(o, i, provider), input); db' == db && KnowsPayment(db, pc')
  {
  }

  lemma IntentIsFound(db: Db, key: string, payment: Payment)
    requires Genuine(Some(payment))
    ensures var i := FindByRef(db.intents, payment.provider, payment.providerRef);
      i.Some? ==>
        var row := db.intents[i.value];
        KnowsPayment(db, Observe(i.value, row.order, row.status, row.chargeRef, payment, Webhook(key)))
  {
    var i := FindByRef(db.intents, payment.provider, payment.providerRef);
    if i.Some? {
      assert IntentOf(db, i.value, db.intents[i.value].order);
      hide FindByRef;
    }
  }

  lemma StaleAreOk(db: Db, input: Input)
    requires forall i :: i in input.stale ==> IsStale(db, i)
    ensures SnapshotsOk(db, RunPayment(db, ListStale, input).1.stale)
  {
    var stale := RunPayment(db, ListStale, input).1.stale;
    forall sn | sn in stale
      ensures SnapshotOk(db, sn)
    {
      var k :| 0 <= k < |stale| && stale[k] == sn;
      assert input.stale[k] in input.stale && sn == SnapshotOf(db, input.stale[k]);
    }
  }

  lemma SnapshotLearns(db: Db, stale: seq<Snapshot>, input: Input)
    requires SnapshotsOk(db, stale) && stale != []
    ensures SnapshotsOk(db, stale[1..])
    ensures KnowsPayment(db,
      Observe(stale[0].intent, stale[0].order, stale[0].status, stale[0].chargeRef, input.payment,
      Reconcile(stale[1..])))
  {
    assert SnapshotOk(db, stale[0]);
    assert forall sn :: sn in stale[1..] ==> sn in stale;
  }

  lemma PaymentWriteLearns(db: Db, pc: Pc, window: nat, input: Input)
    requires PaymentRowsOk(db) && PcOk(db, window, pc) && KnowsPayment(db, pc) && PaymentStep(pc) && !Reads(pc)
    requires Evolves(db, RunPayment(db, pc, input).0)
    ensures var (db', pc') := RunPayment(db, pc, input); KnowsPayment(db', pc')
  {
    hide PaymentRowsOk, RunPayment, KnowsPayment, Evolves, PcOk;
    match pc
    case OpenIntent(o, provider) => RowsParts(db); OpeningLearns(db, o, provider, input);
    case RecordCharge(i, o, seen, payment, cont) => ChargeRecorded(db, pc, input);
    case MoveIntent(i, o, seen, next, cont) => IntentMoved(db, pc, window, input);
    case AttachSession(_, _, _) => EndingLearns(db, pc, input);
    case MarkProcessed(_) => EndingLearns(db, pc, input);
    case _ => OrderWriteLearns(db, pc, input);
  }

  lemma OpeningLearns(db: Db, o: int64, provider: string, input: Input)
    requires IntentsOk(db) && KnowsPayment(db, OpenIntent(o, provider))
    ensures var (db', pc') := RunPayment(db, OpenIntent(o, provider), input); KnowsPayment(db', pc')
  {
    KeyIsNew(db, o, provider);
    hide CheckoutKey, IntentsOk, FindByKey;
  }

  lemma EndingLearns(db: Db, pc: Pc, input: Input)
    requires pc.AttachSession? || pc.MarkProcessed?
    ensures var (db', pc') := RunPayment(db, pc, input); KnowsPayment(db', pc')
  {
  }

  lemma OrderWriteLearns(db: Db, pc: Pc, input: Input)
    requires pc.ClaimPaid? || pc.PostCapture? || pc.Advance? || pc.MoveToFailed?
    requires KnowsPayment(db, pc) && Evolves(db, RunPayment(db, pc, input).0)
    ensures var (db', pc') := RunPayment(db, pc, input); KnowsPayment(db', pc')
  {
    ContStays(db, RunPayment(db, pc, input).0, pc.cont);
    hide Evolves, SnapshotsOk, TransitionOrder, Post, Finished;
  }

  lemma ChargeRecorded(db: Db, pc: Pc, input: Input)
    requires pc.RecordCharge? && KnowsPayment(db, pc) && Evolves(db, RunPayment(db, pc, input).0)
    ensures var (db', pc') := RunPayment(db, pc, input); KnowsPayment(db', pc')
  {
    var db' := RunPayment(db, pc, input).0;
    ContStays(db, db', pc.cont);
    RegisteredStays(db, db', pc.intent, pc.order);
    if Final(pc.seen) { assert IntentOf(db', pc.intent, pc.order); }
    hide Evolves, SnapshotsOk, SetChargeRef, PaymentTransitions;
  }

  lemma IntentMoved(db: Db, pc: Pc, window: nat, input: Input)
    requires pc.MoveIntent? && PcOk(db, window, pc) && KnowsPayment(db, pc) && Evolves(db, RunPayment(db, pc, input).0)
    ensures var (db', pc') := RunPayment(db, pc, input); KnowsPayment(db', pc')
  {
    var db' := RunPayment(db, pc, input).0;
    ContStays(db, db', pc.cont);
    assert IntentOf(db', pc.intent, pc.order) by { RegisteredStays(db, db', pc.intent, pc.order); }
    hide Evolves, SnapshotsOk, PaymentTransitions;
  }

  lemma RefundLearns(db: Db, pc: Pc, input: Input)
    requires KnowsPayment(db, pc) && RefundStep(pc) && Evolves(db, RunRefund(db, pc, input).0)
    ensures var (db', pc') := RunRefund(db, pc, input); KnowsPayment(db', pc')
  {
    hide RunRefund, Evolves, Charged, KnowsPayment;
    var (db', pc') := RunRefund(db, pc, input);
    RefundGoesOn(db, pc, input);
    if !pc'.Idle? && !pc'.LoadCharge? {
      if pc.LoadCharge? {
        LatestIsCharged(db, pc.bill.order);
      } else {
        KnowsCharged(db, pc);
        FinishedStays(db, db', pc.bill.order);
      }
    }
    ChargedKnows(db', pc');
  }

  lemma KnowsCharged(db: Db, pc: Pc)
    requires RefundStep(pc) && !pc.LoadForRefund? && !pc.LoadCharge?
    ensures KnowsPayment(db, pc) <==> Charged(db, pc.bill.order)
  {
    hide Charged;
  }

  lemma ChargedKnows(db: Db, pc: Pc)
    requires pc.Idle? || pc.LoadCharge? || (RefundStep(pc) && !pc.LoadForRefund? && Charged(db, pc.bill.order))
    ensures KnowsPayment(db, pc)
  {
    if !pc.Idle? && !pc.LoadCharge? { KnowsCharged(db, pc); }
    hide Charged;
  }

  /** A refund stays with its order, and goes past the charge only if there is one. */
  lemma RefundGoesOn(db: Db, pc: Pc, input: Input)
    requires RefundStep(pc)
    ensures var (db', pc') := RunRefund(db, pc, input);
      || pc'.Idle? || pc'.LoadCharge?
      || (RefundStep(pc') && !pc'.LoadForRefund? && !pc.LoadForRefund? && pc'.bill == pc.bill)
    ensures pc.LoadCharge? && !RunRefund(db, pc, input).1.Idle? ==>
      var i := LatestIntent(db.intents, pc.bill.order);
      RunRefund(db, pc, input).0 == db
      && i.Some? && db.intents[i.value].status == Succeeded && db.intents[i.value].chargeRef != ""
  {
    hide LatestIntent, Live, Post, StoredStatus;
  }

  lemma LatestIsCharged(db: Db, o: int64)
    ensures var i := LatestIntent(db.intents, o);
      i.Some? && db.intents[i.value].status == Succeeded && db.intents[i.value].chargeRef != "" ==> Charged(db, o)
  {
    var i := LatestIntent(db.intents, o);
    if i.Some? { assert IntentOf(db, i.value, o); }
  }

  lemma RequestLearns(db: Db, pc: Pc, window: nat, input: Input)
    requires !PaymentStep(pc) && !RefundStep(pc)
    ensures var (db', pc') := RunRequest(db, pc, window, input); KnowsPayment(db', pc')
  {
    hide KnowsPayment, RunRequest;
    RequestGoesOn(db, pc, window, input);
    var (db', pc') := RunRequest(db, pc, window, input);
    if pc'.PostRelease? { ReleaseLearns(db, pc.bills); } else { NothingToKnow(db', pc'); }
  }

  /** Only a release needs to know anything of a payment. */
  lemma RequestGoesOn(db: Db, pc: Pc, window: nat, input: Input)
    requires !PaymentStep(pc) && !RefundStep(pc)
    ensures var (db', pc') := RunRequest(db, pc, window, input);
      && !PaymentStep(pc') && !RefundStep(pc')
      && (pc'.PostRelease? ==>
        (pc.ReleaseNext? && pc.bills != [] && pc'.bill == pc.bills[0] && db' == db && Payable(pc.bills[0]) > 0
          && PaidLatest(db, pc.bills[0].order)))
  {
    hide RunRequest;
    if pc.ReleaseNext? { ReleaseGoesOn(db, pc, window, input); } else { OtherGoesOn(db, pc, window, input); }
  }

  lemma ReleaseGoesOn(db: Db, pc: Pc, window: nat, input: Input)
    requires pc.ReleaseNext?
    ensures var (db', pc') := RunRequest(db, pc, window, input);
      && db' == db && !PaymentStep(pc') && !RefundStep(pc')
      && (pc'.PostRelease? ==>
        (pc.bills != [] && pc'.bill == pc.bills[0] && Payable(pc.bills[0]) > 0 && PaidLatest(db, pc.bills[0].order)))
  {
    hide LatestIntent, Payable;
  }

  lemma OtherGoesOn(db: Db, pc: Pc, window: nat, input: Input)
    requires !PaymentStep(pc) && !RefundStep(pc) && !pc.ReleaseNext?
    ensures var pc' := RunRequest(db, pc, window, input).1;
      !PaymentStep(pc') && !RefundStep(pc') && !pc'.PostRelease?
  {
    hide FindOpen, CanTransition, Lists, BillsOf, Moved, Post, TransitionOrder, ConsumeRevision, OpenRequest,
      CloseRequest, AutoAcceptOrders;
  }

  lemma NothingToKnow(db: Db, pc: Pc)
    requires !PaymentStep(pc) && !RefundStep(pc) && !pc.PostRelease?
    ensures KnowsPayment(db, pc)
  {
  }

  lemma ReleaseLearns(db: Db, bills: seq<Bill>)
    requires bills != [] && Payable(bills[0]) > 0 && PaidLatest(db, bills[0].order)
    ensures forall rest :: KnowsPayment(db, PostRelease(bills[0], rest))
  {
    LatestIsPaid(db, bills[0].order);
    hide PaidFor, Payable, PaidLatest;
  }

  predicate PaidLatest(db: Db, o: int64)
  {
    var i := LatestIntent(db.intents, o);
    i.Some? && db.intents[i.value].status == Succeeded
  }

  lemma LatestIsPaid(db: Db, o: int64)
    ensures PaidLatest(db, o) ==> PaidFor(db, o)
  {
    var i := LatestIntent(db.intents, o);
    if i.Some? { assert IntentOf(db, i.value, o); }
  }

  // ----- the rows after a step -----

  lemma RunKeepsPaymentRows(db: Db, pc: Pc, window: nat, input: Input)
    requires PaymentRowsOk(db) && PcOk(db, window, pc) && KnowsPayment(db, pc)
    ensures PaymentRowsOk(Run(db, pc, window, input).0)
  {
    hide *;
    var db' := Run(db, pc, window, input).0;
    RowsParts(db);
    RunEvolves(db, pc, window, input);
    RunKeepsIntents(db, pc, window, input);
    RunKeepsHooks(db, pc, window, input);
    forall o | o in db'.orders ensures PaymentBehind(db', o) {
      RunFrames(db, pc, window, input);
      FramesKeys(db, pc, db');
      RunLeavesBehind(db, pc, window, input, o);
    }
    forall e | e in db'.ledger ensures Warranted(db', e) { RunPostsWarranted(db, pc, window, input, e); }
    RowsWhole(db');
  }

  lemma FramesKeys(db: Db, pc: Pc, db': Db)
    requires Frames(db, pc, db')
    ensures db'.orders.Keys == db.orders.Keys
  {
  }

  lemma RowsParts(db: Db)
    requires PaymentRowsOk(db)
    ensures IntentsOk(db)
    ensures forall i :: 0 <= i < |db.intents| ==> Placeable(db, db.intents[i])
    ensures forall key :: key in db.hooks ==> Genuine(db.hooks[key].payment)
    ensures forall o :: o in db.orders ==> PaymentBehind(db, o)
    ensures forall e :: e in db.ledger ==> Warranted(db, e)
  {
  }

  lemma RowsWhole(db: Db)
    requires IntentsOk(db)
    requires forall i :: 0 <= i < |db.intents| ==> Placeable(db, db.intents[i])
    requires forall key :: key in db.hooks ==> Genuine(db.hooks[key].payment)
    requires forall o :: o in db.orders ==> PaymentBehind(db, o)
    requires forall e :: e in db.ledger ==> Warranted(db, e)
    ensures PaymentRowsOk(db)
  {
  }

  lemma RunKeepsIntents(db: Db, pc: Pc, window: nat, input: Input)
    requires IntentsOk(db) && KnowsPayment(db, pc) && Evolves(db, Run(db, pc, window, input).0)
    requires forall i :: 0 <= i < |db.intents| ==> Placeable(db, db.intents[i])
    ensures var db' := Run(db, pc, window, input).0;
      && IntentsOk(db')
      && forall i :: 0 <= i < |db'.intents| ==> Placeable(db', db'.intents[i])
  {
    hide Run, IntentsOk, Placeable, Evolves, KnowsPayment, Frames;
    RunFrames(db, pc, window, input);
    if pc.OpenIntent? && !Errs(pc, input) {
      KeyIsNew(db, pc.order, pc.provider);
      OpeningIs(db, pc, window, input);
      if pc.provider in db.admits { OpeningKeepsIntents(db, pc); }
    } else {
      IntentCount(db, pc, window, input);
      SameIntents(db, Run(db, pc, window, input).0);
    }
  }

  /** Intents are only ever added by a checkout. */
  lemma IntentCount(db: Db, pc: Pc, window: nat, input: Input)
    requires !pc.OpenIntent? || Errs(pc, input)
    ensures |Run(db, pc, window, input).0.intents| == |db.intents|
  {
    hide Run, RunPayment, RunRequest, RunRefund, OnError;
    WhoRuns(db, pc, window, input);
    RunFrames(db, pc, window, input);
    if !Errs(pc, input) && (pc.AttachSession? || pc.MoveIntent? || pc.RecordCharge?) { SameCount(db, pc, input); }
  }

  lemma SameCount(db: Db, pc: Pc, input: Input)
    requires pc.AttachSession? || pc.MoveIntent? || pc.RecordCharge?
    ensures |RunPayment(db, pc, input).0.intents| == |db.intents|
  {
    hide Settle, AfterCharge, Settled;
  }

  lemma OpeningKeepsIntents(db: Db, pc: Pc)
    requires pc.OpenIntent? && IntentsOk(db) && KnowsPayment(db, pc) && pc.provider in db.admits
    requires forall i :: 0 <= i < |db.intents| ==> Placeable(db, db.intents[i])
    ensures var intent := Intent(pc.order, pc.provider, CheckoutKey(pc.order), "", Pending, "", None, None, None);
      var db' := db.(intents := db.intents + [intent]);
      IntentsOk(db') && forall i :: 0 <= i < |db'.intents| ==> Placeable(db', db'.intents[i])
  {
    hide IdempotencyKey, Offered;
    forall i | 0 <= i < |db.intents| ensures db.intents[i].order != pc.order { assert !IntentOf(db, i, pc.order); }
  }

  lemma RunKeepsHooks(db: Db, pc: Pc, window: nat, input: Input)
    requires forall key :: key in db.hooks ==> Genuine(db.hooks[key].payment)
    ensures var db' := Run(db, pc, window, input).0; forall key :: key in db'.hooks ==> Genuine(db'.hooks[key].payment)
  {
    hide Run, RunPayment, RunRequest, RunRefund, OnError, Genuine, MarkHook;
    WhoRuns(db, pc, window, input);
    if Errs(pc, input) {
    } else if PaymentStep(pc) {
      PaymentHooks(db, pc, input);
      if pc.MarkProcessed? { MarkedHooks(db, pc.key); }
    } else if RefundStep(pc) {
      RefundLeaves(db, pc, input);
    } else {
      RequestLeaves(db, pc, window, input);
    }
  }

  lemma MarkedHooks(db: Db, key: string)
    requires forall k :: k in db.hooks ==> Genuine(db.hooks[k].payment)
    ensures forall k :: k in MarkHook(db, key).hooks ==> Genuine(MarkHook(db, key).hooks[k].payment)
  {
    hide Genuine;
  }

  lemma PaymentHooks(db: Db, pc: Pc, input: Input)
    requires PaymentStep(pc)
    ensures RunPayment(db, pc, input).0.hooks == if pc.MarkProcessed? then MarkHook(db, pc.key).hooks else db.hooks
  {
    hide CanTransitionPayment, Settle, AfterCharge, CheckoutKey, Moved, FindByRef, FindByKey, IsStale, SnapshotOf,
      MarkHook, Postable, Observe, Settled, Resume, Done, GiveUp;
  }

  lemma PaymentLedger(db: Db, pc: Pc, input: Input)
    requires PaymentStep(pc)
    ensures !pc.PostCapture? ==> RunPayment(db, pc, input).0.ledger == db.ledger
  {
    hide CanTransitionPayment, Settle, AfterCharge, CheckoutKey, Moved, FindByRef, FindByKey, IsStale, SnapshotOf,
      Postable, Observe, Settled, Resume, Done, GiveUp;
  }

  lemma RefundLeaves(db: Db, pc: Pc, input: Input)
    requires RefundStep(pc)
    ensures RunRefund(db, pc, input).0.hooks == db.hooks
    ensures !pc.PostRefund? ==> RunRefund(db, pc, input).0.ledger == db.ledger
  {
    hide LatestIntent, Live, Postable;
  }

  lemma RequestLeaves(db: Db, pc: Pc, window: nat, input: Input)
    requires !PaymentStep(pc) && !RefundStep(pc)
    ensures RunRequest(db, pc, window, input).0.hooks == db.hooks
    ensures !pc.PostRelease? ==> RunRequest(db, pc, window, input).0.ledger == db.ledger
  {
    hide Lists, BillsOf, LatestIntent, FindOpen, Decided, CanTransition, Moved, Postable, Payable, OverdueOrders;
  }

  lemma RunLeavesBehind(db: Db, pc: Pc, window: nat, input: Input, o: int64)
    requires PcOk(db, window, pc) && KnowsPayment(db, pc) && o in db.orders && PaymentBehind(db, o)
    requires Evolves(db, Run(db, pc, window, input).0)
    ensures o in Run(db, pc, window, input).0.orders && PaymentBehind(Run(db, pc, window, input).0, o)
  {
    var db' := Run(db, pc, window, input).0;
    FinishedStays(db, db', o);
    hide Run, Evolves, Finished, Post, TransitionOrder, PcOk;
    if Errs(pc, input) {
      ErrorsTakeOnNothing(db, pc, window, input, ToRefund, o);
    } else if Reads(pc) {
      ReadsTakeOnNothing(db, pc, window, input, ToRefund, o);
    } else if WritesElsewhere(pc) {
      StatusesUntouched(db, pc, window, input, o);
    } else if Posts(pc) {
      PostRuns(db, pc, window, input);
      PostCounts(db, Posting(pc), o, Capture);
    } else if Transits(pc) {
      TransitRuns(db, pc, window, input);
      TransitKeepsCapture(db, pc, window, o);
    } else {
      AcceptKeepsStarted(db, pc, window, input, o);
    }
  }

  lemma RunPostsWarranted(db: Db, pc: Pc, window: nat, input: Input, e: Event)
    requires KnowsPayment(db, pc) && Evolves(db, Run(db, pc, window, input).0)
    requires forall x :: x in db.ledger ==> Warranted(db, x)
    requires e in Run(db, pc, window, input).0.ledger
    ensures Warranted(Run(db, pc, window, input).0, e)
  {
    hide Run, Evolves, Charged, PaidFor, Postable;
    var db' := Run(db, pc, window, input).0;
    FinishedStays(db, db', e.bill.order);
    if Errs(pc, input) || !Posts(pc) {
      LedgerUntouched(db, pc, window, input);
    } else {
      PostRuns(db, pc, window, input);
      if e in db.ledger { } else { assert e == Posting(pc); }
    }
  }

  lemma LedgerUntouched(db: Db, pc: Pc, window: nat, input: Input)
    requires Errs(pc, input) || !Posts(pc)
    ensures Run(db, pc, window, input).0.ledger == db.ledger
  {
    hide Run, RunPayment, RunRequest, RunRefund, OnError;
    WhoRuns(db, pc, window, input);
    if Errs(pc, input) {
    } else if PaymentStep(pc) {
      PaymentLedger(db, pc, input);
    } else if RefundStep(pc) {
      RefundLeaves(db, pc, input);
    } else {
      RequestLeaves(db, pc, window, input);
    }
  }

  lemma RunStaysInCheckout(db: Db, pc: Pc, window: nat, input: Input, o: int64)
    ensures InCheckout(Run(db, pc, window, input).1, o) ==> InCheckout(pc, o)
  {
    WhoRuns(db, pc, window, input);
    hide Run, RunPayment, RunRequest, RunRefund, OnError, InCheckout;
    if Errs(pc, input) {
      ErrorLeavesCheckout(pc, o);
    } else if PaymentStep(pc) {
      PaymentStaysInCheckout(db, pc, input, o);
    } else {
      OthersStayOut(db, pc, window, input, o);
    }
  }

  lemma ErrorLeavesCheckout(pc: Pc, o: int64)
    ensures !InCheckout(OnError(pc), o)
  {
    hide CanTransitionPayment;
  }

  lemma PaymentStaysInCheckout(db: Db, pc: Pc, input: Input, o: int64)
    requires PaymentStep(pc)
    ensures InCheckout(RunPayment(db, pc, input).1, o) ==> InCheckout(pc, o)
  {
    hide CanTransitionPayment, CreateIntent, CheckoutKey, Moved, FindByRef, FindByKey, IsStale, SnapshotOf, Postable;
  }

  lemma OthersStayOut(db: Db, pc: Pc, window: nat, input: Input, o: int64)
    requires !PaymentStep(pc)
    ensures RefundStep(pc) ==> !InCheckout(RunRefund(db, pc, input).1, o)
    ensures !RefundStep(pc) ==> !InCheckout(RunRequest(db, pc, window, input).1, o)
  {
    hide Moved, CanTransition, Lists, BillsOf, LatestIntent, FindOpen, Live, Postable;
  }

  // ----- every run -----

  lemma ActKeepsCheckouts(s: State, a: nat, input: Input)
    requires Inv(s) && CheckoutInv(s)
    ensures CheckoutInv(Step(s, Act(a, input)))
  {
    hide *;
    var pc := PcOf(s.actors, a);
    var (db', pc') := Run(s.db, pc, s.window, input);
    var s' := s.(db := db', actors := s.actors[a := pc']);
    ActIs(s, a, input);
    InvParts(s);
    PcOkOf(s, a);
    CheckoutParts(s);
    KnowsNow(s, a);
    RunEvolves(s.db, pc, s.window, input);
    RunLearns(s.db, pc, s.window, input);
    RunKeepsPaymentRows(s.db, pc, s.window, input);
    forall b | b in s'.actors ensures KnowsPayment(db', s'.actors[b]) {
      if b != a {
        forall o | InCheckout(s.actors[b], o) ensures LeavesCheckout(s.db, db', o) {
          NotBoth(s, a, b, o);
          RunLeavesCheckout(s.db, pc, s.window, input, o);
        }
        KnowledgeStays(s.db, db', s.actors[b]);
      }
    }
    forall b, c, o | b in s'.actors && c in s'.actors && InCheckout(s'.actors[b], o) && InCheckout(s'.actors[c], o)
      ensures b == c
    {
      RunStaysInCheckout(s.db, pc, s.window, input, o);
      if b == a && c != a { NotBoth(s, a, c, o); }
      if c == a && b != a { NotBoth(s, a, b, o); }
    }
    CheckoutWhole(s');
  }

  lemma ActIs(s: State, a: nat, input: Input)
    ensures var (db', pc') := Run(s.db, PcOf(s.actors, a), s.window, input);
      Step(s, Act(a, input)) == s.(db := db', actors := s.actors[a := pc'])
  {
    hide Run, PcOf;
  }

  lemma CheckoutParts(s: State)
    requires CheckoutInv(s)
    ensures PaymentRowsOk(s.db) && forall a :: a in s.actors ==> KnowsPayment(s.db, s.actors[a])
    ensures forall a, b, o ::
      a in s.actors && b in s.actors && InCheckout(s.actors[a], o) && InCheckout(s.actors[b], o) ==> a == b
  {
  }

  lemma CheckoutWhole(s: State)
    requires PaymentRowsOk(s.db) && forall a :: a in s.actors ==> KnowsPayment(s.db, s.actors[a])
    requires forall a, b, o ::
      a in s.actors && b in s.actors && InCheckout(s.actors[a], o) && InCheckout(s.actors[b], o) ==> a == b
    ensures CheckoutInv(s)
  {
  }

  lemma KnowsNow(s: State, a: nat)
    requires CheckoutInv(s)
    ensures KnowsPayment(s.db, PcOf(s.actors, a))
  {
    hide PaymentRowsOk, InCheckout;
  }

  /** Two actors are never in the checkout of the same order. */
  lemma NotBoth(s: State, a: nat, b: nat, o: int64)
    requires CheckoutInv(s) && a != b && b in s.actors && InCheckout(s.actors[b], o)
    ensures !InCheckout(PcOf(s.actors, a), o)
  {
    hide PaymentRowsOk, KnowsPayment;
  }

  lemma CheckoutStep(s: State, action: Action)
    requires Inv(s) && CheckoutInv(s)
    ensures CheckoutInv(Step(s, action))
  {
    hide *;
    if action.Act? { ActKeepsCheckouts(s, action.actor, action.input); } else { OutsideKeepsCheckouts(s, action); }
  }

  lemma OutsideKeepsCheckouts(s: State, action: Action)
    requires !action.Act? && CheckoutInv(s)
    ensures CheckoutInv(Step(s, action))
  {
    hide *;
    var s' := Step(s, action);
    CheckoutParts(s);
    OutsideEvolves(s, action);
    OutsideRows(s, action);
    forall b | b in s'.actors ensures KnowsPayment(s'.db, s'.actors[b]) {
      OutsideActor(s, action, b);
      if b in s.actors && s'.actors[b] == s.actors[b] {
        forall o | InCheckout(s.actors[b], o) ensures LeavesCheckout(s.db, s'.db, o) { OutsideLeaves(s, action, o); }
        KnowledgeStays(s.db, s'.db, s.actors[b]);
      }
    }
    forall b, c, o | b in s'.actors && c in s'.actors && InCheckout(s'.actors[b], o) && InCheckout(s'.actors[c], o)
      ensures b == c
    {
      OutsideActor(s, action, b);
      OutsideActor(s, action, c);
      OnePlaces(s, action, b, c, o);
    }
    CheckoutWhole(s');
  }

  lemma OutsideEvolves(s: State, action: Action)
    requires !action.Act?
    ensures Evolves(s.db, Step(s, action).db) && Step(s, action).db.intents == s.db.intents
    ensures Step(s, action).db.ledger == s.db.ledger
  {
    hide Placed, PcOf, EntryPoint, CanTransitionPayment, ProviderOf;
  }

  lemma OutsideLeaves(s: State, action: Action, o: int64)
    requires !action.Act?
    ensures LeavesCheckout(s.db, Step(s, action).db, o)
  {
    OutsideEvolves(s, action);
    hide Step, Evolves;
  }

  lemma OutsideRows(s: State, action: Action)
    requires !action.Act? && PaymentRowsOk(s.db)
    ensures PaymentRowsOk(Step(s, action).db)
  {
    hide *;
    var db' := Step(s, action).db;
    RowsParts(s.db);
    OutsideEvolves(s, action);
    SameIntents(s.db, db');
    OutsideHooks(s, action);
    forall o | o in db'.orders ensures PaymentBehind(db', o) {
      FinishedStays(s.db, db', o);
      OutsideOrder(s, action, o);
    }
    forall e | e in db'.ledger ensures Warranted(db', e) {
      FinishedStays(s.db, db', e.bill.order);
      StillWarranted(s.db, db', e);
    }
    RowsWhole(db');
  }

  lemma StillWarranted(db: Db, db': Db, e: Event)
    requires Warranted(db, e)
    requires (Charged(db, e.bill.order) ==> Charged(db', e.bill.order))
      && (PaidFor(db, e.bill.order) ==> PaidFor(db', e.bill.order))
    ensures Warranted(db', e)
  {
  }

  lemma SameIntents(db: Db, db': Db)
    requires Evolves(db, db') && |db'.intents| == |db.intents| && IntentsOk(db)
    requires forall i :: 0 <= i < |db.intents| ==> Placeable(db, db.intents[i])
    ensures IntentsOk(db')
    ensures forall i :: 0 <= i < |db'.intents| ==> Placeable(db', db'.intents[i])
  {
    hide IdempotencyKey, CanTransitionPayment, Offered;
  }

  lemma OutsideHooks(s: State, action: Action)
    requires !action.Act? && forall key :: key in s.db.hooks ==> Genuine(s.db.hooks[key].payment)
    ensures forall key :: key in Step(s, action).db.hooks ==> Genuine(Step(s, action).db.hooks[key].payment)
  {
    hide Placed, PcOf, EntryPoint, Genuine;
  }

  lemma OutsideOrder(s: State, action: Action, o: int64)
    requires !action.Act? && o in Step(s, action).db.orders && (o in s.db.orders ==> PaymentBehind(s.db, o))
    requires Finished(s.db, o) ==> Finished(Step(s, action).db, o)
    ensures PaymentBehind(Step(s, action).db, o)
  {
    hide PcOf, EntryPoint, Finished;
  }

  /** Who an actor is after something other than a store call. */
  lemma OutsideActor(s: State, action: Action, b: nat)
    requires !action.Act? && b in Step(s, action).actors && CheckoutInv(s)
    ensures var pc := Step(s, action).actors[b];
      || (b in s.actors && pc == s.actors[b])
      || pc.Idle? || EntryPoint(pc)
      || (action.PlaceOrder? && action.actor == b && action.bill.order !in s.db.orders && pc.OpenIntent?
          && pc.order == action.bill.order)
    ensures !(b in s.actors && Step(s, action).actors[b] == s.actors[b]) ==>
      KnowsPayment(Step(s, action).db, Step(s, action).actors[b])
  {
    CheckoutParts(s);
    RowsParts(s.db);
    hide CheckoutInv, PaymentRowsOk, IntentsOk, Placed, PaymentBehind, Charged, Genuine;
    if action.PlaceOrder? {
      forall i: nat ensures !IntentOf(s.db, i, action.bill.order) || action.bill.order in s.db.orders { }
    }
  }

  lemma OnePlaces(s: State, action: Action, b: nat, c: nat, o: int64)
    requires !action.Act? && CheckoutInv(s)
    requires b in Step(s, action).actors && c in Step(s, action).actors
    requires InCheckout(Step(s, action).actors[b], o) && InCheckout(Step(s, action).actors[c], o)
    ensures b == c
  {
    CheckoutParts(s);
    OutsideActor(s, action, b);
    OutsideActor(s, action, c);
    forall x | x in s.actors && InCheckout(s.actors[x], o) ensures o in s.db.orders { CheckoutOrderKnown(s, x, o); }
    hide Step, CheckoutInv, KnowsPayment, PaymentRowsOk;
  }

  lemma CheckoutOrderKnown(s: State, x: nat, o: int64)
    requires CheckoutInv(s) && x in s.actors && InCheckout(s.actors[x], o)
    ensures o in s.db.orders
  {
    assert KnowsPayment(s.db, s.actors[x]);
    hide IntentsOk, PaymentBehind, Charged, Genuine;
  }

  lemma {:induction false} EveryCheckout(now: int, window: nat, admits: set<string>, run: seq<Action>)
    ensures CheckoutInv(After(now, window, admits, run))
  {
    if run == [] {
      NoCheckouts(now, window, admits);
    } else {
      var n := |run| - 1;
      EveryCheckout(now, window, admits, run[..n]);
      EveryRun(now, window, admits, run[..n]);
      CheckoutStep(After(now, window, admits, run[..n]), run[n]);
      hide Inv, CheckoutInv, Step;
    }
  }

  lemma NoCheckouts(now: int, window: nat, admits: set<string>)
    ensures CheckoutInv(Start(now, window, admits))
  {
  }

  lemma ReachableCheckouts(s: State)
    requires Reachable(s)
    ensures CheckoutInv(s) && PaymentRowsOk(s.db)
  {
    hide CheckoutInv, PaymentRowsOk, After;
    var now, window, admits, run :| s == After(now, window, admits, run);
    EveryCheckout(now, window, admits, run);
    CheckoutParts(s);
  }

  // ----- what follows -----

  /** Keys derived from the order, and a checkout that happens once, leave no order with two payment intents; and every
      intent is for an order that exists, with a provider that is offered and admitted. */
  lemma OneIntentPerOrder(s: State)
    requires Reachable(s)
    ensures IntentsOk(s.db) && forall i :: 0 <= i < |s.db.intents| ==> Placeable(s.db, s.db.intents[i])
  {
    hide *;
    ReachableCheckouts(s);
    RowsParts(s.db);
  }

  /** The checkout's key is never taken when it comes to use it: the intent is refused exactly when the payments table
      does not admit the provider's name, and then the checkout is over. */
  lemma CheckoutOpensUnlessRefused(s: State, a: nat, input: Input)
    requires Reachable(s) && a in s.actors && s.actors[a].OpenIntent?
    ensures var o, provider, s' := s.actors[a].order, s.actors[a].provider, Step(s, Act(a, input));
      if provider in s.db.admits
      then s'.actors[a] == CreateSession(o, |s.db.intents|, provider)
        && s'.db.intents == s.db.intents + [Intent(o, provider, CheckoutKey(o), "", Pending, "", None, None, None)]
      else s'.actors[a] == Idle && s'.db == s.db
  {
    hide Reachable, Inv, CheckoutInv, PaymentRowsOk;
    ReachableCheckouts(s);
    CheckoutParts(s);
    RowsParts(s.db);
    KeyIsNew(s.db, s.actors[a].order, s.actors[a].provider);
    ActIs(s, a, input);
    OpeningIs(s.db, s.actors[a], s.window, input);
    hide Step, Run, CheckoutKey, IntentsOk, PaymentBehind, Charged;
  }

  lemma KeyIsNew(db: Db, o: int64, provider: string)
    requires IntentsOk(db) && KnowsPayment(db, OpenIntent(o, provider))
    ensures forall i :: 0 <= i < |db.intents| ==> db.intents[i].key != CheckoutKey(o)
  {
    forall i | 0 <= i < |db.intents| ensures db.intents[i].key != CheckoutKey(o) {
      assert !IntentOf(db, i, o);
      if db.intents[i].key == CheckoutKey(o) {
        IdempotencyKeyInjective("checkout", o, 0, "checkout", db.intents[i].order, 0);
      }
    }
  }

  lemma OpeningIs(db: Db, pc: Pc, window: nat, input: Input)
    requires pc.OpenIntent? && forall i :: 0 <= i < |db.intents| ==> db.intents[i].key != CheckoutKey(pc.order)
    ensures Run(db, pc, window, input)
      == (if pc.provider in db.admits
        then (db.(intents := db.intents
            + [Intent(pc.order, pc.provider, CheckoutKey(pc.order), "", Pending, "", None, None, None)]),
          CreateSession(pc.order, |db.intents|, pc.provider))
        else (db, Idle))
  {
    hide CheckoutKey;
  }

  /** The shipped payments table admits neither chain by the name it is configured under: in every run with that table
      all intents are with providers that send webhooks, and no stablecoin order ever gets one. */
  lemma SchemaAdmitsNoChain(now: int, window: nat, run: seq<Action>, i: nat)
    requires i < |After(now, window, SCHEMA_PROVIDERS, run).db.intents|
    ensures SendsWebhooks(After(now, window, SCHEMA_PROVIDERS, run).db.intents[i].provider)
  {
    var s := After(now, window, SCHEMA_PROVIDERS, run);
    SchemaStays(now, window, SCHEMA_PROVIDERS, run);
    OneIntentPerOrder(s) by { assert Reachable(s); }
    hide After, IntentsOk;
    assert Placeable(s.db, s.db.intents[i]);
  }

  /** Which means of payment that leaves out: the four stablecoin ones. Cards go to stripe, and so does any means that
      is not known; bitcoin goes to btcpay, on chain or not. */
  lemma MeansAdmitted(means: string)
    ensures ProviderOf(means) in SCHEMA_PROVIDERS
      <==> means !in {"usdc-base", "usdt-base", "usdc-polygon", "usdt-polygon"}
    ensures ProviderOf(means) == "btcpay" <==> means in {"bitcoin", "lightning"}
    ensures ProviderOf(means) == "evm-base" <==> means in {"usdc-base", "usdt-base"}
    ensures SendsWebhooks(ProviderOf(means)) <==> ProviderOf(means) in SCHEMA_PROVIDERS
  {
    assert "evm-base"[3] == "evm-polygon"[3] == '-' && |"evm-base"| != |"evm-polygon"|;
  }

  lemma {:induction false} SchemaStays(now: int, window: nat, admits: set<string>, run: seq<Action>)
    ensures After(now, window, admits, run).db.admits == admits
  {
    if run != [] {
      var n := |run| - 1;
      var s := After(now, window, admits, run[..n]);
      SchemaStays(now, window, admits, run[..n]);
      StepKeepsSchema(s, run[n]);
      hide Step;
    }
  }

  lemma StepKeepsSchema(s: State, action: Action)
    ensures Step(s, action).db.admits == s.db.admits
  {
    if action.Act? {
      ActIs(s, action.actor, action.input);
      RunFrames(s.db, PcOf(s.actors, action.actor), s.window, action.input);
      hide Step, Run, PcOf;
    } else {
      OutsideEvolves(s, action);
      hide Step;
    }
  }

  /** Stale reads notwithstanding, every change of a payment follows the table, so a finished payment stays as it is; it
      keeps its order and, once it has one, its session. */
  lemma PaymentsFollowTable(s: State, action: Action, i: nat)
    requires Reachable(s) && i < |s.db.intents|
    ensures var s' := Step(s, action);
      i < |s'.db.intents| && IntentMoves(s.db.intents[i], s'.db.intents[i])
      && (Final(s.db.intents[i].status) ==> s'.db.intents[i].status == s.db.intents[i].status)
      && (s'.db.intents[i].status != s.db.intents[i].status ==>
            s'.db.intents[i].status != Pending
            && (s.db.intents[i].status == Pending
                || (s.db.intents[i].status == Processing && s'.db.intents[i].status in {Succeeded, Failed})))
  {
    hide *;
    StepEvolves(s, action);
    EvolvesAt(s.db, Step(s, action).db, i);
    FinalStays(s.db.intents[i], Step(s, action).db.intents[i]);
    PaymentEnteredFrom(s.db.intents[i].status, Step(s, action).db.intents[i].status);
    TableMoves(s.db.intents[i], Step(s, action).db.intents[i]);
  }

  lemma TableMoves(before: Intent, after: Intent)
    requires IntentMoves(before, after)
    ensures after.status == before.status || CanTransitionPayment(before.status, after.status)
  {
    hide CanTransitionPayment;
  }

  lemma EvolvesAt(db: Db, db': Db, i: nat)
    requires Evolves(db, db') && i < |db.intents|
    ensures i < |db'.intents| && IntentMoves(db.intents[i], db'.intents[i])
  {
  }

  lemma StepEvolves(s: State, action: Action)
    requires Reachable(s)
    ensures Evolves(s.db, Step(s, action).db)
  {
    hide *;
    ReachableInv(s);
    ReachableCheckouts(s);
    InvParts(s);
    if action.Act? {
      PcOkOf(s, action.actor);
      KnowsNow(s, action.actor);
      ActIs(s, action.actor, action.input);
      RunEvolves(s.db, PcOf(s.actors, action.actor), s.window, action.input);
    } else {
      OutsideEvolves(s, action);
    }
  }

  /** The stamp that goes with how a payment ended is set, and no other. */
  predicate Stamped(row: Intent)
  {
    && (row.succeededAt.Some? <==> row.status == Succeeded)
    && (row.failedAt.Some? <==> row.status == Failed)
    && (row.canceledAt.Some? <==> row.status == Canceled)
  }

  ghost predicate AllStamped(intents: seq<Intent>)
  {
    forall row :: row in intents ==> Stamped(row)
  }

  /** In every run the stamps of a payment say how it ended: a second ending would leave two. */
  lemma {:induction false} StampsSayHow(now: int, window: nat, admits: set<string>, run: seq<Action>)
    ensures AllStamped(After(now, window, admits, run).db.intents)
  {
    if run != [] {
      var before := After(now, window, admits, run[..|run| - 1]);
      StampsSayHow(now, window, admits, run[..|run| - 1]);
      EveryRun(now, window, admits, run[..|run| - 1]);
      hide After, Inv, AllStamped;
      StampsStep(before, run[|run| - 1]);
    }
  }

  lemma StampsStep(s: State, action: Action)
    requires Inv(s) && AllStamped(s.db.intents)
    ensures AllStamped(Step(s, action).db.intents)
  {
    hide *;
    if action.Act? {
      InvParts(s);
      PcOkOf(s, action.actor);
      ActIs(s, action.actor, action.input);
      RunKeepsStamps(s.db, PcOf(s.actors, action.actor), s.window, action.input);
    } else {
      OutsideIntents(s, action);
    }
  }

  lemma OutsideIntents(s: State, action: Action)
    requires !action.Act?
    ensures Step(s, action).db.intents == s.db.intents
  {
    hide IdempotencyKey, Placed, PcOf, EntryPoint;
  }

  lemma RunKeepsStamps(db: Db, pc: Pc, window: nat, input: Input)
    requires PcOk(db, window, pc) && AllStamped(db.intents)
    ensures AllStamped(Run(db, pc, window, input).0.intents)
  {
    WhoRuns(db, pc, window, input);
    RunFrames(db, pc, window, input);
    hide Run, RunRefund, RunRequest, OnError, CheckoutKey, Observe, AfterCharge, Settle, FindByRef, FindByKey, Resume,
      AllStamped, TransitionIntent, CreateIntent, SetSession, SetChargeRef;
    match pc
    case MoveIntent(i, _, seen, next, _) => SettledOnce(db, i, seen, next);
    case OpenIntent(o, provider) => OpenedUnstamped(db, o, provider);
    case AttachSession(_, i, ref) => StampsUntouched(db, i, ref);
    case RecordCharge(i, _, _, payment, _) => StampsUntouched(db, i, payment.chargeRef);
    case _ =>
  }

  lemma OpenedUnstamped(db: Db, o: int64, provider: string)
    requires AllStamped(db.intents)
    ensures AllStamped(CreateIntent(db, o, provider, CheckoutKey(o)).0.intents)
  {
    hide CheckoutKey;
  }

  lemma StampsUntouched(db: Db, i: nat, ref: string)
    requires AllStamped(db.intents)
    ensures AllStamped(SetSession(db, i, ref).intents) && AllStamped(SetChargeRef(db, i, ref).intents)
  {
    if i < |db.intents| { assert db.intents[i] in db.intents; }
  }

  lemma SettledOnce(db: Db, i: nat, from: PaymentStatus, to: PaymentStatus)
    requires AllStamped(db.intents) && CanTransitionPayment(from, to)
    ensures AllStamped(TransitionIntent(db, i, from, to).0.intents)
  {
    PaymentEnteredFrom(from, to);
    hide CanTransitionPayment;
    if i < |db.intents| { assert db.intents[i] in db.intents; }
  }
}
