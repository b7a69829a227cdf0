/** Invariants of every interleaving of the actors. */
module Protocol {
  import opened Int64
  import opened Ledger
  import opened Orders
  import opened Payments
  import opened StoreRows
  import opened Actors

  // ----- what the rows always satisfy -----

  predicate Known(db: Db, b: Bill)
  {
    b.order in db.orders && db.orders[b.order].bill == b
  }

  predicate HasStarted(db: Db, o: int64)
  {
    o in db.orders && Started(db.orders[o].status)
  }

  predicate OrderOk(db: Db, o: int64)
    requires o in db.orders
  {
    db.orders[o].bill.order == o && db.orders[o].revisionsUsed <= db.orders[o].revisionsAllowed
      && Consistent(db.orders[o], db.now)
  }

  ghost predicate DbOk(db: Db)
  {
    && (forall o :: o in db.orders ==> OrderOk(db, o))
    && (forall row :: row in db.cancellations ==> HasStarted(db, row.order))
    && (forall row :: row in db.disputes ==> HasStarted(db, row.order))
    && (forall e :: e in db.ledger ==> Postable(e) && Known(db, e.bill))
  }

  predicate DistinctBills(bills: seq<Bill>)
  {
    forall i, j :: 0 <= i < j < |bills| ==> bills[i].order != bills[j].order
  }

  ghost predicate BillsKnown(db: Db, bills: seq<Bill>)
  {
    DistinctBills(bills) && forall b :: b in bills ==> Known(db, b)
  }

  /** What an actor may rely on about what it remembers, however stale. */
  ghost predicate PcOk(db: Db, window: nat, pc: Pc)
  {
    match pc
    case MoveIntent(_, _, seen, next, _) => CanTransitionPayment(seen, next)
    case ClaimPaid(bill, _) => Known(db, bill)
    case PostCapture(bill, _) => Known(db, bill)
    case Advance(o, _) => o in db.orders
    case UseRevision(o, from) => CanTransition(from, RevisionRequested) && HasStarted(db, o)
    case OpenRow(matter, o, from) => CanTransition(from, Target(Ask(matter))) && HasStarted(db, o)
    case FindRow(matter, o, from, to) => ValidOutcome(matter, to)
    case CloseRow(matter, o, row, from, to) => ValidOutcome(matter, to) && CanTransition(from, to) && HasStarted(db, o)
    case Move(bill, from, to) => Known(db, bill) && CanTransition(from, to) && HasStarted(db, bill.order) && Started(to)
    case AcceptOverdue(cutoff) => cutoff <= db.now - window
    case ReleaseNext(bills) => BillsKnown(db, bills)
    case PostRelease(bill, rest) => BillsKnown(db, [bill] + rest)
    case LoadCharge(bill, _) => Known(db, bill)
    case CheckRefund(bill, _) => Known(db, bill)
    case CallProvider(bill, _) => Known(db, bill)
    case InsertRefund(bill, _, _) => Known(db, bill)
    case StoreAnswer(bill, row, _, _) =>
      Known(db, bill) && row < |db.refunds| && db.refunds[row] == RefundRow(bill.order, RefundPending)
    case PostRefund(bill, row, _) =>
      Known(db, bill) && row < |db.refunds| && db.refunds[row] == RefundRow(bill.order, RefundSucceeded)
    case _ => true
  }

  predicate OrderGrows(db: Db, db': Db, o: int64)
    requires o in db.orders
  {
    o in db'.orders && db'.orders[o].bill == db.orders[o].bill && db.orders[o].visits <= db'.orders[o].visits
      && (Started(db.orders[o].status) ==> Started(db'.orders[o].status))
  }

  /** How the rows may change under an actor's feet. */
  ghost predicate Grows(db: Db, db': Db)
  {
    && db.now <= db'.now
    && (forall o :: o in db.orders ==> OrderGrows(db, db', o))
    && |db.refunds| <= |db'.refunds|
  }

  /** The refund row an actor is working on. */
  predicate WorksOn(pc: Pc, row: nat)
  {
    (pc.StoreAnswer? || pc.PostRefund?) && pc.row == row
  }

  lemma PcOkStable(db: Db, db': Db, window: nat, pc: Pc)
    requires PcOk(db, window, pc) && Grows(db, db')
    requires forall row: nat :: WorksOn(pc, row) && row < |db.refunds| ==> db'.refunds[row] == db.refunds[row]
    ensures PcOk(db', window, pc)
  {
    KnownStays(db, db');
    hide Known, HasStarted, CanTransition, CanTransitionPayment, Started, PcOk;
    if PaymentStep(pc) {
      PaymentOkStable(db, db', window, pc);
    } else if RefundStep(pc) {
      RefundOkStable(db, db', window, pc);
    } else {
      RequestOkStable(db, db', window, pc);
    }
  }

  lemma PaymentOkStable(db: Db, db': Db, window: nat, pc: Pc)
    requires PcOk(db, window, pc) && Grows(db, db') && PaymentStep(pc) && forall b :: Known(db, b) ==> Known(db', b)
    ensures PcOk(db', window, pc)
  {
    hide Known, CanTransitionPayment, Started;
  }

  lemma RefundOkStable(db: Db, db': Db, window: nat, pc: Pc)
    requires PcOk(db, window, pc) && Grows(db, db') && RefundStep(pc) && forall b :: Known(db, b) ==> Known(db', b)
    requires forall row: nat :: WorksOn(pc, row) && row < |db.refunds| ==> db'.refunds[row] == db.refunds[row]
    ensures PcOk(db', window, pc)
  {
    hide Known, Started;
    assert pc.StoreAnswer? || pc.PostRefund? ==> WorksOn(pc, pc.row);
  }

  lemma RequestOkStable(db: Db, db': Db, window: nat, pc: Pc)
    requires PcOk(db, window, pc) && Grows(db, db') && !PaymentStep(pc) && !RefundStep(pc)
    requires (forall b :: Known(db, b) ==> Known(db', b)) && (forall o :: HasStarted(db, o) ==> HasStarted(db', o))
    ensures PcOk(db', window, pc)
  {
    hide Known, HasStarted, CanTransition, Started;
  }

  lemma KnownStays(db: Db, db': Db)
    requires Grows(db, db')
    ensures forall b :: Known(db, b) ==> Known(db', b)
    ensures forall o :: HasStarted(db, o) ==> HasStarted(db', o)
  {
    hide Started;
  }

  // ----- one statement at a time -----

  lemma TransitionKeeps(db: Db, o: int64, from: Status, to: Status)
    requires DbOk(db) && CanTransition(from, to) && to != PendingPayment
    ensures DbOk(TransitionOrder(db, o, from, to).0) && Grows(db, TransitionOrder(db, o, from, to).0)
  {
    var db' := TransitionOrder(db, o, from, to).0;
    hide Consistent, CanTransition, Started, Moved, OrderOk, Postable, HasStarted;
    if o in db.orders && db.orders[o].status == from {
      MovedOk(db, o, to);
      hide TransitionOrder;
      forall p | p in db'.orders ensures OrderOk(db', p) { if p != o { SameOrder(db, db', p); } }
      forall p | p in db.orders ensures OrderGrows(db, db', p) { }
      OthersKept(db, db');
    }
  }

  lemma MovedOk(db: Db, o: int64, to: Status)
    requires o in db.orders && OrderOk(db, o) && CanTransition(db.orders[o].status, to) && to != PendingPayment
    ensures var db' := db.(orders := db.orders[o := Moved(db.orders[o], to, db.now)]);
      OrderOk(db', o) && OrderGrows(db, db', o)
  {
    MovedConsistent(db.orders[o], to, db.now);
    hide Consistent;
  }

  lemma SameOrder(db: Db, db': Db, p: int64)
    requires p in db.orders && p in db'.orders && db'.orders[p] == db.orders[p] && db'.now == db.now && OrderOk(db, p)
    ensures OrderOk(db', p)
  {
    hide Consistent;
  }

  /** Requests and postings stay valid when orders only grow. */
  lemma OthersKept(db: Db, db': Db)
    requires DbOk(db) && Grows(db, db')
    requires db'.cancellations == db.cancellations && db'.disputes == db.disputes && db'.ledger == db.ledger
    ensures forall row :: row in db'.cancellations ==> HasStarted(db', row.order)
    ensures forall row :: row in db'.disputes ==> HasStarted(db', row.order)
    ensures forall e :: e in db'.ledger ==> Postable(e) && Known(db', e.bill)
  {
    hide Consistent, Started, Postable, OrderOk;
  }

  lemma AutoAcceptKeeps(db: Db, cutoff: int)
    requires DbOk(db)
    ensures DbOk(AutoAcceptOrders(db, cutoff)) && Grows(db, AutoAcceptOrders(db, cutoff))
  {
    hide Consistent;
    var db' := AutoAcceptOrders(db, cutoff);
    forall p | p in db'.orders ensures OrderOk(db', p) && p in db.orders {
      assert OrderOk(db, p);
      if Overdue(db.orders[p], cutoff) { MovedConsistent(db.orders[p], Accepted, db.now); }
    }
    OthersKept(db, db');
  }

  lemma RevisionKeeps(db: Db, o: int64)
    requires DbOk(db)
    ensures DbOk(ConsumeRevision(db, o).0) && Grows(db, ConsumeRevision(db, o).0)
  {
    var (db', used) := ConsumeRevision(db, o);
    hide Consistent, Started, Postable, OrderOk, HasStarted;
    if used {
      RevisedOk(db, o);
      forall p | p in db'.orders ensures OrderOk(db', p) { if p != o { SameOrder(db, db', p); } }
      OthersKept(db, db');
    }
  }

  lemma RevisedOk(db: Db, o: int64)
    requires o in db.orders && OrderOk(db, o) && db.orders[o].revisionsUsed < db.orders[o].revisionsAllowed
    ensures var db' := ConsumeRevision(db, o).0; OrderOk(db', o) && OrderGrows(db, db', o)
  {
    var row := db.orders[o];
    assert Consistent(row.(revisionsUsed := row.revisionsUsed + 1), db.now);
    hide Consistent, Started;
  }

  lemma PostKeeps(db: Db, e: Event)
    requires DbOk(db) && Known(db, e.bill)
    ensures DbOk(Post(db, e).0) && Grows(db, Post(db, e).0)
  {
    hide Consistent, Started, Postable;
    var db' := Post(db, e).0;
    forall p | p in db'.orders ensures OrderOk(db', p) { assert OrderOk(db, p); }
  }

  lemma RequestKeeps(db: Db, matter: Matter, o: int64)
    requires DbOk(db) && HasStarted(db, o)
    ensures DbOk(OpenRequest(db, matter, o)) && Grows(db, OpenRequest(db, matter, o))
  {
    hide Consistent, Started, Postable;
    var db' := OpenRequest(db, matter, o);
    forall p | p in db'.orders ensures OrderOk(db', p) { assert OrderOk(db, p); }
  }

  lemma CloseKeeps(db: Db, matter: Matter, row: nat)
    requires DbOk(db)
    ensures DbOk(CloseRequest(db, matter, row).0) && Grows(db, CloseRequest(db, matter, row).0)
  {
    hide Consistent, Started, Postable;
    var rows := Requests(db, matter);
    var db' := CloseRequest(db, matter, row).0;
    forall p | p in db'.orders ensures OrderOk(db', p) { assert OrderOk(db, p); }
    if row < |rows| {
      assert rows[row] in rows;
      forall r | r in rows[row := rows[row].(open := false)] ensures HasStarted(db, r.order) { }
    }
  }

  /** Rows that carry no invariant of their own. */
  lemma RefundsKeep(db: Db, db': Db)
    requires DbOk(db) && db'.orders == db.orders && db'.now == db.now
    requires db'.cancellations == db.cancellations && db'.disputes == db.disputes && db'.ledger == db.ledger
    requires |db.refunds| <= |db'.refunds|
    ensures DbOk(db') && Grows(db, db')
  {
    hide Consistent, Started, Postable;
    forall p | p in db'.orders ensures OrderOk(db', p) { assert OrderOk(db, p); }
  }

  // ----- what a step leaves alone -----

  /** Orders are neither added nor removed, the ledger only grows, and intents and refunds change only where they are
      the point. */
  predicate Frames(db: Db, pc: Pc, db': Db)
  {
    && db'.orders.Keys == db.orders.Keys
    && db.ledger <= db'.ledger
    && (pc.OpenIntent? || pc.AttachSession? || pc.MoveIntent? || pc.RecordCharge? || db'.intents == db.intents)
    && db'.admits == db.admits
    && (pc.InsertRefund? || pc.StoreAnswer? || db'.refunds == db.refunds)
    && (pc.UseRevision? || (db'.revisions == db.revisions && SameAllowances(db, db')))
  }

  predicate SameAllowances(db: Db, db': Db)
  {
    forall o :: o in db.orders && o in db'.orders ==> db'.orders[o].revisionsUsed == db.orders[o].revisionsUsed
  }

  lemma PaymentFrames(db: Db, pc: Pc, input: Input)
    requires PaymentStep(pc)
    ensures Frames(db, pc, RunPayment(db, pc, input).0)
  {
    hide FindByRef, IsStale, SnapshotOf, Observe, AfterCharge, Settle, Settled, Postable, CheckoutKey;
  }

  lemma RequestFrames(db: Db, pc: Pc, window: nat, input: Input)
    requires !PaymentStep(pc) && !RefundStep(pc)
    ensures Frames(db, pc, RunRequest(db, pc, window, input).0)
  {
    hide LatestIntent, Payable, Decided, FindOpen, CanTransition, Overdue, Lists, BillsOf, Postable;
  }

  lemma RefundFrames(db: Db, pc: Pc, input: Input)
    requires RefundStep(pc)
    ensures Frames(db, pc, RunRefund(db, pc, input).0)
  {
    hide LatestIntent, Live, Postable;
  }

  lemma RunFrames(db: Db, pc: Pc, window: nat, input: Input)
    ensures Frames(db, pc, Run(db, pc, window, input).0)
  {
    WhoRuns(db, pc, window, input);
    hide Run, Frames, RunPayment, RunRefund, RunRequest, OnError, Errs;
    SameFrames(db, pc);
    if PaymentStep(pc) {
      PaymentFrames(db, pc, input);
    } else if RefundStep(pc) {
      RefundFrames(db, pc, input);
    } else {
      RequestFrames(db, pc, window, input);
    }
  }

  lemma SameFrames(db: Db, pc: Pc)
    ensures Frames(db, pc, db)
  {
  }

  // ----- one step of one actor -----

  /** Steps that only read. */
  predicate Reads(pc: Pc)
  {
    !(pc.OpenIntent? || pc.AttachSession? || pc.MarkProcessed? || pc.RecordCharge? || pc.MoveIntent? || pc.ClaimPaid?
      || pc.PostCapture? || pc.Advance?
      || pc.MoveToFailed?
      || pc.UseRevision? || pc.OpenRow? || pc.CloseRow? || pc.Move? || pc.AcceptOverdue? || pc.PostRelease?
      || pc.InsertRefund? || pc.StoreAnswer? || pc.PostRefund?)
  }

  lemma PaymentReads(db: Db, pc: Pc, window: nat, input: Input)
    requires DbOk(db) && PcOk(db, window, pc) && PaymentStep(pc) && Reads(pc)
    ensures var (db', pc') := RunPayment(db, pc, input); db' == db && PcOk(db, window, pc')
  {
    hide DbOk, Known, CanTransitionPayment, FindByRef, IsStale, SnapshotOf;
    if pc.LoadForCapture? { KnownBill(db, pc.order); }
  }

  lemma PaymentKeeps(db: Db, pc: Pc, window: nat, input: Input)
    requires DbOk(db) && PcOk(db, window, pc) && PaymentStep(pc)
    ensures var (db', pc') := RunPayment(db, pc, input); DbOk(db') && Grows(db, db') && PcOk(db', window, pc')
  {
    hide DbOk, Grows, PcOk, RunPayment;
    if Reads(pc) {
      PaymentReads(db, pc, window, input);
      SameDb(db);
    } else if pc.OpenIntent? || pc.AttachSession? {
      CheckoutKeeps(db, pc, window, input);
    } else if pc.MarkProcessed? || pc.RecordCharge? || pc.MoveIntent? {
      WorkerKeeps(db, pc, window, input);
    } else {
      SettlingKeeps(db, pc, window, input);
    }
  }

  /** Webhook events and intents. */
  lemma WorkerKeeps(db: Db, pc: Pc, window: nat, input: Input)
    requires DbOk(db) && PcOk(db, window, pc) && (pc.MarkProcessed? || pc.RecordCharge? || pc.MoveIntent?)
    ensures var (db', pc') := RunPayment(db, pc, input); DbOk(db') && Grows(db, db') && PcOk(db', window, pc')
  {
    hide DbOk, Grows, Known, CanTransitionPayment, MarkHook, SetChargeRef, TransitionIntent;
    match pc
    case MarkProcessed(key) => HooksKeep(db, key);
    case RecordCharge(i, o, seen, payment, cont) => IntentsKeep(db, i, payment.chargeRef, seen, seen);
    case MoveIntent(i, o, seen, next, cont) => IntentsKeep(db, i, "", seen, next);
  }

  /** Orders and the ledger. */
  lemma SettlingKeeps(db: Db, pc: Pc, window: nat, input: Input)
    requires DbOk(db) && PcOk(db, window, pc)
    requires pc.ClaimPaid? || pc.PostCapture? || pc.Advance? || pc.MoveToFailed?
    ensures var (db', pc') := RunPayment(db, pc, input); DbOk(db') && Grows(db, db') && PcOk(db', window, pc')
  {
    hide DbOk, Grows, Known, TransitionOrder, Post;
    match pc
    case ClaimPaid(bill, cont) =>
      TransitionKeeps(db, bill.order, PendingPayment, Paid);
      BillStays(db, TransitionOrder(db, bill.order, PendingPayment, Paid).0, bill);
    case PostCapture(bill, cont) =>
      PostKeeps(db, Captured(bill));
      BillStays(db, Post(db, Captured(bill)).0, bill);
    case Advance(o, cont) => TransitionKeeps(db, o, Paid, InProgress);
    case MoveToFailed(o, cont) => TransitionKeeps(db, o, PendingPayment, PaymentFailed);
  }

  lemma CheckoutKeeps(db: Db, pc: Pc, window: nat, input: Input)
    requires DbOk(db) && (pc.OpenIntent? || pc.AttachSession?)
    ensures var (db', pc') := RunPayment(db, pc, input); DbOk(db') && Grows(db, db') && PcOk(db', window, pc')
  {
    hide DbOk, Grows, CreateIntent, SetSession, CheckoutKey, FindByKey;
    SameDb(db);
    CheckoutsKeep(db, pc.order, if pc.OpenIntent? then pc.provider else "", if pc.AttachSession? then pc.intent else 0,
      if pc.AttachSession? then pc.providerRef else "");
  }

  lemma SameDb(db: Db)
    ensures Grows(db, db)
  {
    hide Started;
  }

  lemma CheckoutsKeep(db: Db, o: int64, provider: string, i: nat, ref: string)
    requires DbOk(db)
    ensures var after := CreateIntent(db, o, provider, CheckoutKey(o)).0; DbOk(after) && Grows(db, after)
    ensures DbOk(SetSession(db, i, ref)) && Grows(db, SetSession(db, i, ref))
  {
    hide DbOk, Grows, CheckoutKey;
    RefundsKeep(db, CreateIntent(db, o, provider, CheckoutKey(o)).0);
    RefundsKeep(db, SetSession(db, i, ref));
  }

  lemma HooksKeep(db: Db, key: string)
    requires DbOk(db)
    ensures DbOk(MarkHook(db, key)) && Grows(db, MarkHook(db, key))
  {
    hide DbOk, Grows;
    RefundsKeep(db, MarkHook(db, key));
  }

  lemma IntentsKeep(db: Db, i: nat, ref: string, from: PaymentStatus, to: PaymentStatus)
    requires DbOk(db)
    ensures DbOk(SetChargeRef(db, i, ref)) && Grows(db, SetChargeRef(db, i, ref))
    ensures DbOk(TransitionIntent(db, i, from, to).0) && Grows(db, TransitionIntent(db, i, from, to).0)
  {
    hide DbOk, Grows;
    RefundsKeep(db, SetChargeRef(db, i, ref));
    RefundsKeep(db, TransitionIntent(db, i, from, to).0);
  }

  lemma KnownBill(db: Db, o: int64)
    requires DbOk(db)
    ensures o in db.orders ==> Known(db, db.orders[o].bill) && db.orders[o].bill.order == o
  {
    if o in db.orders { assert OrderOk(db, o); }
  }

  lemma BillStays(db: Db, db': Db, bill: Bill)
    requires Grows(db, db') && Known(db, bill)
    ensures Known(db', bill) && bill.order in db'.orders
  {
  }

  lemma RequestReads(db: Db, pc: Pc, window: nat, input: Input)
    requires DbOk(db) && PcOk(db, window, pc) && !PaymentStep(pc) && !RefundStep(pc) && Reads(pc)
    ensures var (db', pc') := RunRequest(db, pc, window, input); db' == db && PcOk(db, window, pc')
  {
    hide LatestIntent, Payable, Decided, FindOpen, Transitions, Consistent, Started, Postable, OrderOk;
    match pc
    case Decide(o, wish) => if o in db.orders { DecidedOk(db, window, o, wish); }
    case FindRow(matter, o, from, to) =>
      hide CanTransition;
      if FindOpen(Requests(db, matter), o).Some? {
        assert Requests(db, matter)[FindOpen(Requests(db, matter), o).value] in Requests(db, matter);
      }
    case ReleaseNext(bills) =>
      hide DbOk, Known;
      if bills != [] { assert [bills[0]] + bills[1..] == bills; assert forall b :: b in bills[1..] ==> b in bills; }
    case _ =>
  }

  lemma DecidedOk(db: Db, window: nat, o: int64, wish: Wish)
    requires DbOk(db) && o in db.orders
    ensures PcOk(db, window, Decided(o, db.orders[o], wish))
  {
    hide DbOk, Known, OrderOk, CanTransition, Started;
    KnownBill(db, o);
    if !wish.Resolve? && CanTransition(db.orders[o].status, Target(wish)) {
      WishesAreForStarted(db.orders[o].status, wish);
    }
  }

  lemma WishesAreForStarted(from: Status, wish: Wish)
    requires !wish.Resolve? && CanTransition(from, Target(wish))
    ensures Started(from) && Started(Target(wish))
  {
  }

  lemma RequestKeepsRows(db: Db, pc: Pc, window: nat, input: Input)
    requires DbOk(db) && PcOk(db, window, pc) && !PaymentStep(pc) && !RefundStep(pc)
    ensures var (db', pc') := RunRequest(db, pc, window, input); DbOk(db') && Grows(db, db') && PcOk(db', window, pc')
  {
    hide DbOk, Grows, CanTransition, Known, HasStarted, ConsumeRevision, OpenRequest, CloseRequest, TransitionOrder,
      AutoAcceptOrders,
      Post, LatestIntent, Lists, BillsOf, BillsKnown, FindOpen, Decided, Payable;
    SameDb(db);
    if Reads(pc) {
      RequestReads(db, pc, window, input);
    } else {
      match pc
      case UseRevision(o, from) =>
        RevisionKeeps(db, o);
        MoveOk(db, ConsumeRevision(db, o).0, window, o, from, RevisionRequested);
      case OpenRow(matter, o, from) =>
        RequestKeeps(db, matter, o);
        MoveOk(db, OpenRequest(db, matter, o), window, o, from, Target(Ask(matter)));
      case CloseRow(matter, o, row, from, to) =>
        CloseKeeps(db, matter, row);
        MoveOk(db, CloseRequest(db, matter, row).0, window, o, from, to);
      case Move(bill, from, to) =>
        TransitionKeeps(db, bill.order, from, to);
        OneBill(db, TransitionOrder(db, bill.order, from, to).0, bill);
      case AcceptOverdue(cutoff) =>
        AutoAcceptKeeps(db, cutoff);
        if Lists(db, cutoff, input.listing) { ListingKnown(db, AutoAcceptOrders(db, cutoff), cutoff, input.listing); }
      case PostRelease(bill, rest) =>
        FirstKnown(db, bill, rest);
        PostKeeps(db, Released(bill));
        RestKnown(db, Post(db, Released(bill)).0, bill, rest);
    }
  }

  lemma OneBill(db: Db, db': Db, bill: Bill)
    requires Grows(db, db') && Known(db, bill)
    ensures BillsKnown(db', [bill])
  {
    assert OrderGrows(db, db', bill.order);
    hide Started;
  }

  lemma FirstKnown(db: Db, bill: Bill, rest: seq<Bill>)
    requires BillsKnown(db, [bill] + rest)
    ensures Known(db, bill)
  {
    assert bill in [bill] + rest;
  }

  lemma MoveOk(db: Db, db': Db, window: nat, o: int64, from: Status, to: Status)
    requires DbOk(db) && HasStarted(db, o) && CanTransition(from, to) && Started(to) && Grows(db, db')
    ensures o in db'.orders && PcOk(db', window, Move(db.orders[o].bill, from, to))
      && db'.orders[o].bill == db.orders[o].bill
  {
    hide DbOk, Grows, CanTransition, Known;
    KnownBill(db, o);
    BillStays(db, db', db.orders[o].bill);
    StaysStarted(db, db', o);
    SameBill(db', db.orders[o].bill);
  }

  lemma StaysStarted(db: Db, db': Db, o: int64)
    requires Grows(db, db') && HasStarted(db, o)
    ensures HasStarted(db', o)
  {
    assert OrderGrows(db, db', o);
  }

  lemma SameBill(db: Db, bill: Bill)
    requires Known(db, bill)
    ensures bill.order in db.orders && db.orders[bill.order].bill == bill
  {
  }

  lemma ListingKnown(db: Db, db': Db, cutoff: int, listing: seq<int64>)
    requires DbOk(db) && Grows(db, db') && Lists(db, cutoff, listing)
    ensures forall o :: o in listing ==> o in db.orders
    ensures BillsKnown(db', BillsOf(db, listing))
  {
    ListedAreOverdue(db, cutoff, listing);
    DistinctListing(db, cutoff, listing);
    hide DbOk, Grows, Lists, Overdue, Known, BillsOf;
    var bills := BillsOf(db, listing);
    forall k | 0 <= k < |bills| ensures ListedBill(db', bills, listing, k) {
      assert listing[k] in listing;
      KnownBill(db, listing[k]);
      BillStays(db, db', bills[k]);
    }
    ListedBills(db', bills, listing);
  }

  predicate ListedBill(db: Db, bills: seq<Bill>, listing: seq<int64>, k: int)
  {
    0 <= k < |bills| == |listing| && Known(db, bills[k]) && bills[k].order == listing[k]
  }

  lemma ListedBills(db: Db, bills: seq<Bill>, listing: seq<int64>)
    requires |bills| == |listing| && forall k :: 0 <= k < |bills| ==> ListedBill(db, bills, listing, k)
    requires forall i, j :: 0 <= i < j < |listing| ==> listing[i] != listing[j]
    ensures BillsKnown(db, bills)
  {
    hide Known;
    forall b | b in bills ensures Known(db, b) {
      var k :| 0 <= k < |bills| && bills[k] == b;
      assert ListedBill(db, bills, listing, k);
    }
    forall i, j | 0 <= i < j < |bills| ensures bills[i].order != bills[j].order {
      assert ListedBill(db, bills, listing, i) && ListedBill(db, bills, listing, j);
    }
  }

  lemma DistinctListing(db: Db, cutoff: int, listing: seq<int64>)
    requires Lists(db, cutoff, listing)
    ensures forall i, j :: 0 <= i < j < |listing| ==> listing[i] != listing[j]
  {
  }

  lemma RestKnown(db: Db, db': Db, bill: Bill, rest: seq<Bill>)
    requires BillsKnown(db, [bill] + rest) && Grows(db, db')
    ensures BillsKnown(db', rest)
  {
    forall b | b in rest ensures Known(db', b) { assert b in [bill] + rest; BillStays(db, db', b); }
    assert forall i :: 0 <= i < |rest| ==> rest[i] == ([bill] + rest)[i + 1];
  }

  lemma RefundKeepsRows(db: Db, pc: Pc, window: nat, input: Input)
    requires DbOk(db) && PcOk(db, window, pc) && RefundStep(pc)
    ensures var (db', pc') := RunRefund(db, pc, input); DbOk(db') && Grows(db, db') && PcOk(db', window, pc')
  {
    hide DbOk, Grows, PcOk, RunRefund;
    SameDb(db);
    if Reads(pc) {
      RefundReads(db, pc, window, input);
    } else {
      RefundWrites(db, pc, window, input);
    }
  }

  lemma RefundReads(db: Db, pc: Pc, window: nat, input: Input)
    requires DbOk(db) && PcOk(db, window, pc) && RefundStep(pc) && Reads(pc)
    ensures var (db', pc') := RunRefund(db, pc, input); db' == db && PcOk(db, window, pc')
  {
    hide DbOk, Known, LatestIntent, Live;
    if pc.LoadForRefund? { KnownBill(db, pc.order); }
  }

  lemma RefundWrites(db: Db, pc: Pc, window: nat, input: Input)
    requires DbOk(db) && PcOk(db, window, pc) && RefundStep(pc) && !Reads(pc)
    ensures var (db', pc') := RunRefund(db, pc, input); DbOk(db') && Grows(db, db') && PcOk(db', window, pc')
  {
    hide DbOk, Grows, Known, Post, Live;
    match pc
    case InsertRefund(bill, _, _) =>
      RefundsKeep(db, CreateRefund(db, bill.order).0);
      BillStays(db, CreateRefund(db, bill.order).0, bill);
    case StoreAnswer(bill, row, _, answer) =>
      RefundsKeep(db, SetRefundStatus(db, row, answer).0);
      BillStays(db, SetRefundStatus(db, row, answer).0, bill);
    case PostRefund(bill, _, accepted) => PostKeeps(db, Refunded(bill, accepted));
  }

  /** Whatever step an actor takes, the rows stay valid and only grow, and it remembers only what holds. */
  lemma RunKeepsRows(db: Db, pc: Pc, window: nat, input: Input)
    requires DbOk(db) && PcOk(db, window, pc)
    ensures var (db', pc') := Run(db, pc, window, input); DbOk(db') && Grows(db, db') && PcOk(db', window, pc')
  {
    hide DbOk, Grows, PcOk, RunPayment, RunRequest, RunRefund, OnError;
    if Errs(pc, input) {
      SameDb(db);
      OnErrorOk(db, window, pc);
    } else if PaymentStep(pc) {
      PaymentKeeps(db, pc, window, input);
    } else if RefundStep(pc) {
      RefundKeepsRows(db, pc, window, input);
    } else {
      RequestKeepsRows(db, pc, window, input);
    }
  }

  lemma OnErrorOk(db: Db, window: nat, pc: Pc)
    requires PcOk(db, window, pc)
    ensures PcOk(db, window, OnError(pc))
  {
    if pc.PostRelease? {
      SameDb(db);
      RestKnown(db, db, pc.bill, pc.rest);
    } else if pc.ReleaseNext? && pc.bills != [] {
      assert pc.bills == [pc.bills[0]] + pc.bills[1..];
      SameDb(db);
      RestKnown(db, db, pc.bills[0], pc.bills[1..]);
    } else if pc.RecordCharge? {
      AfterChargeOk(db, window, pc.intent, pc.order, pc.seen, pc.payment, pc.cont);
    } else {
      hide PcOk;
      NothingToRemember(db, window, OnError(pc));
    }
    hide Known, BillsKnown, AfterCharge, CanTransition, CanTransitionPayment;
  }

  lemma NothingToRemember(db: Db, window: nat, pc: Pc)
    requires pc.Idle? || pc.Sweep?
    ensures PcOk(db, window, pc)
  {
  }

  lemma AfterChargeOk(db: Db, window: nat, i: nat, o: int64, seen: PaymentStatus, payment: Payment, cont: Cont)
    ensures PcOk(db, window, AfterCharge(i, o, seen, payment, cont))
  {
    hide CanTransitionPayment, Known;
  }
}
