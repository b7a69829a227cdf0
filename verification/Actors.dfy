/** Webhook workers, sweeps, buyers, sellers and admins as programs that make one store call per step. */
module Actors {
  import opened Results
  import opened Int64
  import opened Ledger
  import opened Orders
  import opened Payments
  import opened StoreRows

  /** A payment intent as the reconcile sweep read it. */
  datatype Snapshot = Snapshot(intent: nat, order: int64, providerRef: string, status: PaymentStatus, chargeRef: string)

  /** What a payment worker goes back to once the order has been dealt with. */
  datatype Cont = Webhook(key: string) | Reconcile(rest: seq<Snapshot>)

  /** What a person asks of an order. */
  datatype Wish = Deliver | Revise | Accept | Ask(matter: Matter) | Resolve(matter: Matter, to: Status)

  /** The next store call of an actor, with what it remembers from earlier ones. */
  datatype Pc =
    | Idle
    // a checkout, from the order's creation on
    | OpenIntent(order: int64, provider: string)
    | CreateSession(order: int64, intent: nat, provider: string)
    | AttachSession(order: int64, intent: nat, providerRef: string)
    // a webhook job
    | LoadHook(key: string)
    | LoadIntent(key: string, payment: Payment)
    | MarkProcessed(key: string)
    // the reconcile sweep
    | ListStale
    | Sweep(stale: seq<Snapshot>)
    // shared by both
    | RecordCharge(intent: nat, order: int64, seen: PaymentStatus, payment: Payment, cont: Cont)
    | MoveIntent(intent: nat, order: int64, seen: PaymentStatus, next: PaymentStatus, cont: Cont)
    | LoadForCapture(order: int64, cont: Cont)
    | ClaimPaid(bill: Bill, cont: Cont)
    | PostCapture(bill: Bill, cont: Cont)
    | Advance(order: int64, cont: Cont)
    | LoadForFailure(order: int64, cont: Cont)
    | MoveToFailed(order: int64, cont: Cont)
    // a request about an order
    | Decide(order: int64, wish: Wish)
    | UseRevision(order: int64, from: Status)
    | OpenRow(matter: Matter, order: int64, from: Status)
    | FindRow(matter: Matter, order: int64, from: Status, to: Status)
    | CloseRow(matter: Matter, order: int64, row: nat, from: Status, to: Status)
    | Move(bill: Bill, from: Status, to: Status)
    // the auto-accept sweep, and the release that follows any acceptance
    | StartAutoAccept
    | AcceptOverdue(cutoff: int)
    | ReleaseNext(bills: seq<Bill>)
    | PostRelease(bill: Bill, rest: seq<Bill>)
    // a refund
    | LoadForRefund(order: int64)
    | LoadCharge(bill: Bill, accepted: bool)
    | CheckRefund(bill: Bill, accepted: bool)
    | CallProvider(bill: Bill, accepted: bool)
    | InsertRefund(bill: Bill, accepted: bool, answer: PaymentStatus)
    | StoreAnswer(bill: Bill, row: nat, accepted: bool, answer: PaymentStatus)
    | PostRefund(bill: Bill, row: nat, accepted: bool)

  /** Everything the outside world decides: whether a remote call works, what it says, and the order rows come back
      in. */
  datatype Input = Input(ok: bool, payment: Payment, stale: seq<nat>, listing: seq<int64>)

  function Done(cont: Cont): Pc
  {
    match cont
    case Webhook(key) => MarkProcessed(key)
    case Reconcile(rest) => Sweep(rest)
  }

  /** A webhook job gives up and is retried later; the sweep logs and goes on. */
  function GiveUp(cont: Cont): Pc
  {
    match cont
    case Webhook(key) => Idle
    case Reconcile(rest) => Sweep(rest)
  }

  function Settle(order: int64, status: PaymentStatus, cont: Cont): Pc
  {
    match status
    case Succeeded => LoadForCapture(order, cont)
    case Failed => LoadForFailure(order, cont)
    case Expired => LoadForFailure(order, cont)
    case _ => Done(cont)
  }

  /** The webhook settles the order even when the intent does not move; the sweep skips it. */
  function AfterCharge(intent: nat, order: int64, seen: PaymentStatus, payment: Payment, cont: Cont): Pc
  {
    if CanTransitionPayment(seen, payment.status) then MoveIntent(intent, order, seen, payment.status, cont)
    else if cont.Webhook? then Settle(order, payment.status, cont)
    else Done(cont)
  }

  function Observe(intent: nat, order: int64, seen: PaymentStatus, chargeRef: string, payment: Payment, cont: Cont): Pc
  {
    if payment.chargeRef != "" && payment.chargeRef != chargeRef then RecordCharge(intent, order, seen, payment, cont)
    else AfterCharge(intent, order, seen, payment, cont)
  }

  predicate IsStale(db: Db, i: nat)
  {
    i < |db.intents| && (db.intents[i].status.Pending? || db.intents[i].status.Processing?)
      && db.intents[i].providerRef != ""
  }

  function SnapshotOf(db: Db, i: nat): Snapshot
    requires i < |db.intents|
  {
    Snapshot(i, db.intents[i].order, db.intents[i].providerRef, db.intents[i].status, db.intents[i].chargeRef)
  }

  // ----- checkouts and payment workers -----

  /** The provider behind a payment method. */
  function ProviderOf(means: string): string
  {
    if means == "bitcoin" || means == "lightning" then "btcpay"
    else if means == "usdc-base" || means == "usdt-base" then "evm-base"
    else if means == "usdc-polygon" || means == "usdt-polygon" then "evm-polygon"
    else "stripe"
  }

  /** The chains never report anything by themselves; what happens there is only ever asked for. */
  predicate SendsWebhooks(provider: string)
  {
    provider == "stripe" || provider == "btcpay"
  }

  /** A delivery that passed its signature check: from a provider that sends them, about a payment that it names. */
  predicate Genuine(payment: Option<Payment>)
  {
    payment.Some? ==> SendsWebhooks(payment.value.provider) && payment.value.providerRef != ""
  }

  /** The key is taken: the intent that has it is used, unless the buyer can be sent to its session. */
  function Resume(db: Db, o: int64, provider: string): Pc
  {
    match FindByKey(db.intents, CheckoutKey(o))
    case None => Idle
    case Some(i) =>
      if db.intents[i].providerRef != "" && db.intents[i].status.Pending? then Idle else CreateSession(o, i, provider)
  }

  function RunPayment(db: Db, pc: Pc, input: Input): (Db, Pc)
  {
    match pc
    case OpenIntent(o, provider) =>
      var (after, created) := CreateIntent(db, o, provider, CheckoutKey(o));
      if created then (after, CreateSession(o, |db.intents|, provider))
      else (db, if provider in db.admits then Resume(db, o, provider) else Idle)
    case CreateSession(o, i, _) =>
      if input.ok then (db, AttachSession(o, i, input.payment.providerRef)) else (db, Idle)
    case AttachSession(o, i, ref) => (SetSession(db, i, ref), Idle)
    case LoadHook(key) =>
      if key !in db.hooks || db.hooks[key].processed then (db, Idle)
      else (match db.hooks[key].payment
        case None => (db, MarkProcessed(key))
        case Some(payment) => (db, LoadIntent(key, payment)))
    case LoadIntent(key, payment) => (match FindByRef(db.intents, payment.provider, payment.providerRef)
      case None => (db, MarkProcessed(key))
      case Some(i) =>
        (db, Observe(i, db.intents[i].order, db.intents[i].status, db.intents[i].chargeRef, payment, Webhook(key))))
    case MarkProcessed(key) => (MarkHook(db, key), Idle)
    case ListStale =>
      if forall i :: i in input.stale ==> IsStale(db, i)
      then (db, Sweep(seq(|input.stale|, k requires 0 <= k < |input.stale| && input.stale[k] in input.stale
        && (forall i :: i in input.stale ==> IsStale(db, i)) => SnapshotOf(db, input.stale[k]))))
      else (db, ListStale)
    case Sweep(stale) =>
      if stale == [] then (db, Idle)
      else if !input.ok then (db, Sweep(stale[1..]))
      else (db, Observe(stale[0].intent, stale[0].order, stale[0].status, stale[0].chargeRef, input.payment,
        Reconcile(stale[1..])))
    case RecordCharge(i, o, seen, payment, cont) =>
      (SetChargeRef(db, i, payment.chargeRef), AfterCharge(i, o, seen, payment, cont))
    case MoveIntent(i, o, seen, to, cont) =>
      var (after, moved) := TransitionIntent(db, i, seen, to);
      (after, if moved then Settle(o, to, cont) else GiveUp(cont))
    case LoadForCapture(o, cont) =>
      if o !in db.orders then (db, GiveUp(cont))
      else if !db.orders[o].status.PendingPayment? then (db, Done(cont))
      else (db, ClaimPaid(db.orders[o].bill, cont))
    case ClaimPaid(bill, cont) =>
      var (after, moved) := TransitionOrder(db, bill.order, PendingPayment, Paid);
      (after, if moved then PostCapture(bill, cont) else Done(cont))
    case PostCapture(bill, cont) =>
      var (after, posted) := Post(db, Captured(bill));
      (after, if posted then Advance(bill.order, cont) else GiveUp(cont))
    case Advance(o, cont) =>
      var (after, moved) := TransitionOrder(db, o, Paid, InProgress);
      (after, if moved then Done(cont) else GiveUp(cont))
    case LoadForFailure(o, cont) =>
      if o !in db.orders then (db, GiveUp(cont))
      else if !db.orders[o].status.PendingPayment? then (db, Done(cont))
      else (db, MoveToFailed(o, cont))
    case MoveToFailed(o, cont) => (TransitionOrder(db, o, PendingPayment, PaymentFailed).0, Done(cont))
    case _ => (db, pc)
  }

  // ----- buyers, sellers, admins and the auto-accept sweep -----

  function Target(wish: Wish): Status
  {
    match wish
    case Deliver => Delivered
    case Revise => RevisionRequested
    case Accept => Accepted
    case Ask(matter) => if matter.Cancellation? then CancelRequested else Disputed
    case Resolve(_, to) => to
  }

  predicate ValidOutcome(matter: Matter, to: Status)
  {
    if matter.Cancellation? then to in {Cancelled, InProgress} else to in {InProgress, Cancelled, Closed}
  }

  /** The order has been loaded; the request is checked against the status just read. */
  function Decided(o: int64, order: Order, wish: Wish): Pc
  {
    match wish
    case Resolve(matter, to) => if ValidOutcome(matter, to) then FindRow(matter, o, order.status, to) else Idle
    case _ =>
      if !CanTransition(order.status, Target(wish)) then Idle
      else (match wish
        case Revise => UseRevision(o, order.status)
        case Ask(matter) => OpenRow(matter, o, order.status)
        case _ => Move(order.bill, order.status, Target(wish)))
  }

  /** The rows an accepting statement returns, in whatever order. */
  predicate Lists(db: Db, cutoff: int, listing: seq<int64>)
  {
    && (set o | o in listing) == OverdueOrders(db, cutoff)
    && (forall i, j :: 0 <= i < j < |listing| ==> listing[i] != listing[j])
  }

  lemma ListedAreOverdue(db: Db, cutoff: int, listing: seq<int64>)
    requires Lists(db, cutoff, listing)
    ensures forall o :: o in listing <==> o in db.orders && Overdue(db.orders[o], cutoff)
  {
    assert forall o :: o in listing <==> o in (set x | x in listing);
  }

  function BillsOf(db: Db, listing: seq<int64>): (bills: seq<Bill>)
    requires forall o :: o in listing ==> o in db.orders
    ensures |bills| == |listing| && forall k :: 0 <= k < |bills| ==> bills[k] == db.orders[listing[k]].bill
  {
    if listing == [] then [] else BillsOf(db, listing[..|listing| - 1]) + [db.orders[listing[|listing| - 1]].bill]
  }

  function RunRequest(db: Db, pc: Pc, window: nat, input: Input): (Db, Pc)
  {
    match pc
    case Decide(o, wish) => if o in db.orders then (db, Decided(o, db.orders[o], wish)) else (db, Idle)
    case UseRevision(o, from) =>
      var (after, used) := ConsumeRevision(db, o);
      (after, if used then Move(after.orders[o].bill, from, RevisionRequested) else Idle)
    case OpenRow(matter, o, from) =>
      if o in db.orders then (OpenRequest(db, matter, o), Move(db.orders[o].bill, from, Target(Ask(matter))))
      else (db, Idle)
    case FindRow(matter, o, from, to) => (match FindOpen(Requests(db, matter), o)
      case None => (db, Idle)
      case Some(row) => if CanTransition(from, to) then (db, CloseRow(matter, o, row, from, to)) else (db, Idle))
    case CloseRow(matter, o, row, from, to) =>
      var (after, closed) := CloseRequest(db, matter, row);
      if closed && o in db.orders then (after, Move(db.orders[o].bill, from, to)) else (after, Idle)
    case Move(bill, from, to) =>
      var (after, moved) := TransitionOrder(db, bill.order, from, to);
      (after, if moved && to.Accepted? then ReleaseNext([bill]) else Idle)
    case StartAutoAccept => (db, AcceptOverdue(db.now - window))
    case AcceptOverdue(cutoff) =>
      if Lists(db, cutoff, input.listing)
        then ListedAreOverdue(db, cutoff, input.listing); (AutoAcceptOrders(db, cutoff),
          ReleaseNext(BillsOf(db, input.listing))) else (db, pc)
    case ReleaseNext(bills) =>
      if bills == [] then (db, Idle)
      else (match LatestIntent(db.intents, bills[0].order)
        case None => (db, ReleaseNext(bills[1..]))
        case Some(i) =>
          if db.intents[i].status.Succeeded? && Payable(bills[0]) > 0 then (db, PostRelease(bills[0], bills[1..]))
          else (db, ReleaseNext(bills[1..])))
    case PostRelease(bill, rest) => (Post(db, Released(bill)).0, ReleaseNext(rest))
    case _ => (db, pc)
  }

  // ----- refunds -----

  function RunRefund(db: Db, pc: Pc, input: Input): (Db, Pc)
  {
    match pc
    case LoadForRefund(o) =>
      if o in db.orders then (db, LoadCharge(db.orders[o].bill, db.orders[o].acceptedAt.Some?)) else (db, Idle)
    case LoadCharge(bill, accepted) => (match LatestIntent(db.intents, bill.order)
      case None => (db, Idle)
      case Some(i) =>
        if db.intents[i].status.Succeeded? && db.intents[i].chargeRef != "" then (db, CheckRefund(bill, accepted))
        else (db, Idle))
    case CheckRefund(bill, accepted) =>
      if Live(db.refunds, bill.order) > 0 then (db, Idle) else (db, CallProvider(bill, accepted))
    case CallProvider(bill, accepted) =>
      if input.ok then (db, InsertRefund(bill, accepted, input.payment.status)) else (db, Idle)
    case InsertRefund(bill, accepted, answer) =>
      var (after, inserted) := CreateRefund(db, bill.order);
      (after, if inserted then StoreAnswer(bill, |db.refunds|, accepted, answer) else Idle)
    case StoreAnswer(bill, row, accepted, answer) =>
      var (after, stored) := SetRefundStatus(db, row, answer);
      (after, if stored && answer.Succeeded? then PostRefund(bill, row, accepted) else Idle)
    case PostRefund(bill, row, accepted) => (Post(db, Refunded(bill, accepted)).0, Idle)
    case _ => (db, pc)
  }

  predicate PaymentStep(pc: Pc)
  {
    pc.OpenIntent? || pc.CreateSession? || pc.AttachSession?
    || pc.LoadHook? || pc.LoadIntent? || pc.MarkProcessed? || pc.ListStale? || pc.Sweep? || pc.RecordCharge?
    || pc.MoveIntent?
    || pc.LoadForCapture? || pc.ClaimPaid? || pc.PostCapture? || pc.Advance? || pc.LoadForFailure? || pc.MoveToFailed?
  }

  predicate RefundStep(pc: Pc)
  {
    pc.LoadForRefund? || pc.LoadCharge? || pc.CheckRefund? || pc.CallProvider? || pc.InsertRefund? || pc.StoreAnswer?
      || pc.PostRefund?
  }

  /** A store call that returns an error the program goes on from, unlike one that simply ends the actor. */
  predicate Errs(pc: Pc, input: Input)
  {
    !input.ok
    && (pc.RecordCharge? || pc.MoveIntent? || pc.LoadForCapture? || pc.ClaimPaid? || pc.PostCapture? || pc.Advance?
        || pc.LoadForFailure? || pc.MoveToFailed? || pc.PostRelease? || (pc.ReleaseNext? && pc.bills != []))
  }

  /** The sweep logs and goes on, even after a charge reference it could not record; a release is skipped. */
  function OnError(pc: Pc): Pc
  {
    match pc
    case RecordCharge(i, o, seen, payment, cont) =>
      if cont.Webhook? then Idle else AfterCharge(i, o, seen, payment, cont)
    case MoveIntent(_, _, _, _, cont) => GiveUp(cont)
    case LoadForCapture(_, cont) => GiveUp(cont)
    case ClaimPaid(_, cont) => GiveUp(cont)
    case PostCapture(_, cont) => GiveUp(cont)
    case Advance(_, cont) => GiveUp(cont)
    case LoadForFailure(_, cont) => GiveUp(cont)
    case MoveToFailed(_, cont) => GiveUp(cont)
    case PostRelease(_, rest) => ReleaseNext(rest)
    case ReleaseNext(bills) => if bills == [] then Idle else ReleaseNext(bills[1..])
    case _ => Idle
  }

  /** One store call. */
  function Run(db: Db, pc: Pc, window: nat, input: Input): (Db, Pc)
  {
    if Errs(pc, input) then (db, OnError(pc))
    else if PaymentStep(pc) then RunPayment(db, pc, input)
    else if RefundStep(pc) then RunRefund(db, pc, input)
    else RunRequest(db, pc, window, input)
  }

  /** A call that comes back with an error writes nothing. A webhook job then gives up, a sweep goes on with the next
      payment (or, past a charge it could not note, with this one), and a release is skipped. */
  lemma FailedCall(db: Db, pc: Pc, window: nat, input: Input)
    requires !input.ok
    ensures pc.RecordCharge? ==>
      Run(db, pc, window, input)
        == (db, if pc.cont.Webhook? then Idle else AfterCharge(pc.intent, pc.order, pc.seen, pc.payment, pc.cont))
    ensures (pc.MoveIntent? || pc.LoadForCapture? || pc.ClaimPaid? || pc.PostCapture? || pc.Advance?
        || pc.LoadForFailure? || pc.MoveToFailed?) ==>
      Run(db, pc, window, input) == (db, if pc.cont.Webhook? then Idle else Sweep(pc.cont.rest))
    ensures pc.PostRelease? ==> Run(db, pc, window, input) == (db, ReleaseNext(pc.rest))
    ensures pc.ReleaseNext? && pc.bills != [] ==> Run(db, pc, window, input) == (db, ReleaseNext(pc.bills[1..]))
    ensures pc.Sweep? && pc.stale != [] ==> Run(db, pc, window, input) == (db, Sweep(pc.stale[1..]))
  {
    hide AfterCharge;
  }

  lemma WhoRuns(db: Db, pc: Pc, window: nat, input: Input)
    ensures Run(db, pc, window, input)
         == if Errs(pc, input) then (db, OnError(pc)) else if PaymentStep(pc) then RunPayment(db, pc, input)
            else if RefundStep(pc) then RunRefund(db, pc, input) else RunRequest(db, pc, window, input)
  {
    hide OnError, RunPayment, RunRefund, RunRequest;
  }

  // ----- the whole system -----

  datatype State = State(db: Db, actors: map<nat, Pc>, window: nat)

  datatype Action =
    | Act(actor: nat, input: Input)
    | Begin(actor: nat, pc: Pc)
    | Crash(actor: nat)
    | Tick(seconds: nat)
    | PlaceOrder(actor: nat, bill: Bill, revisionsAllowed: nat, means: string, ready: bool)
    | ReceiveHook(key: string, payment: Option<Payment>)

  function PcOf(actors: map<nat, Pc>, a: nat): Pc
  {
    if a in actors then actors[a] else Idle
  }

  predicate EntryPoint(pc: Pc)
  {
    pc.LoadHook? || pc.ListStale? || pc.Decide? || pc.StartAutoAccept? || pc.LoadForRefund?
  }

  /** Where an actor may be when it starts on something. */
  predicate Beginning(pc: Pc)
  {
    pc.Idle? || EntryPoint(pc) || pc.OpenIntent?
  }

  function Step(s: State, action: Action): State
  {
    match action
    case Act(a, input) =>
      var (db, pc) := Run(s.db, PcOf(s.actors, a), s.window, input);
      s.(db := db, actors := s.actors[a := pc])
    case Begin(a, pc) => if PcOf(s.actors, a).Idle? && EntryPoint(pc) then s.(actors := s.actors[a := pc]) else s
    case Crash(a) => s.(actors := s.actors[a := Idle])
    case Tick(seconds) => s.(db := s.db.(now := s.db.now + seconds))
    case PlaceOrder(a, bill, allowed, means, ready) =>
      if bill.order in s.db.orders || !PcOf(s.actors, a).Idle? then s
      else
        s.(db := s.db.(orders := s.db.orders[bill.order := Placed(bill, allowed, s.db.now)]),
           actors := s.actors[a := CheckoutFrom(bill.order, means, ready)])
    case ReceiveHook(key, payment) => if Genuine(payment) then s.(db := InsertHook(s.db, key, payment).0) else s
  }

  /** The order is in; its only checkout goes on when payments are enabled and the method's provider is configured. */
  function CheckoutFrom(o: int64, means: string, ready: bool): Pc
  {
    if ready then OpenIntent(o, ProviderOf(means)) else Idle
  }

  function Start(now: int, window: nat, admits: set<string>): State
  {
    State(Db(now, admits, map[], [], map[], [], [], [], [], []), map[], window)
  }

  /** The state after a run: any interleaving of steps, crashes, deliveries and clock ticks. */
  function After(now: int, window: nat, admits: set<string>, run: seq<Action>): State
  {
    if run == [] then Start(now, window, admits) else Step(After(now, window, admits, run[..|run| - 1]), run[|run| - 1])
  }

  lemma AfterStep(now: int, window: nat, admits: set<string>, run: seq<Action>, action: Action)
    ensures After(now, window, admits, run + [action]) == Step(After(now, window, admits, run), action)
  {
    assert (run + [action])[..|run|] == run;
  }

  /** The state after further actions. */
  function Continue(s: State, more: seq<Action>): State
  {
    if more == [] then s else Step(Continue(s, more[..|more| - 1]), more[|more| - 1])
  }

  lemma ContinueStep(s: State, more: seq<Action>, action: Action)
    ensures Continue(s, more + [action]) == Step(Continue(s, more), action)
  {
    assert (more + [action])[..|more|] == more;
  }

  lemma {:induction false} ContinueTwice(s: State, more: seq<Action>, evenMore: seq<Action>)
    ensures Continue(Continue(s, more), evenMore) == Continue(s, more + evenMore)
    decreases |evenMore|
  {
    hide Step;
    if evenMore == [] {
      assert more + evenMore == more;
    } else {
      var n := |evenMore| - 1;
      ContinueTwice(s, more, evenMore[..n]);
      assert more + evenMore == more + evenMore[..n] + [evenMore[n]];
      ContinueStep(s, more + evenMore[..n], evenMore[n]);
    }
  }

  /** A run is the start, continued. */
  lemma {:induction false} RunContinues(now: int, window: nat, admits: set<string>, run: seq<Action>, more: seq<Action>)
    ensures After(now, window, admits, run + more) == Continue(After(now, window, admits, run), more)
    decreases |more|
  {
    hide Step;
    if more == [] {
      assert run + more == run;
    } else {
      var n := |more| - 1;
      RunContinues(now, window, admits, run, more[..n]);
      assert run + more == run + more[..n] + [more[n]];
      AfterStep(now, window, admits, run + more[..n], more[n]);
    }
  }
}
