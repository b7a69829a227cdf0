/** What can still become of an order: when it can start, when a refund can settle, and what can never change again. */
module Outcomes {
  import opened Results
  import opened Int64
  import opened Ledger
  import opened Bookkeeping
  import opened Orders
  import opened Payments
  import opened StoreRows
  import opened Actors
  import opened Protocol
  import opened Duties
  import opened Runs
  import opened Guarantees
  import opened Checkouts
  import opened SoloRuns

  lemma ContinueReachable(s: State, more: seq<Action>)
    requires Reachable(s)
    ensures Reachable(Continue(s, more))
  {
    hide After, Continue;
    var now, window, admits, run :| s == After(now, window, admits, run);
    RunContinues(now, window, admits, run, more);
  }

  // ----- whether an order can still start -----

  /** A payment of the order that can still be found to have succeeded: the sweep lists it, or its provider's webhooks
      reach it. */
  predicate Reportable(db: Db, o: int64, i: nat)
  {
    Registered(db, i, o)
      && (!Final(db.intents[i].status)
        || (SendsWebhooks(db.intents[i].provider)
          && FindByRef(db.intents, db.intents[i].provider, db.intents[i].providerRef) == Some(i)))
  }

  /** An actor in the order's checkout, or already on its way to the capture. */
  predicate OnItsWay(admits: set<string>, pc: Pc, o: int64)
  {
    match pc
    case OpenIntent(p, provider) => p == o && provider in admits
    case CreateSession(p, _, _) => p == o
    case AttachSession(p, _, ref) => p == o && ref != ""
    case RecordCharge(_, p, seen, payment, cont) =>
      p == o && cont.Webhook? && Final(seen) && payment.status == Succeeded
    case LoadForCapture(p, _) => p == o
    case ClaimPaid(bill, _) => bill.order == o
    case _ => false
  }

  ghost predicate IsReportable(db: Db, o: int64)
  {
    exists i: nat :: Reportable(db, o, i)
  }

  /** A success of the order's payment can still come to be settled. */
  ghost predicate Coming(s: State, o: int64)
  {
    IsReportable(s.db, o) || exists a :: a in s.actors && OnItsWay(s.db.admits, s.actors[a], o)
  }

  /** By status, amounts, whether a success can still come, and how many actors are about to post the order's capture or
      to move it on. */
  predicate Hopeful(status: Status, billable: bool, coming: bool, posting: nat, advancing: nat)
  {
    || Started(status)
    || (status == PendingPayment && billable && coming)
    || (status == Paid && ((posting > 0 && billable) || advancing > 0))
  }

  ghost predicate CanStart(s: State, o: int64)
  {
    && o in s.db.orders
    && Hopeful(s.db.orders[o].status, Billable(s.db.orders[o].bill), Coming(s, o), Owed(s.actors, ToPostCapture, o),
      Owed(s.actors, ToAdvance, o))
  }

  // ----- a success that cannot come never will -----

  lemma ReportableBefore(db: Db, db': Db, o: int64, i: nat)
    requires Evolves(db, db') && Registered(db, i, o) && Reportable(db', o, i)
    ensures Reportable(db, o, i)
  {
    FinalStays(db.intents[i], db'.intents[i]);
    var provider, ref := db.intents[i].provider, db.intents[i].providerRef;
    forall j | 0 <= j < |db.intents| && Bears(db.intents[j], provider, ref)
      ensures Bears(db'.intents[j], provider, ref)
    {
      assert IntentMoves(db.intents[j], db'.intents[j]);
    }
    hide CanTransitionPayment, IntentMoves;
  }

  /** Payments become reportable only by the checkout that registers them. */
  lemma RunRegisters(db: Db, pc: Pc, window: nat, input: Input, o: int64, i: nat)
    requires KnowsPayment(db, pc) && Registered(Run(db, pc, window, input).0, i, o)
    ensures Registered(db, i, o) || (pc.AttachSession? && OnItsWay(db.admits, pc, o))
  {
    WhoRuns(db, pc, window, input);
    RunFrames(db, pc, window, input);
    hide Run, RunRequest, RunRefund, OnError, CanTransitionPayment, Settle, AfterCharge, CheckoutKey, Moved;
    if !(pc.OpenIntent? || pc.AttachSession? || pc.MoveIntent? || pc.RecordCharge?) {
      hide RunPayment, KnowsPayment;
    }
  }

  /** An actor comes to be on its way only from the checkout, or through a payment that was reportable. */
  lemma RunSetsOut(db: Db, pc: Pc, window: nat, input: Input, o: int64)
    requires DbOk(db) && PcOk(db, window, pc) && KnowsPayment(db, pc)
    requires OnItsWay(db.admits, Run(db, pc, window, input).1, o)
    ensures IsReportable(db, o) || OnItsWay(db.admits, pc, o)
  {
    WhoRuns(db, pc, window, input);
    hide Run, RunPayment, RunRequest, RunRefund, OnError, DbOk, PcOk, KnowsPayment, OnItsWay, IsReportable;
    if Errs(pc, input) {
      ErrorsSetOutNowhere(db.admits, pc, o);
    } else if !PaymentStep(pc) {
      OthersSetOutNowhere(db, pc, window, input, o);
    } else if pc.OpenIntent? || pc.CreateSession? || pc.AttachSession? {
      CheckoutSetsOut(db, pc, input, o);
    } else if pc.LoadIntent? {
      HookSetsOut(db, pc, input, o);
    } else if pc.MoveIntent? {
      SuccessSetsOut(db, pc, window, input, o);
    } else {
      RestSetsOut(db, pc, input, o);
    }
  }

  lemma ErrorsSetOutNowhere(admits: set<string>, pc: Pc, o: int64)
    ensures !OnItsWay(admits, OnError(pc), o)
  {
  }

  lemma OthersSetOutNowhere(db: Db, pc: Pc, window: nat, input: Input, o: int64)
    requires !PaymentStep(pc)
    ensures !OnItsWay(db.admits, RunRefund(db, pc, input).1, o) || !RefundStep(pc)
    ensures !OnItsWay(db.admits, RunRequest(db, pc, window, input).1, o) || RefundStep(pc)
  {
    hide LatestIntent, Live, FindOpen, CanTransition, Payable, Lists, BillsOf, Moved, Post;
  }

  lemma CheckoutSetsOut(db: Db, pc: Pc, input: Input, o: int64)
    requires pc.OpenIntent? || pc.CreateSession? || pc.AttachSession?
    requires OnItsWay(db.admits, RunPayment(db, pc, input).1, o)
    ensures OnItsWay(db.admits, pc, o)
  {
    hide CheckoutKey;
  }

  lemma HookSetsOut(db: Db, pc: Pc, input: Input, o: int64)
    requires pc.LoadIntent? && KnowsPayment(db, pc) && OnItsWay(db.admits, RunPayment(db, pc, input).1, o)
    ensures IsReportable(db, o)
  {
    var i := FindByRef(db.intents, pc.payment.provider, pc.payment.providerRef).value;
    assert Reportable(db, o, i);
    hide FindByRef;
  }

  lemma SuccessSetsOut(db: Db, pc: Pc, window: nat, input: Input, o: int64)
    requires pc.MoveIntent? && PcOk(db, window, pc) && KnowsPayment(db, pc)
    requires OnItsWay(db.admits, RunPayment(db, pc, input).1, o)
    ensures IsReportable(db, o)
  {
    assert Reportable(db, o, pc.intent);
  }

  lemma RestSetsOut(db: Db, pc: Pc, input: Input, o: int64)
    requires DbOk(db) && PaymentStep(pc) && !pc.OpenIntent? && !pc.CreateSession? && !pc.AttachSession?
      && !pc.LoadIntent?
      && !pc.MoveIntent?
    requires OnItsWay(db.admits, RunPayment(db, pc, input).1, o)
    ensures OnItsWay(db.admits, pc, o)
  {
    hide DbOk, IsStale, SnapshotOf, Post, TransitionOrder;
    if pc.LoadForCapture? { KnownBill(db, pc.order); }
  }

  lemma StepBringsNothing(s: State, action: Action, o: int64)
    requires Inv(s) && CheckoutInv(s) && o in s.db.orders
    ensures Coming(Step(s, action), o) ==> Coming(s, o)
  {
    hide *;
    if Coming(Step(s, action), o) {
      if action.Act? {
        ActBringsNothing(s, action.actor, action.input, o);
      } else {
        OutsideBringsNothing(s, action, o);
      }
    }
  }

  lemma ActBringsNothing(s: State, a: nat, input: Input, o: int64)
    requires Inv(s) && CheckoutInv(s) && Coming(Step(s, Act(a, input)), o)
    ensures Coming(s, o)
  {
    hide Inv, CheckoutInv, Step, Run, OnItsWay, KnowsPayment, PcOk, Evolves, DbOk, Remembered, Reportable,
      Registered, PcOf;
    var pc := PcOf(s.actors, a);
    var (db', pc') := Run(s.db, pc, s.window, input);
    var s' := s.(db := db', actors := s.actors[a := pc']);
    ActIs(s, a, input);
    InvParts(s);
    CheckoutParts(s);
    PcOkOf(s, a);
    KnowsNow(s, a);
    RunEvolves(s.db, pc, s.window, input);
    OnItsWayNow(s, a, o);
    SameAdmits(s.db, db');
    if IsReportable(db', o) {
      var i: nat :| Reportable(db', o, i);
      ReportableIsRegistered(db', o, i);
      RunRegisters(s.db, pc, s.window, input, o, i);
      if Registered(s.db, i, o) { ReportableBefore(s.db, db', o, i); }
    } else {
      var b :| b in s'.actors && OnItsWay(s'.db.admits, s'.actors[b], o);
      if b == a { RunSetsOut(s.db, pc, s.window, input, o); }
    }
  }

  lemma SameAdmits(db: Db, db': Db)
    requires Evolves(db, db')
    ensures db'.admits == db.admits
  {
  }

  lemma ReportableIsRegistered(db: Db, o: int64, i: nat)
    requires Reportable(db, o, i)
    ensures Registered(db, i, o) && i < |db.intents|
  {
  }

  lemma OnItsWayNow(s: State, a: nat, o: int64)
    ensures OnItsWay(s.db.admits, PcOf(s.actors, a), o) ==> Coming(s, o)
  {
    hide IsReportable;
  }

  lemma OutsideBringsNothing(s: State, action: Action, o: int64)
    requires !action.Act? && o in s.db.orders && Coming(Step(s, action), o)
    ensures Coming(s, o)
  {
    hide Reportable, Placed, InsertHook, Genuine, ProviderOf;
    OutsideEvolves(s, action);
    if IsReportable(Step(s, action).db, o) {
      var i: nat :| Reportable(Step(s, action).db, o, i);
      OnlyIntentsCount(s.db, Step(s, action).db, o, i);
    }
  }

  lemma OnlyIntentsCount(db: Db, db': Db, o: int64, i: nat)
    requires db'.intents == db.intents
    ensures Reportable(db', o, i) == Reportable(db, o, i)
  {
  }

  /** An order that cannot start stays so through one actor's step, and nothing is captured for it. */
  lemma RunLeavesHopeless(db: Db, pc: Pc, window: nat, input: Input, o: int64, coming: bool, posting: nat,
    advancing: nat)
    requires PcOk(db, window, pc) && o in db.orders && (OnItsWay(db.admits, pc, o) ==> coming)
    requires CaptureOk(db.orders[o].status, Count(db.ledger, o, Capture), posting + One(Owes(pc, ToPostCapture, o)),
      advancing + One(Owes(pc, ToAdvance, o)))
    requires !Hopeful(db.orders[o].status, Billable(db.orders[o].bill), coming,
      posting + One(Owes(pc, ToPostCapture, o)),
      advancing + One(Owes(pc, ToAdvance, o)))
    ensures var (db', pc') := Run(db, pc, window, input);
      && o in db'.orders && Count(db'.ledger, o, Capture) == Count(db.ledger, o, Capture)
      && !Hopeful(db'.orders[o].status, Billable(db.orders[o].bill), coming, posting + One(Owes(pc', ToPostCapture, o)),
        advancing + One(Owes(pc', ToAdvance, o)))
      && (db.orders[o].status == PaymentFailed ==> db'.orders[o].status == PaymentFailed)
  {
    hide Run, Count, PcOk, Post, TransitionOrder;
    if Errs(pc, input) {
      ErrorsTakeOnNothing(db, pc, window, input, ToPostCapture, o);
      ErrorsTakeOnNothing(db, pc, window, input, ToAdvance, o);
    } else if Reads(pc) {
      ReadsTakeOnNothing(db, pc, window, input, ToPostCapture, o);
      ReadsTakeOnNothing(db, pc, window, input, ToAdvance, o);
    } else if WritesElsewhere(pc) {
      StatusesUntouched(db, pc, window, input, o);
    } else if Posts(pc) {
      PostLeavesHopeless(db, pc, window, input, o, coming, posting, advancing);
    } else if Transits(pc) {
      TransitLeavesHopeless(db, pc, window, input, o, coming, posting, advancing);
    } else {
      AcceptKeepsStarted(db, pc, window, input, o);
    }
  }

  lemma PostLeavesHopeless(db: Db, pc: Pc, window: nat, input: Input, o: int64, coming: bool, posting: nat,
    advancing: nat)
    requires !Errs(pc, input) && Posts(pc) && PcOk(db, window, pc) && o in db.orders
    requires CaptureOk(db.orders[o].status, Count(db.ledger, o, Capture), posting + One(Owes(pc, ToPostCapture, o)),
      advancing + One(Owes(pc, ToAdvance, o)))
    requires !Hopeful(db.orders[o].status, Billable(db.orders[o].bill), coming,
      posting + One(Owes(pc, ToPostCapture, o)),
      advancing + One(Owes(pc, ToAdvance, o)))
    ensures var (db', pc') := Run(db, pc, window, input);
      && db'.orders == db.orders && Count(db'.ledger, o, Capture) == Count(db.ledger, o, Capture)
      && !Hopeful(db.orders[o].status, Billable(db.orders[o].bill), coming, posting + One(Owes(pc', ToPostCapture, o)),
        advancing + One(Owes(pc', ToAdvance, o)))
  {
    hide Run, Count, PcOk, Post;
    PostRuns(db, pc, window, input);
    PostCounts(db, Posting(pc), o, Capture);
    if pc.PostCapture? && pc.bill.order == o { CaptureRefused(db, pc, window, o); }
  }

  lemma TransitLeavesHopeless(db: Db, pc: Pc, window: nat, input: Input, o: int64, coming: bool, posting: nat,
    advancing: nat)
    requires !Errs(pc, input) && Transits(pc) && PcOk(db, window, pc) && o in db.orders
      && (OnItsWay(db.admits, pc, o) ==> coming)
    requires CaptureOk(db.orders[o].status, Count(db.ledger, o, Capture), posting + One(Owes(pc, ToPostCapture, o)),
      advancing + One(Owes(pc, ToAdvance, o)))
    requires !Hopeful(db.orders[o].status, Billable(db.orders[o].bill), coming,
      posting + One(Owes(pc, ToPostCapture, o)),
      advancing + One(Owes(pc, ToAdvance, o)))
    ensures var (db', pc') := Run(db, pc, window, input);
      && o in db'.orders && db'.ledger == db.ledger
      && !Hopeful(db'.orders[o].status, Billable(db.orders[o].bill), coming, posting + One(Owes(pc', ToPostCapture, o)),
        advancing + One(Owes(pc', ToAdvance, o)))
      && (db.orders[o].status == PaymentFailed ==> db'.orders[o].status == PaymentFailed)
  {
    hide Run, Count, PcOk, TransitionOrder;
    TransitRuns(db, pc, window, input);
    TransitKeepsCapture(db, pc, window, o);
  }

  lemma CaptureRefused(db: Db, pc: Pc, window: nat, o: int64)
    requires PcOk(db, window, pc) && pc.PostCapture? && pc.bill.order == o && o in db.orders
      && !Billable(db.orders[o].bill)
    ensures !Post(db, Captured(pc.bill)).1
  {
  }

  lemma StepLeavesHopeless(s: State, action: Action, o: int64)
    requires Inv(s) && CheckoutInv(s) && o in s.db.orders && !CanStart(s, o)
    ensures var s' := Step(s, action);
      && o in s'.db.orders && !CanStart(s', o)
      && Count(s'.db.ledger, o, Capture) == Count(s.db.ledger, o, Capture)
      && (s.db.orders[o].status == PaymentFailed ==> s'.db.orders[o].status == PaymentFailed)
  {
    hide *;
    if action.Act? {
      ActLeavesHopeless(s, action.actor, action.input, o);
    } else {
      var s' := Step(s, action);
      BackgroundExtends(s, action, o);
      OutsideOwes(s, action, ToPostCapture, o);
      OutsideOwes(s, action, ToAdvance, o);
      CanStartParts(s, o);
      CanStartParts(s', o);
      StepBringsNothing(s, action, o);
      LessHope(s.db.orders[o].status, Billable(s.db.orders[o].bill), Coming(s, o), Coming(s', o),
        Owed(s.actors, ToPostCapture, o), Owed(s'.actors, ToPostCapture, o),
        Owed(s.actors, ToAdvance, o), Owed(s'.actors, ToAdvance, o));
    }
  }

  lemma LessHope(status: Status, billable: bool, coming: bool, coming': bool, posting: nat, posting': nat,
    advancing: nat, advancing': nat)
    requires (coming' ==> coming) && posting' <= posting && advancing' <= advancing
    requires !Hopeful(status, billable, coming, posting, advancing)
    ensures !Hopeful(status, billable, coming', posting', advancing')
  {
  }

  /** Only store calls take on duties. */
  lemma OutsideOwes(s: State, action: Action, duty: Duty, o: int64)
    requires !action.Act?
    ensures Owed(Step(s, action).actors, duty, o) <= Owed(s.actors, duty, o)
  {
    hide Owed, Owes, EntryPoint, PcOf, OwedByOthers, ProviderOf, Placed;
    match action
    case Begin(a, pc) => ReplacedOwes(s.actors, a, pc, duty, o);
    case Crash(a) => ReplacedOwes(s.actors, a, Idle, duty, o);
    case PlaceOrder(a, bill, _, means, ready) =>
      ReplacedOwes(s.actors, a, CheckoutFrom(bill.order, means, ready), duty, o);
    case _ =>
  }

  lemma ReplacedOwes(actors: map<nat, Pc>, a: nat, pc: Pc, duty: Duty, o: int64)
    ensures Beginning(pc) ==> Owed(actors[a := pc], duty, o) <= Owed(actors, duty, o)
  {
    OwedSplits(actors, a, pc, duty, o);
    IdleOwesNothing(duty, o);
    hide Owed, Owes, EntryPoint, PcOf, OwedByOthers;
  }

  lemma ActLeavesHopeless(s: State, a: nat, input: Input, o: int64)
    requires Inv(s) && CheckoutInv(s) && o in s.db.orders && !CanStart(s, o)
    ensures var s' := Step(s, Act(a, input));
      && o in s'.db.orders && !CanStart(s', o)
      && Count(s'.db.ledger, o, Capture) == Count(s.db.ledger, o, Capture)
      && (s.db.orders[o].status == PaymentFailed ==> s'.db.orders[o].status == PaymentFailed)
  {
    hide *;
    var pc := PcOf(s.actors, a);
    var (db', pc') := Run(s.db, pc, s.window, input);
    InvParts(s);
    PcOkOf(s, a);
    OwedSplits(s.actors, a, pc', ToPostCapture, o);
    OwedSplits(s.actors, a, pc', ToAdvance, o);
    TallyParts(s.db, s.actors, o);
    CanStartParts(s, o);
    OnItsWayNow(s, a, o);
    var posting, advancing := OwedByOthers(s.actors, a, ToPostCapture, o), OwedByOthers(s.actors, a, ToAdvance, o);
    RunLeavesHopeless(s.db, pc, s.window, input, o, Coming(s, o), posting, advancing);
    RunKeepsRows(s.db, pc, s.window, input);
    GrowsAt(s.db, db', o);
    ActIs(s, a, input);
    var s' := Step(s, Act(a, input));
    StepBringsNothing(s, Act(a, input), o);
    var toPost, toAdvance := Owed(s'.actors, ToPostCapture, o), Owed(s'.actors, ToAdvance, o);
    LessHope(s'.db.orders[o].status, Billable(s.db.orders[o].bill), Coming(s, o), Coming(s', o), toPost, toPost,
      toAdvance, toAdvance);
    CanStartParts(s', o);
  }

  lemma CanStartParts(s: State, o: int64)
    requires o in s.db.orders
    ensures CanStart(s, o)
       <==> Hopeful(s.db.orders[o].status, Billable(s.db.orders[o].bill), Coming(s, o),
         Owed(s.actors, ToPostCapture, o), Owed(s.actors, ToAdvance, o))
  {
  }

  /** No redelivery, sweep or handler ever starts such an order, nor posts a capture for it. */
  lemma {:induction false} LostCaptureIsPermanent(s: State, more: seq<Action>, o: int64)
    requires Reachable(s) && o in s.db.orders && !CanStart(s, o)
    ensures var s' := Continue(s, more);
      && o in s'.db.orders && !CanStart(s', o)
      && Count(s'.db.ledger, o, Capture) == Count(s.db.ledger, o, Capture)
      && (s.db.orders[o].status == PaymentFailed ==> s'.db.orders[o].status == PaymentFailed)
    decreases |more|
  {
    hide *;
    if more == [] {
      ContinueNothing(s);
    } else {
      var n := |more| - 1;
      LostCaptureIsPermanent(s, more[..n], o);
      assert more[..n] + [more[n]] == more;
      ContinueStep(s, more[..n], more[n]);
      ContinueReachable(s, more[..n]);
      ReachableInv(Continue(s, more[..n]));
      ReachableCheckouts(Continue(s, more[..n]));
      StepLeavesHopeless(Continue(s, more[..n]), more[n], o);
    }
  }

  /** A failed payment is final: whatever the provider reports later, the order stays failed and is never captured. */
  lemma FailedIsForever(s: State, more: seq<Action>, o: int64)
    requires Reachable(s) && o in s.db.orders && s.db.orders[o].status == PaymentFailed
    ensures var s' := Continue(s, more);
      o in s'.db.orders && s'.db.orders[o].status == PaymentFailed && Count(s'.db.ledger, o, Capture) == 0
  {
    OneCapturePerOrder(s, o);
    hide Reachable, Continue, Count, Owed;
    LostCaptureIsPermanent(s, more, o);
  }

  // ----- the ways it can -----

  /** The actor that is to move the order on does so. */
  lemma AdvanceStarts(s: State, a: nat, o: int64)
    requires a in s.actors && Owes(s.actors[a], ToAdvance, o) && o in s.db.orders && s.db.orders[o].status == Paid
    ensures HasStarted(Step(s, Act(a, QUIET)).db, o)
  {
  }

  /** The actor that is to post the capture does so, and will then move the order on. */
  lemma PostLeadsToAdvance(s: State, a: nat, o: int64)
    requires a in s.actors && Owes(s.actors[a], ToPostCapture, o) && PcOk(s.db, s.window, s.actors[a])
    requires o in s.db.orders && s.db.orders[o].status == Paid && Billable(s.db.orders[o].bill)
    ensures var s' := Step(s, Act(a, QUIET));
      a in s'.actors && Owes(s'.actors[a], ToAdvance, o) && o in s'.db.orders && s'.db.orders[o].status == Paid
  {
  }

  lemma PaidCanStart(s: State, o: int64) returns (more: seq<Action>)
    requires Inv(s) && o in s.db.orders && s.db.orders[o].status == Paid && CanStart(s, o)
    ensures HasStarted(Continue(s, more).db, o)
  {
    hide Continue, Inv, Owes, HasStarted, Step;
    InvParts(s);
    if Owed(s.actors, ToAdvance, o) > 0 {
      var a :| a in Holders(s.actors, ToAdvance, o);
      AdvanceStarts(s, a, o);
      more := [Act(a, QUIET)];
      OneMore(s, Act(a, QUIET));
    } else {
      var a :| a in Holders(s.actors, ToPostCapture, o);
      PcOkOf(s, a);
      PostLeadsToAdvance(s, a, o);
      AdvanceStarts(Step(s, Act(a, QUIET)), a, o);
      OneMore(s, Act(a, QUIET));
      ContinueStep(s, [Act(a, QUIET)], Act(a, QUIET));
      more := [Act(a, QUIET)] + [Act(a, QUIET)];
    }
  }

  lemma {:induction false} UnusedKey(used: set<string>) returns (key: string)
    ensures key !in used && forall t :: t in used ==> |t| < |key|
  {
    if used == {} {
      key := "x";
    } else {
      var t :| t in used;
      var shorter := UnusedKey(used - {t});
      key := seq(|shorter| + |t|, _ => 'x') + "x";
      forall u | u in used ensures |u| < |key| { if u != t { assert u in used - {t}; } }
    }
  }

  /** Nothing but the clock, the orders and the ledger matters to a capture that follows. */
  predicate SameOrders(db: Db, db': Db)
  {
    db'.orders == db.orders && db'.ledger == db.ledger && db'.now == db.now
  }

  /** Once an actor is to load the order for its capture, it can start it. */
  lemma CaptureFollows(s: State, a: nat, world: World, n: nat, db: Db, o: int64, cont: Cont) returns (more: seq<Action>)
    requires a in s.actors && Ran(s.db, s.actors[a], s.window, world, n, db, LoadForCapture(o, cont))
    requires SameOrders(s.db, db) && Capturable(s.db, o)
    ensures HasStarted(Continue(s, more).db, o)
  {
    hide Run, Ran, RunFor, Continue, HasStarted, BegunRow;
    CaptureAlone(db, o, cont, s.window, world);
    var done := db.(orders := db.orders[o := BegunRow(db.orders[o], db.now)],
      ledger := db.ledger + [Captured(db.orders[o].bill)]);
    RanThen(s.db, s.actors[a], s.window, world, n, db, LoadForCapture(o, cont), 4, done, Done(cont));
    RanIs(s.db, s.actors[a], s.window, world, n + 4, done, Done(cont));
    more := ActorGoesOn(s, a, world, n + 4);
    BegunHasStarted(done, o, db);
  }

  /** A pending order with amounts the builder takes. */
  predicate Capturable(db: Db, o: int64)
  {
    o in db.orders && db.orders[o].bill.order == o && db.orders[o].status == PendingPayment
      && Billable(db.orders[o].bill)
  }

  /** Actor 0 stops what it was doing and starts on this. */
  function Fresh(s: State, pc: Pc): State
  {
    s.(actors := s.actors[0 := pc])
  }

  lemma FreshFollows(s: State, pc: Pc)
    requires EntryPoint(pc)
    ensures Continue(s, [Crash(0), Begin(0, pc)]) == Fresh(s, pc)
  {
    var idle := Step(s, Crash(0));
    assert Step(idle, Begin(0, pc)) == Fresh(s, pc) by {
      assert idle.actors[0 := pc] == s.actors[0 := pc];
    }
    OneMore(s, Crash(0));
    ContinueStep(s, [Crash(0)], Begin(0, pc));
    assert [Crash(0)] + [Begin(0, pc)] == [Crash(0), Begin(0, pc)];
    hide Continue, Step;
  }

  /** A payment that is still open: the sweep asks, and the provider reports success. */
  lemma SweepCanStart(s: State, o: int64, i: nat) returns (more: seq<Action>)
    requires Registered(s.db, i, o) && !Final(s.db.intents[i].status) && Capturable(s.db, o)
    ensures HasStarted(Continue(s, more).db, o)
  {
    hide *;
    var n, db := SweepReachesCapture(s.db, o, i, s.window);
    FreshFollows(s, ListStale) by { StartsHere(""); }
    FreshIs(s, ListStale);
    var rest := CaptureFollows(Fresh(s, ListStale), 0, SweepWorld(i), n, db, o, Reconcile([]));
    ContinueTwice(s, [Crash(0), Begin(0, ListStale)], rest);
    more := [Crash(0), Begin(0, ListStale)] + rest;
  }

  lemma StartsHere(key: string)
    ensures EntryPoint(ListStale) && EntryPoint(LoadHook(key))
  {
  }

  lemma FreshIs(s: State, pc: Pc)
    ensures Fresh(s, pc).db == s.db && 0 in Fresh(s, pc).actors && Fresh(s, pc).actors[0] == pc
      && Fresh(s, pc).window == s.window
  {
  }

  const PAID := QUIET.(payment := Payment("", "", Succeeded, ""))

  function SweepWorld(i: nat): World
  {
    World(QUIET, [i], [PAID], [])
  }

  lemma SweepReachesCapture(db: Db, o: int64, i: nat, window: nat) returns (n: nat, db': Db)
    requires Registered(db, i, o) && !Final(db.intents[i].status)
    ensures Ran(db, ListStale, window, SweepWorld(i), n, db', LoadForCapture(o, Reconcile([]))) && SameOrders(db, db')
  {
    var world, seen := SweepWorld(i), db.intents[i].status;
    var listed := Sweep([SnapshotOf(db, i)]);
    var moving := MoveIntent(i, o, seen, Succeeded, Reconcile([]));
    SweepCalls(db, o, i, window);
    hide Run, Ran, RunFor, TransitionIntent, SnapshotOf, Registered;
    RanNothing(db, ListStale, window, world);
    RanMore(db, ListStale, window, world, 0, db, ListStale);
    RanMore(db, ListStale, window, world, 1, db, listed);
    RanMore(db, ListStale, window, world, 2, db, moving);
    n, db' := 3, TransitionIntent(db, i, seen, Succeeded).0;
  }

  lemma SweepCalls(db: Db, o: int64, i: nat, window: nat)
    requires Registered(db, i, o) && !Final(db.intents[i].status)
    ensures var seen, listed := db.intents[i].status, Sweep([SnapshotOf(db, i)]);
      var moving, moved := MoveIntent(i, o, seen, Succeeded, Reconcile([])), TransitionIntent(db, i, seen, Succeeded).0;
      && Run(db, ListStale, window, QUIET.(stale := [i])) == (db, listed)
      && Run(db, listed, window, PAID) == (db, moving)
      && Run(db, moving, window, QUIET) == (moved, LoadForCapture(o, Reconcile([])))
      && SameOrders(db, moved)
  {
    hide RunRequest, RunRefund;
    assert [SnapshotOf(db, i)][1..] == [];
    assert [i][0] in [i] && IsStale(db, i);
    var listing := Run(db, ListStale, window, QUIET.(stale := [i])).1;
    assert listing.Sweep? && |listing.stale| == 1 && listing.stale[0] == SnapshotOf(db, i);
    assert listing.stale == [SnapshotOf(db, i)];
  }

  /** A payment that is finished: a webhook reports success once more. */
  lemma WebhookCanStart(s: State, o: int64, i: nat) returns (more: seq<Action>)
    requires Reportable(s.db, o, i) && Final(s.db.intents[i].status) && Capturable(s.db, o)
    ensures HasStarted(Continue(s, more).db, o)
  {
    hide *;
    var key := UnusedKey(s.db.hooks.Keys);
    var payment := Said(s.db, o, i);
    var hook := ReceiveHook(key, Some(payment));
    var heard := Heard(s, key, payment);
    HookIsHeard(s, o, i, key);
    WebhookReachesCapture(heard.db, o, i, key, payment, s.window);
    FreshFollows(heard, LoadHook(key)) by { StartsHere(key); }
    var rest := CaptureFollows(Fresh(heard, LoadHook(key)), 0, SILENT, 2, heard.db, o, Webhook(key)) by {
      FreshIs(heard, LoadHook(key));
    }
    ContinueTwice(heard, [Crash(0), Begin(0, LoadHook(key))], rest);
    OneMore(s, hook);
    ContinueTwice(s, [hook], [Crash(0), Begin(0, LoadHook(key))] + rest);
    more := [hook] + ([Crash(0), Begin(0, LoadHook(key))] + rest);
  }

  const SILENT := World(QUIET, [], [], [])

  function Said(db: Db, o: int64, i: nat): Payment
    requires Reportable(db, o, i)
  {
    Payment(db.intents[i].provider, db.intents[i].providerRef, Succeeded, "")
  }

  function Heard(s: State, key: string, payment: Payment): State
  {
    s.(db := s.db.(hooks := s.db.hooks[key := Hook(Some(payment), false)]))
  }

  lemma HookIsHeard(s: State, o: int64, i: nat, key: string)
    requires Reportable(s.db, o, i) && Final(s.db.intents[i].status) && key !in s.db.hooks && Capturable(s.db, o)
    ensures var payment := Said(s.db, o, i); var heard := Heard(s, key, payment);
      && Step(s, ReceiveHook(key, Some(payment))) == heard
      && SameOrders(heard.db, heard.db) && Capturable(heard.db, o) && heard.window == s.window
      && Reportable(heard.db, o, i) && Final(heard.db.intents[i].status) && Said(heard.db, o, i) == payment
      && key in heard.db.hooks && heard.db.hooks[key] == Hook(Some(payment), false)
  {
    hide FindByRef;
  }

  lemma WebhookReachesCapture(db: Db, o: int64, i: nat, key: string, payment: Payment, window: nat)
    requires Reportable(db, o, i) && Final(db.intents[i].status) && payment == Said(db, o, i)
    requires key in db.hooks && db.hooks[key] == Hook(Some(payment), false)
    ensures Ran(db, LoadHook(key), window, SILENT, 2, db, LoadForCapture(o, Webhook(key)))
  {
    HookCalls(db, o, i, key, payment, window);
    hide Run, Ran, RunFor, Reportable;
    RanNothing(db, LoadHook(key), window, SILENT);
    RanMore(db, LoadHook(key), window, SILENT, 0, db, LoadHook(key));
    RanMore(db, LoadHook(key), window, SILENT, 1, db, LoadIntent(key, payment));
  }

  lemma HookCalls(db: Db, o: int64, i: nat, key: string, payment: Payment, window: nat)
    requires Reportable(db, o, i) && Final(db.intents[i].status) && payment == Said(db, o, i)
    requires key in db.hooks && db.hooks[key] == Hook(Some(payment), false)
    ensures Run(db, LoadHook(key), window, QUIET) == (db, LoadIntent(key, payment))
    ensures Run(db, LoadIntent(key, payment), window, QUIET) == (db, LoadForCapture(o, Webhook(key)))
  {
    hide FindByRef, RunRequest, RunRefund;
  }

  /** An actor in the checkout registers the session, or goes on to the capture it is on its way to. */
  lemma ActorCanStart(s: State, a: nat, o: int64) returns (more: seq<Action>)
    requires Inv(s) && CheckoutInv(s) && a in s.actors && OnItsWay(s.db.admits, s.actors[a], o) && Capturable(s.db, o)
    ensures HasStarted(Continue(s, more).db, o)
  {
    hide *;
    var pc := s.actors[a];
    WaysToBe(s.db.admits, pc, o);
    if pc.OpenIntent? || pc.CreateSession? || pc.AttachSession? {
      CheckoutParts(s);
      RowsParts(s.db);
      var n, i, db := CheckoutRegisters(s.db, pc, o, s.window);
      var before := ActorGoesOn(s, a, CHECKOUT_WORLD, n);
      RanIs(s.db, pc, s.window, CHECKOUT_WORLD, n, db, Idle);
      StillCapturable(s.db, db, o);
      var rest := SweepCanStart(Continue(s, before), o, i);
      ContinueTwice(s, before, rest);
      more := before + rest;
    } else if pc.RecordCharge? {
      var db := ChargeReachesCapture(s.db, pc, o, s.window);
      more := CaptureFollows(s, a, SILENT, 1, db, o, pc.cont);
    } else if pc.LoadForCapture? {
      RanNothing(s.db, pc, s.window, SILENT);
      StillCapturable(s.db, s.db, o);
      more := CaptureFollows(s, a, SILENT, 0, s.db, o, pc.cont);
    } else {
      InvParts(s);
      PcOkOf(s, a);
      NowOf(s, a);
      more := ClaimCanStart(s, a, o);
    }
  }

  lemma WaysToBe(admits: set<string>, pc: Pc, o: int64)
    requires OnItsWay(admits, pc, o)
    ensures pc.OpenIntent? || pc.CreateSession? || pc.AttachSession? || pc.RecordCharge? || pc.LoadForCapture?
      || pc.ClaimPaid?
    ensures pc.LoadForCapture? ==> pc == LoadForCapture(o, pc.cont)
    ensures pc.ClaimPaid? ==> pc.bill.order == o
  {
  }

  lemma StillCapturable(db: Db, db': Db, o: int64)
    requires Capturable(db, o)
    ensures SameOrders(db, db)
    ensures SameOrders(db, db') ==> Capturable(db', o)
  {
  }

  const CHECKOUT_WORLD := World(QUIET.(payment := Payment("", "ref", Pending, "")), [], [], [])

  /** Up to three calls: intent, provider, session. */
  lemma CheckoutRegisters(db: Db, pc: Pc, o: int64, window: nat) returns (n: nat, i: nat, db': Db)
    requires IntentsOk(db) && KnowsPayment(db, pc) && OnItsWay(db.admits, pc, o)
    requires pc.OpenIntent? || pc.CreateSession? || pc.AttachSession?
    ensures Ran(db, pc, window, CHECKOUT_WORLD, n, db', Idle)
    ensures SameOrders(db, db') && Registered(db', i, o) && !Final(db'.intents[i].status)
  {
    hide Run, Ran, Registered, Unregistered, SameOrders, IntentsOk;
    RanNothing(db, pc, window, CHECKOUT_WORLD);
    if pc.AttachSession? {
      AttachRegisters(db, pc, o, window);
      RanMore(db, pc, window, CHECKOUT_WORLD, 0, db, pc);
      n, i, db' := 1, pc.intent, Run(db, pc, window, QUIET).0;
    } else if pc.CreateSession? {
      var attaching := AttachSession(pc.order, pc.intent, "ref");
      SessionIsCreated(db, pc, window);
      AttachRegisters(db, attaching, o, window);
      RanMore(db, pc, window, CHECKOUT_WORLD, 0, db, pc);
      RanMore(db, pc, window, CHECKOUT_WORLD, 1, db, attaching);
      n, i, db' := 2, pc.intent, Run(db, attaching, window, QUIET).0;
    } else {
      var creating := CreateSession(pc.order, |db.intents|, pc.provider);
      var attaching := AttachSession(pc.order, |db.intents|, "ref");
      var after := IntentIsOpened(db, pc, window);
      SessionIsCreated(after, creating, window);
      AttachRegisters(after, attaching, o, window);
      RanMore(db, pc, window, CHECKOUT_WORLD, 0, db, pc);
      RanMore(db, pc, window, CHECKOUT_WORLD, 1, after, creating);
      RanMore(db, pc, window, CHECKOUT_WORLD, 2, after, attaching);
      n, i, db' := 3, |db.intents|, Run(after, attaching, window, QUIET).0;
      AlsoSameOrders(db, after, db');
    }
  }

  lemma AlsoSameOrders(db: Db, db': Db, db'': Db)
    requires SameOrders(db, db') && SameOrders(db', db'')
    ensures SameOrders(db, db'')
  {
  }

  lemma AttachRegisters(db: Db, pc: Pc, o: int64, window: nat)
    requires pc.AttachSession? && pc.order == o && pc.providerRef != "" && Unregistered(db, pc.intent, o)
    ensures var (db', pc') := Run(db, pc, window, QUIET);
      pc' == Idle && SameOrders(db, db') && Registered(db', pc.intent, o) && !Final(db'.intents[pc.intent].status)
  {
  }

  lemma SessionIsCreated(db: Db, pc: Pc, window: nat)
    requires pc.CreateSession?
    ensures Run(db, pc, window, Hear(CHECKOUT_WORLD, pc)) == (db, AttachSession(pc.order, pc.intent, "ref"))
  {
  }

  lemma IntentIsOpened(db: Db, pc: Pc, window: nat) returns (after: Db)
    requires IntentsOk(db) && KnowsPayment(db, pc) && pc.OpenIntent? && pc.provider in db.admits
    ensures Run(db, pc, window, QUIET) == (after, CreateSession(pc.order, |db.intents|, pc.provider))
    ensures SameOrders(db, after) && Unregistered(after, |db.intents|, pc.order)
  {
    hide Run, IntentsOk, CheckoutKey;
    KeyIsNew(db, pc.order, pc.provider);
    OpeningIs(db, pc, window, QUIET);
    after := Run(db, pc, window, QUIET).0;
  }

  /** A finished payment whose success has only its charge reference left to be recorded. */
  lemma ChargeReachesCapture(db: Db, pc: Pc, o: int64, window: nat) returns (db': Db)
    requires pc.RecordCharge? && OnItsWay(db.admits, pc, o)
    ensures Ran(db, pc, window, SILENT, 1, db', LoadForCapture(o, pc.cont)) && SameOrders(db, db')
  {
    ChargeIsRecorded(db, pc, o, window);
    hide Run, Ran;
    RanNothing(db, pc, window, SILENT);
    RanMore(db, pc, window, SILENT, 0, db, pc);
    db' := Run(db, pc, window, QUIET).0;
  }

  lemma ChargeIsRecorded(db: Db, pc: Pc, o: int64, window: nat)
    requires pc.RecordCharge? && OnItsWay(db.admits, pc, o)
    ensures var (db', pc') := Run(db, pc, window, QUIET); pc' == LoadForCapture(o, pc.cont) && SameOrders(db, db')
  {
  }

  lemma ClaimCanStart(s: State, a: nat, o: int64) returns (more: seq<Action>)
    requires a in s.actors && s.actors[a].ClaimPaid? && s.actors[a].bill.order == o && PcOk(s.db, s.window, s.actors[a])
    requires Capturable(s.db, o)
    ensures HasStarted(Continue(s, more).db, o)
  {
    hide Run, Ran, RunFor, Continue, HasStarted, BegunRow;
    var pc := s.actors[a];
    ClaimAlone(s.db, o, pc.cont, s.window, SILENT);
    var done := s.db.(orders := s.db.orders[o := BegunRow(s.db.orders[o], s.db.now)],
      ledger := s.db.ledger + [Captured(s.db.orders[o].bill)]);
    RanIs(s.db, pc, s.window, SILENT, 3, done, Done(pc.cont));
    more := ActorGoesOn(s, a, SILENT, 3);
    BegunHasStarted(done, o, s.db);
  }

  lemma PendingCanStart(s: State, o: int64) returns (more: seq<Action>)
    requires Inv(s) && CheckoutInv(s) && Capturable(s.db, o) && Coming(s, o)
    ensures HasStarted(Continue(s, more).db, o)
  {
    hide Inv, CheckoutInv, Capturable, Reportable, Registered, OnItsWay, Continue, HasStarted, Final;
    if IsReportable(s.db, o) {
      var i: nat :| Reportable(s.db, o, i);
      ReportableIsRegistered(s.db, o, i);
      if Final(s.db.intents[i].status) { more := WebhookCanStart(s, o, i); } else { more := SweepCanStart(s, o, i); }
    } else {
      var a :| a in s.actors && OnItsWay(s.db.admits, s.actors[a], o);
      more := ActorCanStart(s, a, o);
    }
  }

  lemma RanIs(db: Db, pc: Pc, window: nat, world: World, n: nat, db': Db, pc': Pc)
    requires Ran(db, pc, window, world, n, db', pc')
    ensures RunFor(db, pc, window, world, n) == (db', pc')
  {
  }

  lemma BegunHasStarted(db: Db, o: int64, before: Db)
    requires o in db.orders && o in before.orders && db.orders[o] == BegunRow(before.orders[o], before.now)
    ensures HasStarted(db, o)
  {
  }

  /** In any reachable state some continuation starts the order, with its one capture, if and only if it has started; or
      it is paid and an actor is about to move it on, or about to post amounts the builder takes; or it is pending with
      such amounts, and it is in its checkout, or has a session that the sweep or a webhook can still report on, or an
      actor is already on its way to the capture. */
  lemma OrderStartsIff(s: State, o: int64)
    requires Reachable(s) && o in s.db.orders
    ensures (exists more :: HasStarted(Continue(s, more).db, o)) <==> CanStart(s, o)
  {
    hide *;
    if CanStart(s, o) {
      ReachableInv(s);
      ReachableCheckouts(s);
      LedgerOnTerms(s, o);
      WaysToStart(s, o);
      if s.db.orders[o].status == Paid {
        var more := PaidCanStart(s, o);
      } else if s.db.orders[o].status == PendingPayment {
        var more := PendingCanStart(s, o);
      } else {
        ContinueNothing(s);
        assert HasStarted(Continue(s, []).db, o);
      }
    } else {
      forall more: seq<Action> ensures !HasStarted(Continue(s, more).db, o) {
        LostCaptureIsPermanent(s, more, o);
        StartedCanStart(Continue(s, more), o);
      }
    }
  }

  lemma WaysToStart(s: State, o: int64)
    requires CanStart(s, o) && s.db.orders[o].bill.order == o
    ensures s.db.orders[o].status == PendingPayment ==> Capturable(s.db, o) && Coming(s, o)
    ensures s.db.orders[o].status != PendingPayment && s.db.orders[o].status != Paid ==> HasStarted(s.db, o)
  {
    hide Coming;
  }

  lemma StartedCanStart(s: State, o: int64)
    ensures HasStarted(s.db, o) ==> CanStart(s, o)
  {
  }

  /** A refund can be posted for an order that has no capture, since only the payment has to have succeeded; it is
      backed by one later if and only if the order can still start. */
  lemma RefundWithoutCapture(s: State, o: int64)
    requires Reachable(s) && o in s.db.orders
    requires Count(s.db.ledger, o, Refund) > 0 && Count(s.db.ledger, o, Capture) == 0
    ensures Charged(s.db, o) && s.db.orders[o].status in {PendingPayment, PaymentFailed, Paid}
    ensures (exists more :: Count(Continue(s, more).db.ledger, o, Capture) > 0) <==> CanStart(s, o)
  {
    hide *;
    RefundIsCharged(s, o);
    NotStarted(s, o);
    OrderStartsIff(s, o);
    if CanStart(s, o) {
      var more :| HasStarted(Continue(s, more).db, o);
      ContinueReachable(s, more);
      StartedIsCaptured(Continue(s, more), o);
      assert Count(Continue(s, more).db.ledger, o, Capture) > 0;
    } else {
      forall more: seq<Action> ensures Count(Continue(s, more).db.ledger, o, Capture) == 0 {
        LostCaptureIsPermanent(s, more, o);
      }
    }
  }

  lemma RefundIsCharged(s: State, o: int64)
    requires Reachable(s) && Count(s.db.ledger, o, Refund) > 0
    ensures Charged(s.db, o)
  {
    hide Reachable, CheckoutInv, PaymentRowsOk, IntentsOk, Charged;
    ReachableCheckouts(s);
    RowsParts(s.db);
    var e := Counted(s.db.ledger, o, Refund);
  }

  lemma {:induction false} Counted(events: seq<Event>, o: int64, tag: Tag) returns (e: Event)
    requires Count(events, o, tag) > 0
    ensures e in events && e.bill.order == o && TagOf(e) == tag
  {
    var n := |events| - 1;
    if events[n].bill.order == o && TagOf(events[n]) == tag {
      e := events[n];
    } else {
      e := Counted(events[..n], o, tag);
    }
  }

  lemma NotStarted(s: State, o: int64)
    requires Reachable(s) && o in s.db.orders && Count(s.db.ledger, o, Capture) == 0
    ensures s.db.orders[o].status in {PendingPayment, PaymentFailed, Paid}
  {
    OneCapturePerOrder(s, o);
    hide Reachable, Count;
  }

  lemma StartedIsCaptured(s: State, o: int64)
    requires Reachable(s) && HasStarted(s.db, o)
    ensures Count(s.db.ledger, o, Capture) == 1
  {
    OneCapturePerOrder(s, o);
    hide Reachable, Count;
  }

  // ----- whether a refund under way can still settle -----

  /** The actor's next calls will post the order's refund, or mark its row failed. */
  predicate Settles(pc: Pc, o: int64)
  {
    || (pc.PostRefund? && pc.bill.order == o && Billable(pc.bill))
    || (pc.StoreAnswer? && pc.bill.order == o && (pc.answer == Failed || (pc.answer == Succeeded && Billable(pc.bill))))
  }

  ghost predicate RefundInHand(s: State, o: int64)
  {
    exists a :: a in s.actors && Settles(s.actors[a], o)
  }

  /** The order has a live refund row that has posted nothing. */
  predicate Unposted(db: Db, o: int64)
  {
    Live(db.refunds, o) == 1 && Count(db.ledger, o, Refund) == 0
  }

  /** The row is posted, or it has failed and a new refund can be tried. */
  predicate RefundSettled(db: Db, o: int64)
  {
    Live(db.refunds, o) == 0 || Count(db.ledger, o, Refund) == 1
  }

  lemma RunLeavesUnposted(db: Db, pc: Pc, window: nat, input: Input, o: int64)
    requires PcOk(db, window, pc) && Unposted(db, o) && !Settles(pc, o)
    ensures var (db', pc') := Run(db, pc, window, input); Unposted(db', o) && !Settles(pc', o)
  {
    hide Run, Count, Post, TransitionOrder, Live;
    if Errs(pc, input) {
      hide PcOk;
      ErrorsTakeOnNothing(db, pc, window, input, ToRefund, o);
      OnlyOwnersSettle(pc, input, o);
      OnlyOwnersSettle(Run(db, pc, window, input).1, input, o);
    } else if Reads(pc) {
      hide PcOk;
      ReadsTakeOnNothing(db, pc, window, input, ToRefund, o);
      OnlyOwnersSettle(pc, input, o);
      OnlyOwnersSettle(Run(db, pc, window, input).1, input, o);
    } else if Posts(pc) {
      hide PcOk;
      PostRuns(db, pc, window, input);
      PostCounts(db, Posting(pc), o, Refund);
      PostKeepsRefunds(db, Posting(pc));
      if pc.PostRefund? { RefundRefused(db, pc); }
    } else if Transits(pc) {
      hide PcOk;
      TransitRuns(db, pc, window, input);
      var (p, from, to) := Transition(pc);
      TransitKeepsRefunds(db, p, from, to);
    } else if pc.InsertRefund? || pc.StoreAnswer? {
      RefundRowLeavesUnposted(db, pc, window, input, o);
    } else {
      hide PcOk;
      RefundsUntouched(db, pc, window, input, o);
    }
  }

  /** An actor that can settle a refund owes it, which none about to read or to survive an error does. */
  lemma OnlyOwnersSettle(pc: Pc, input: Input, o: int64)
    ensures Settles(pc, o) ==> Owes(pc, ToRefund, o)
    ensures Errs(pc, input) || Reads(pc) ==> !Owes(pc, ToRefund, o)
  {
  }

  lemma RefundRefused(db: Db, pc: Pc)
    requires pc.PostRefund?
    ensures Post(db, Posting(pc)).1 == Billable(pc.bill)
  {
  }

  lemma RefundRowLeavesUnposted(db: Db, pc: Pc, window: nat, input: Input, o: int64)
    requires !Errs(pc, input) && PcOk(db, window, pc) && (pc.InsertRefund? || pc.StoreAnswer?) && Unposted(db, o)
      && !Settles(pc, o)
    ensures var (db', pc') := Run(db, pc, window, input); Unposted(db', o) && !Settles(pc', o)
  {
    hide Live, Count, Known;
    match pc
    case InsertRefund(bill, _, _) => LiveStep(db.refunds, RefundRow(bill.order, RefundPending), o);
    case StoreAnswer(bill, row, _, answer) =>
      if StoredStatus(answer).Some? {
        LiveUpdate(db.refunds, row, db.refunds[row].(status := StoredStatus(answer).value), o);
      }
  }

  lemma StepLeavesUnposted(s: State, action: Action, o: int64)
    requires Inv(s) && Unposted(s.db, o) && !RefundInHand(s, o)
    ensures Unposted(Step(s, action).db, o) && !RefundInHand(Step(s, action), o)
  {
    hide Inv, Unposted, Settles, Run, PcOf, EntryPoint, IdempotencyKey, Placed, Step;
    if action.Act? {
      var pc := PcOf(s.actors, action.actor);
      InvParts(s);
      PcOkOf(s, action.actor);
      PcOfSettles(s, action.actor, o);
      RunLeavesUnposted(s.db, pc, s.window, action.input, o);
      ActIs(s, action.actor, action.input);
    } else {
      OutsideLeavesUnposted(s, action, o);
    }
  }

  lemma PcOfSettles(s: State, a: nat, o: int64)
    requires !RefundInHand(s, o)
    ensures !Settles(PcOf(s.actors, a), o)
  {
  }

  lemma OutsideLeavesUnposted(s: State, action: Action, o: int64)
    requires !action.Act? && Unposted(s.db, o) && !RefundInHand(s, o)
    ensures Unposted(Step(s, action).db, o) && !RefundInHand(Step(s, action), o)
  {
    hide Live, Count, IdempotencyKey, Placed;
  }

  /** Otherwise the row stays as it is for good: nothing is posted for it, and since it is live every further refund
      of the order is refused. */
  lemma {:induction false} HeldRefundIsPermanent(s: State, more: seq<Action>, o: int64)
    requires Reachable(s) && Unposted(s.db, o) && !RefundInHand(s, o)
    ensures Unposted(Continue(s, more).db, o) && !RefundInHand(Continue(s, more), o)
    decreases |more|
  {
    hide *;
    if more == [] {
      ContinueNothing(s);
    } else {
      var n := |more| - 1;
      HeldRefundIsPermanent(s, more[..n], o);
      assert more[..n] + [more[n]] == more;
      ContinueStep(s, more[..n], more[n]);
      ContinueReachable(s, more[..n]);
      ReachableInv(Continue(s, more[..n]));
      StepLeavesUnposted(Continue(s, more[..n]), more[n], o);
    }
  }

  lemma RefundPosts(s: State, a: nat, o: int64)
    requires a in s.actors && s.actors[a].PostRefund? && Settles(s.actors[a], o) && Count(s.db.ledger, o, Refund) == 0
    ensures Count(Step(s, Act(a, QUIET)).db.ledger, o, Refund) == 1
  {
    PostCounts(s.db, Posting(s.actors[a]), o, Refund);
    hide Count;
  }

  lemma AnswerIsStored(s: State, a: nat, o: int64)
    requires a in s.actors && s.actors[a].StoreAnswer? && Settles(s.actors[a], o)
      && PcOk(s.db, s.window, s.actors[a]) && Unposted(s.db, o)
    ensures var s' := Step(s, Act(a, QUIET));
      if s.actors[a].answer == Failed then Live(s'.db.refunds, o) == 0
      else a in s'.actors && s'.actors[a].PostRefund? && Settles(s'.actors[a], o) && Count(s'.db.ledger, o, Refund) == 0
  {
    var pc := s.actors[a];
    LiveUpdate(s.db.refunds, pc.row, s.db.refunds[pc.row].(status := StoredStatus(pc.answer).value), o);
    hide Count, Live, Known;
  }

  lemma RefundCanSettle(s: State, o: int64) returns (more: seq<Action>)
    requires Inv(s) && Unposted(s.db, o) && RefundInHand(s, o)
    ensures RefundSettled(Continue(s, more).db, o)
  {
    hide Continue, Inv, Settles, Step, Live, Count;
    InvParts(s);
    var a :| a in s.actors && Settles(s.actors[a], o);
    PcOkOf(s, a);
    more := [Act(a, QUIET)];
    OneMore(s, Act(a, QUIET));
    SettlingSteps(s.actors[a], o);
    if s.actors[a].PostRefund? {
      RefundPosts(s, a, o);
    } else {
      AnswerIsStored(s, a, o);
      if s.actors[a].answer != Failed {
        RefundPosts(Step(s, Act(a, QUIET)), a, o);
        ContinueStep(s, more, Act(a, QUIET));
        more := more + [Act(a, QUIET)];
      }
    }
  }

  lemma SettlingSteps(pc: Pc, o: int64)
    requires Settles(pc, o)
    ensures pc.PostRefund? || pc.StoreAnswer?
  {
  }

  /** In any reachable state: some continuation settles an unposted refund if and only if an actor holds an answer
      that says how. */
  lemma RefundSettlesIff(s: State, o: int64)
    requires Reachable(s) && Unposted(s.db, o)
    ensures (exists more :: RefundSettled(Continue(s, more).db, o)) <==> RefundInHand(s, o)
  {
    hide *;
    if RefundInHand(s, o) {
      ReachableInv(s);
      var more := RefundCanSettle(s, o);
    } else {
      forall more: seq<Action> ensures !RefundSettled(Continue(s, more).db, o) {
        HeldRefundIsPermanent(s, more, o);
        UnpostedIsUnsettled(Continue(s, more).db, o);
      }
    }
  }

  lemma UnpostedIsUnsettled(db: Db, o: int64)
    ensures Unposted(db, o) ==> !RefundSettled(db, o)
  {
  }
}
