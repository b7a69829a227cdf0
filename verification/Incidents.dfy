/** Concrete runs in which things go wrong. */
module Incidents {
  import opened Results
  import opened Int64
  import opened Ledger
  import opened Bookkeeping
  import opened Orders
  import opened Payments
  import opened StoreRows
  import opened Actors
  import opened Protocol
  import opened Duties
  import opened Runs
  import opened Guarantees
  import opened Checkouts
  import opened SoloRuns
  import opened Outcomes
  import opened Earnings

  // ----- one session after another -----

  /** Where a run ends that starts with empty tables, given what the payments table admits. */
  function End(db: Db, run: seq<Action>): State
  {
    After(0, 0, db.admits, run)
  }

  /** Nobody is in the middle of anything. */
  ghost predicate Quiet(run: seq<Action>, db: Db)
  {
    var s := End(db, run);
    s.db == db && s.window == 0 && forall a :: a in s.actors ==> s.actors[a] == Idle
  }

  lemma Nothing(db: Db)
    requires db == Db(0, db.admits, map[], [], map[], [], [], [], [], [])
    ensures Quiet([], db)
  {
  }

  /** One actor works alone for some steps and then stops, finished or not. */
  lemma Session(run: seq<Action>, db: Db, pc: Pc, world: World, n: nat, db': Db, pc': Pc) returns (run': seq<Action>)
    requires Quiet(run, db) && EntryPoint(pc) && Ran(db, pc, 0, world, n, db', pc') && db'.admits == db.admits
    ensures Quiet(run', db')
  {
    hide Continue, After, RunFor, Step;
    var s := End(db, run);
    var acts := HandlersAreRuns(s, 0, pc, world, n);
    run' := run + ([Begin(0, pc)] + acts);
    RunContinues(0, 0, db.admits, run, [Begin(0, pc)] + acts);
    AfterStep(0, 0, db.admits, run', Crash(0));
    run' := run' + [Crash(0)];
    Stops(s.(db := db', actors := s.actors[0 := pc']));
  }

  lemma Stops(s: State)
    ensures Step(s, Crash(0)) == s.(actors := s.actors[0 := Idle])
  {
  }

  /** A buyer places an order, and its checkout gets this far. */
  lemma Checkout(run: seq<Action>, db: Db, bill: Bill, means: string, ready: bool, world: World, n: nat, db': Db,
    pc': Pc)
    returns (run': seq<Action>)
    requires Quiet(run, db) && bill.order !in db.orders && db'.admits == db.admits
    requires Ran(WithOrder(db, bill), CheckoutFrom(bill.order, means, ready), 0, world, n, db', pc')
    ensures Quiet(run', db')
  {
    hide Continue, After, RunFor, Step, WithOrder, CheckoutFrom;
    var s, placing := End(db, run), PlaceOrder(0, bill, 0, means, ready);
    Places(s, bill, means, ready);
    var placed := Step(s, placing);
    var acts := ActorGoesOn(placed, 0, world, n);
    AfterStep(0, 0, db.admits, run, placing);
    RunContinues(0, 0, db.admits, run + [placing], acts);
    run' := run + [placing] + acts;
    AfterStep(0, 0, db.admits, run', Crash(0));
    run' := run' + [Crash(0)];
    Stops(placed.(db := db', actors := placed.actors[0 := pc']));
  }

  function WithOrder(db: Db, bill: Bill): Db
  {
    db.(orders := db.orders[bill.order := Placed(bill, 0, db.now)])
  }

  lemma Places(s: State, bill: Bill, means: string, ready: bool)
    requires bill.order !in s.db.orders && PcOf(s.actors, 0).Idle?
    ensures Step(s, PlaceOrder(0, bill, 0, means, ready))
      == s.(db := WithOrder(s.db, bill), actors := s.actors[0 := CheckoutFrom(bill.order, means, ready)])
  {
    hide CheckoutFrom, Placed;
  }

  lemma HookArrives(run: seq<Action>, db: Db, key: string, payment: Payment)
    requires Quiet(run, db) && key !in db.hooks && Genuine(Some(payment))
    ensures Quiet(run + [ReceiveHook(key, Some(payment))],
      db.(hooks := db.hooks[key := Hook(Some(payment), false)]))
  {
    AfterStep(0, 0, db.admits, run, ReceiveHook(key, Some(payment)));
    hide After, Genuine;
  }

  lemma QuietOwesNothing(run: seq<Action>, db: Db, duty: Duty, o: int64)
    requires Quiet(run, db)
    ensures End(db, run).db == db && Reachable(End(db, run)) && Owed(End(db, run).actors, duty, o) == 0
  {
    NobodyOwes(End(db, run).actors, duty, o);
    hide Owed, After;
  }

  /** With nobody at work, an order that has not started can only be started through its payment. */
  lemma QuietCannotStart(run: seq<Action>, db: Db, o: int64)
    requires Quiet(run, db) && o in db.orders && !Started(db.orders[o].status)
    requires db.orders[o].status == PendingPayment ==> !IsReportable(db, o)
    ensures End(db, run).db == db && Reachable(End(db, run)) && !CanStart(End(db, run), o)
  {
    QuietOwesNothing(run, db, ToPostCapture, o);
    QuietOwesNothing(run, db, ToAdvance, o);
    hide Owed, After, Reachable, IsReportable, Billable;
  }

  // ----- checkouts that stop on the way -----

  /** Empty tables. */
  function Empty(admits: set<string>): Db
  {
    Db(0, admits, map[], [], map[], [], [], [], [], [])
  }

  /** The order's intent, with a session or without. */
  function OpenedIntent(bill: Bill, provider: string, ref: string): Intent
  {
    Intent(bill.order, provider, CheckoutKey(bill.order), ref, Pending, "", None, None, None)
  }

  /** The order has been placed, and its intent open. */
  function Opened(bill: Bill, provider: string, ref: string, admits: set<string>): Db
  {
    WithOrder(Empty(admits), bill).(intents := [OpenedIntent(bill, provider, ref)])
  }

  /** The process stops once the order is in (or payments are not enabled, or the method's provider is not configured):
      the order never gets a payment, and can never start. */
  lemma CheckoutCanStop(bill: Bill, means: string, ready: bool, admits: set<string>) returns (run: seq<Action>)
    ensures var s := After(0, 0, admits, run);
      && Reachable(s) && bill.order in s.db.orders && s.db.orders[bill.order].status == PendingPayment
      && s.db.intents == [] && !CanStart(s, bill.order)
  {
    hide After, Ran, RunFor, CheckoutFrom, Reachable, CanStart;
    var start := Empty(admits);
    var placed := WithOrder(start, bill);
    Nothing(start);
    RanNothing(placed, CheckoutFrom(bill.order, means, ready), 0, SILENT);
    run := Checkout([], start, bill, means, ready, SILENT, 0, placed, CheckoutFrom(bill.order, means, ready));
    QuietCannotStart(run, placed, bill.order);
  }

  /** The three calls of a checkout by card. */
  lemma CheckoutCalls(bill: Bill, provider: string, admits: set<string>, ref: string)
    requires provider in admits
    ensures var placed, o := WithOrder(Empty(admits), bill), bill.order;
      var open, world := Opened(bill, provider, "", admits), RefWorld(ref);
      && Ran(placed, OpenIntent(o, provider), 0, world, 1, open, CreateSession(o, 0, provider))
      && Ran(placed, OpenIntent(o, provider), 0, world, 2, open, AttachSession(o, 0, ref))
      && Ran(placed, OpenIntent(o, provider), 0, world, 3, Opened(bill, provider, ref, admits), Idle)
  {
    var placed, o := WithOrder(Empty(admits), bill), bill.order;
    var open, world := Opened(bill, provider, "", admits), RefWorld(ref);
    OpeningIs(placed, OpenIntent(o, provider), 0, QUIET);
    assert [] + [OpenedIntent(bill, provider, "")] == [OpenedIntent(bill, provider, "")];
    AttachingIs(bill, provider, admits, ref);
    hide Run, Ran, RunFor, Opened, WithOrder, Empty;
    RanNothing(placed, OpenIntent(o, provider), 0, world);
    RanMore(placed, OpenIntent(o, provider), 0, world, 0, placed, OpenIntent(o, provider));
    RanMore(placed, OpenIntent(o, provider), 0, world, 1, open, CreateSession(o, 0, provider));
    RanMore(placed, OpenIntent(o, provider), 0, world, 2, open, AttachSession(o, 0, ref));
  }

  function RefWorld(ref: string): World
  {
    World(QUIET.(payment := Payment("", ref, Pending, "")), [], [], [])
  }

  lemma AttachingIs(bill: Bill, provider: string, admits: set<string>, ref: string)
    ensures var open, o := Opened(bill, provider, "", admits), bill.order;
      && Run(open, CreateSession(o, 0, provider), 0, RefWorld(ref).call) == (open, AttachSession(o, 0, ref))
      && Run(open, AttachSession(o, 0, ref), 0, QUIET) == (Opened(bill, provider, ref, admits), Idle)
  {
    hide CheckoutKey, Placed;
    var open := Opened(bill, provider, "", admits);
    assert SetSession(open, 0, ref).intents == [OpenedIntent(bill, provider, ref)];
  }

  /** The process stops between the provider's opening a session and its being recorded: neither the sweep nor any
      webhook finds the payment, so even a buyer who pays leaves an order that can never start. */
  lemma SessionCanBeLost(bill: Bill, ref: string) returns (run: seq<Action>)
    ensures var s := After(0, 0, SCHEMA_PROVIDERS, run);
      && Reachable(s) && bill.order in s.db.orders && s.db.orders[bill.order].status == PendingPayment
      && s.db.intents == [OpenedIntent(bill, "stripe", "")] && !CanStart(s, bill.order)
  {
    hide After, Ran, RunFor, Reachable, CanStart;
    var start := Empty(SCHEMA_PROVIDERS);
    Nothing(start);
    CheckoutCalls(bill, "stripe", SCHEMA_PROVIDERS, ref);
    var open := Opened(bill, "stripe", "", SCHEMA_PROVIDERS);
    run := Checkout([], start, bill, "card", true, RefWorld(ref), 2, open, AttachSession(bill.order, 0, ref));
    QuietCannotStart(run, open, bill.order);
  }

  // ----- a success on a chain, lost on the way to the capture -----

  const CHAINS := SCHEMA_PROVIDERS + {"evm-base", "evm-polygon"}

  /** The intent after the sweep has seen the transfer. */
  function Deposited(bill: Bill): Db
  {
    Opened(bill, "evm-base", "ref", CHAINS).(intents := [OpenedIntent(bill, "evm-base", "ref")
      .(status := Succeeded, chargeRef := "transfer", succeededAt := Some(0))])
  }

  const TRANSFER := QUIET.(payment := Payment("evm-base", "ref", Succeeded, "transfer"))

  /** Four calls of the sweep: listing, the chain's answer, charge reference, intent status. */
  lemma SweepMovesIntent(bill: Bill)
    ensures Ran(Opened(bill, "evm-base", "ref", CHAINS), ListStale, 0, World(QUIET, [0], [TRANSFER], []), 4,
      Deposited(bill), LoadForCapture(bill.order, Reconcile([])))
  {
    var db, world, o, cont := Opened(bill, "evm-base", "ref", CHAINS), World(QUIET, [0], [TRANSFER], []), bill.order,
      Reconcile([]);
    var snapshot := Snapshot(0, o, "ref", Pending, "");
    var charged := db.(intents := [OpenedIntent(bill, "evm-base", "ref").(chargeRef := "transfer")]);
    SweepReads(bill);
    SweepWrites(bill);
    hide Run, Ran, RunFor, Opened, Deposited;
    RanNothing(db, ListStale, 0, world);
    RanMore(db, ListStale, 0, world, 0, db, ListStale);
    RanMore(db, ListStale, 0, world, 1, db, Sweep([snapshot]));
    RanMore(db, ListStale, 0, world, 2, db, RecordCharge(0, o, Pending, TRANSFER.payment, cont));
    RanMore(db, ListStale, 0, world, 3, charged, MoveIntent(0, o, Pending, Succeeded, cont));
  }

  lemma SweepReads(bill: Bill)
    ensures var db, o := Opened(bill, "evm-base", "ref", CHAINS), bill.order;
      var snapshot := Snapshot(0, o, "ref", Pending, "");
      && Run(db, ListStale, 0, QUIET.(stale := [0])) == (db, Sweep([snapshot]))
      && Run(db, Sweep([snapshot]), 0, TRANSFER)
        == (db, RecordCharge(0, o, Pending, TRANSFER.payment, Reconcile([])))
  {
    hide RunRequest, RunRefund, CheckoutKey, Placed, AfterCharge;
    var db, snapshot := Opened(bill, "evm-base", "ref", CHAINS), Snapshot(0, bill.order, "ref", Pending, "");
    assert [0][0] in [0] && IsStale(db, 0);
    var listing := Run(db, ListStale, 0, QUIET.(stale := [0])).1;
    assert listing.Sweep? && |listing.stale| == 1 && listing.stale[0] == snapshot;
    assert listing.stale == [snapshot];
    assert [snapshot][1..] == [];
  }

  lemma SweepWrites(bill: Bill)
    ensures var db, o, cont := Opened(bill, "evm-base", "ref", CHAINS), bill.order, Reconcile([]);
      var charged := db.(intents := [OpenedIntent(bill, "evm-base", "ref").(chargeRef := "transfer")]);
      && Run(db, RecordCharge(0, o, Pending, TRANSFER.payment, cont), 0, QUIET)
        == (charged, MoveIntent(0, o, Pending, Succeeded, cont))
      && Run(charged, MoveIntent(0, o, Pending, Succeeded, cont), 0, QUIET) == (Deposited(bill),
        LoadForCapture(o, cont))
  {
    hide RunRequest, RunRefund, CheckoutKey, Placed;
    var db := Opened(bill, "evm-base", "ref", CHAINS);
    var charged := db.(intents := [OpenedIntent(bill, "evm-base", "ref").(chargeRef := "transfer")]);
    assert SetChargeRef(db, 0, "transfer").intents == charged.intents;
    assert TransitionIntent(charged, 0, Pending, Succeeded).0.intents == Deposited(bill).intents;
  }

  /** With a payments table that admits the chains: the sweep moves a deposit's intent to succeeded and stops before the
      capture. The sweep lists the intent no more, and no webhook ever comes: the money is in, and the order can never
      start. */
  lemma DepositCanBeStranded(bill: Bill) returns (run: seq<Action>)
    ensures var s := After(0, 0, CHAINS, run);
      && Reachable(s) && bill.order in s.db.orders && s.db.orders[bill.order].status == PendingPayment
      && |s.db.intents| == 1 && s.db.intents[0].order == bill.order && s.db.intents[0].status == Succeeded
      && !CanStart(s, bill.order)
  {
    hide After, Ran, RunFor, Reachable, CanStart;
    var start := Empty(CHAINS);
    Nothing(start);
    CheckoutCalls(bill, "evm-base", CHAINS, "ref");
    var attached := Opened(bill, "evm-base", "ref", CHAINS);
    run := Checkout([], start, bill, "usdc-base", true, RefWorld("ref"), 3, attached, Idle);
    SweepMovesIntent(bill);
    run := Session(run, attached, ListStale, World(QUIET, [0], [TRANSFER], []), 4, Deposited(bill),
      LoadForCapture(bill.order, Reconcile([])));
    QuietCannotStart(run, Deposited(bill), bill.order);
  }

  // ----- a checkout by card, reported as paid -----

  function CheckedOut(bill: Bill): Db
  {
    var hook := Hook(Some(Payment("stripe", "ref", Succeeded, "charge")), false);
    Opened(bill, "stripe", "ref", SCHEMA_PROVIDERS).(hooks := map["paid" := hook])
  }

  lemma CheckedOutBy(bill: Bill) returns (run: seq<Action>)
    ensures Quiet(run, Opened(bill, "stripe", "ref", SCHEMA_PROVIDERS))
  {
    hide Quiet, Ran;
    var start := Empty(SCHEMA_PROVIDERS);
    Nothing(start);
    CheckoutCalls(bill, "stripe", SCHEMA_PROVIDERS, "ref");
    run := Checkout([], start, bill, "card", true, RefWorld("ref"), 3, Opened(bill, "stripe", "ref", SCHEMA_PROVIDERS),
      Idle);
  }

  lemma CheckoutHappens(bill: Bill) returns (run: seq<Action>)
    ensures Quiet(run, CheckedOut(bill))
  {
    hide Quiet;
    var attached, paid := Opened(bill, "stripe", "ref", SCHEMA_PROVIDERS),
      Payment("stripe", "ref", Succeeded, "charge");
    run := CheckedOutBy(bill);
    HookArrives(run, attached, "paid", paid);
    run := run + [ReceiveHook("paid", Some(paid))];
    assert attached.hooks["paid" := Hook(Some(paid), false)] == CheckedOut(bill).hooks;
  }

  /** The intent as the webhook job leaves it. */
  function PaidIntent(bill: Bill): Intent
  {
    Intent(bill.order, "stripe", CheckoutKey(bill.order), "ref", Succeeded, "charge", Some(0), None, None)
  }

  function Moneyed(bill: Bill): Db
  {
    CheckedOut(bill).(intents := [PaidIntent(bill)])
  }

  lemma AsShipped(bill: Bill)
    ensures CheckedOut(bill).admits == Moneyed(bill).admits == SCHEMA_PROVIDERS
  {
  }

  /** Four calls of the webhook job: event, intent, charge reference, intent status. */
  lemma WebhookMovesIntent(bill: Bill)
    ensures Ran(CheckedOut(bill), LoadHook("paid"), 0, SILENT, 4, Moneyed(bill),
      LoadForCapture(bill.order, Webhook("paid")))
  {
    var db, o, cont := CheckedOut(bill), bill.order, Webhook("paid");
    var payment := Payment("stripe", "ref", Succeeded, "charge");
    var charged := db.(intents := [db.intents[0].(chargeRef := "charge")]);
    WebhookLoads(bill);
    WebhookWrites(bill);
    hide Run, Ran, RunFor, CheckedOut, Moneyed;
    RanNothing(db, LoadHook("paid"), 0, SILENT);
    RanMore(db, LoadHook("paid"), 0, SILENT, 0, db, LoadHook("paid"));
    RanMore(db, LoadHook("paid"), 0, SILENT, 1, db, LoadIntent("paid", payment));
    RanMore(db, LoadHook("paid"), 0, SILENT, 2, db, RecordCharge(0, o, Pending, payment, cont));
    RanMore(db, LoadHook("paid"), 0, SILENT, 3, charged, MoveIntent(0, o, Pending, Succeeded, cont));
  }

  lemma WebhookLoads(bill: Bill)
    ensures var db := CheckedOut(bill); var payment := Payment("stripe", "ref", Succeeded, "charge");
      && Run(db, LoadHook("paid"), 0, QUIET) == (db, LoadIntent("paid", payment))
      && Run(db, LoadIntent("paid", payment), 0, QUIET) == (db,
        RecordCharge(0, bill.order, Pending, payment, Webhook("paid")))
  {
    hide RunRequest, RunRefund, IdempotencyKey, Placed;
    assert FindByRef(CheckedOut(bill).intents, "stripe", "ref") == Some(0);
  }

  lemma WebhookWrites(bill: Bill)
    ensures var db, o, cont := CheckedOut(bill), bill.order, Webhook("paid");
      var payment := Payment("stripe", "ref", Succeeded, "charge");
      var charged := db.(intents := [db.intents[0].(chargeRef := "charge")]);
      && Run(db, RecordCharge(0, o, Pending, payment, cont), 0, QUIET) == (charged,
        MoveIntent(0, o, Pending, Succeeded, cont))
      && Run(charged, MoveIntent(0, o, Pending, Succeeded, cont), 0, QUIET) == (Moneyed(bill), LoadForCapture(o, cont))
  {
    hide RunRequest, RunRefund, IdempotencyKey, Placed;
    var db := CheckedOut(bill);
    var charged := db.(intents := [db.intents[0].(chargeRef := "charge")]);
    assert SetChargeRef(db, 0, "charge").intents == charged.intents;
    assert TransitionIntent(charged, 0, Pending, Succeeded).0.intents == Moneyed(bill).intents;
  }

  // ----- a capture lost between two store calls -----

  lemma WebhookClaims(bill: Bill)
    ensures var paid := Moneyed(bill).(orders := map[bill.order := Moved(Placed(bill, 0, 0), Paid, 0)]);
      Ran(CheckedOut(bill), LoadHook("paid"), 0, SILENT, 6, paid, PostCapture(bill, Webhook("paid")))
  {
    var db, cont := Moneyed(bill), Webhook("paid");
    WebhookMovesIntent(bill);
    CaptureLoads(db, bill.order, cont, 0, SILENT);
    CaptureRuns(db, bill, cont, 0);
    var paid := db.(orders := map[bill.order := Moved(Placed(bill, 0, 0), Paid, 0)]);
    assert TransitionOrder(db, bill.order, PendingPayment, Paid) == (paid, true) by { ClaimIs(bill); }
    hide Run, Ran, RunFor, CheckedOut, TransitionOrder;
    RanThen(CheckedOut(bill), LoadHook("paid"), 0, SILENT, 4, db, LoadForCapture(bill.order, cont), 1, db,
      ClaimPaid(bill, cont));
    RanMore(CheckedOut(bill), LoadHook("paid"), 0, SILENT, 5, db, ClaimPaid(bill, cont));
  }

  lemma ClaimIs(bill: Bill)
    ensures var db := Moneyed(bill);
      TransitionOrder(db, bill.order, PendingPayment, Paid)
        == (db.(orders := map[bill.order := Moved(Placed(bill, 0, 0), Paid, 0)]), true)
  {
    hide Moved, IdempotencyKey;
    var db := Moneyed(bill);
    assert db.orders[bill.order := Moved(Placed(bill, 0, 0), Paid, 0)]
      == map[bill.order := Moved(Placed(bill, 0, 0), Paid, 0)];
  }

  /** A worker crashes between marking the order paid and posting its capture: the money is in, and the order can
      never start. */
  lemma CaptureCanBeLost(bill: Bill) returns (run: seq<Action>)
    ensures var s := After(0, 0, SCHEMA_PROVIDERS, run);
      && Reachable(s) && bill.order in s.db.orders && s.db.orders[bill.order].status == Paid
      && s.db.intents == [PaidIntent(bill)] && Count(s.db.ledger, bill.order, Capture) == 0 && !CanStart(s, bill.order)
  {
    hide After, Ran, Owed, CheckedOut, Reachable, Quiet;
    AsShipped(bill);
    var start := CheckoutHappens(bill);
    WebhookClaims(bill);
    var paid := Moneyed(bill).(orders := map[bill.order := Moved(Placed(bill, 0, 0), Paid, 0)]);
    run := Session(start, CheckedOut(bill), LoadHook("paid"), SILENT, 6, paid, PostCapture(bill, Webhook("paid")));
    QuietCannotStart(run, paid, bill.order);
    NothingPosted(bill);
  }

  lemma NothingPosted(bill: Bill)
    ensures CheckedOut(bill).ledger == []
    ensures Count([], bill.order, Capture) == Count([], bill.order, Refund) == 0
  {
  }

  // ----- a failure reported after the success -----

  function FailureHeard(bill: Bill): Db
  {
    Moneyed(bill).(hooks := CheckedOut(bill).hooks["failed" := Hook(Some(Payment("stripe", "ref", Failed, "")), false)])
  }

  function FailedOrder(bill: Bill): Db
  {
    FailureHeard(bill).(orders := map[bill.order := Moved(Placed(bill, 0, 0), PaymentFailed, 0)])
  }

  /** Four calls of the second webhook job: event, intent, order, order status. */
  lemma FailureSettles(bill: Bill)
    ensures Ran(FailureHeard(bill), LoadHook("failed"), 0, SILENT, 4, FailedOrder(bill), MarkProcessed("failed"))
  {
    var db, o, cont := FailureHeard(bill), bill.order, Webhook("failed");
    var payment := Payment("stripe", "ref", Failed, "");
    FailureIsFound(bill);
    FailureIsSettled(bill);
    hide Run, Ran, RunFor, FailureHeard, FailedOrder;
    RanNothing(db, LoadHook("failed"), 0, SILENT);
    RanMore(db, LoadHook("failed"), 0, SILENT, 0, db, LoadHook("failed"));
    RanMore(db, LoadHook("failed"), 0, SILENT, 1, db, LoadIntent("failed", payment));
    RanMore(db, LoadHook("failed"), 0, SILENT, 2, db, LoadForFailure(o, cont));
    RanMore(db, LoadHook("failed"), 0, SILENT, 3, db, MoveToFailed(o, cont));
  }

  lemma FailureIsFound(bill: Bill)
    ensures var db, payment := FailureHeard(bill), Payment("stripe", "ref", Failed, "");
      && Run(db, LoadHook("failed"), 0, QUIET) == (db, LoadIntent("failed", payment))
      && Run(db, LoadIntent("failed", payment), 0, QUIET) == (db, LoadForFailure(bill.order, Webhook("failed")))
  {
    hide RunRequest, RunRefund, CheckoutKey, Placed;
    assert FindByRef(FailureHeard(bill).intents, "stripe", "ref") == Some(0);
  }

  lemma FailureIsSettled(bill: Bill)
    ensures var db, o, cont := FailureHeard(bill), bill.order, Webhook("failed");
      && Run(db, LoadForFailure(o, cont), 0, QUIET) == (db, MoveToFailed(o, cont))
      && Run(db, MoveToFailed(o, cont), 0, QUIET) == (FailedOrder(bill), MarkProcessed("failed"))
  {
    hide RunRequest, RunRefund, CheckoutKey, Moved;
    var db := FailureHeard(bill);
    assert db.orders[bill.order := Moved(Placed(bill, 0, 0), PaymentFailed, 0)] == FailedOrder(bill).orders;
  }

  lemma FailureHappens(bill: Bill) returns (run: seq<Action>)
    ensures Quiet(run, FailedOrder(bill))
  {
    hide After, Ran, CheckedOut, Quiet;
    AsShipped(bill);
    var start := CheckoutHappens(bill);
    WebhookMovesIntent(bill);
    run := Session(start, CheckedOut(bill), LoadHook("paid"), SILENT, 4, Moneyed(bill),
      LoadForCapture(bill.order, Webhook("paid")));
    HookArrives(run, Moneyed(bill), "failed", Payment("stripe", "ref", Failed, "")) by { hide *; FreshKey(bill); }
    run := run + [ReceiveHook("failed", Some(Payment("stripe", "ref", Failed, "")))];
    FailureSettles(bill);
    run := Session(run, FailureHeard(bill), LoadHook("failed"), SILENT, 4, FailedOrder(bill), MarkProcessed("failed"));
  }

  lemma FailedRows(bill: Bill)
    ensures var db, o := FailedOrder(bill), bill.order;
      && db.admits == SCHEMA_PROVIDERS && o in db.orders && db.orders[o].bill == bill
      && db.orders[o].status == PaymentFailed && db.orders[o].acceptedAt == None
      && db.intents == [PaidIntent(bill)] && db.refunds == [] && db.ledger == []
  {
    hide CheckoutKey;
  }

  /** The first worker crashes once the intent has succeeded; the provider's earlier failure event then settles the
      order. The money is in, the order is in payment_failed, and no redelivery of the success will ever start it. */
  lemma SuccessCanEndInFailure(bill: Bill) returns (run: seq<Action>)
    ensures var s := After(0, 0, SCHEMA_PROVIDERS, run);
      && Reachable(s) && bill.order in s.db.orders && s.db.orders[bill.order].status == PaymentFailed
      && s.db.intents == [PaidIntent(bill)] && !CanStart(s, bill.order)
  {
    hide After, Quiet, Reachable, FailedOrder, CanStart;
    run := FailureHappens(bill);
    FailedRows(bill);
    QuietCannotStart(run, FailedOrder(bill), bill.order);
  }

  /** An admin then refunds the payment, which only the intent has to allow: the books hold a refund of an order whose
      capture was never posted, and never will be. */
  lemma RefundCanLackItsCapture(bill: Bill) returns (run: seq<Action>)
    requires Billable(bill)
    ensures var s := After(0, 0, SCHEMA_PROVIDERS, run);
      && Reachable(s) && bill.order in s.db.orders && s.db.orders[bill.order].status == PaymentFailed
      && Count(s.db.ledger, bill.order, Refund) == 1 && Count(s.db.ledger, bill.order, Capture) == 0
      && !CanStart(s, bill.order)
  {
    hide After, Quiet, Reachable, FailedOrder, CanStart, Ran, RunFor, Run, Count;
    run := FailureHappens(bill);
    FailedRows(bill);
    var db := FailedOrder(bill);
    var done := RefundedRows(db, bill, false);
    RefundRuns(db, bill, false);
    run := Session(run, db, LoadForRefund(bill.order), REFUND_WORLD, 7, done, Idle);
    QuietCannotStart(run, done, bill.order);
    CountStep([], Refunded(bill, false), bill.order, Refund);
    CountStep([], Refunded(bill, false), bill.order, Capture);
    NothingPosted(bill);
  }

  lemma FreshKey(bill: Bill)
    ensures "failed" !in Moneyed(bill).hooks && Genuine(Some(Payment("stripe", "ref", Failed, "")))
  {
  }

  // ----- a captured order -----

  function Begun(bill: Bill): Db
  {
    Moneyed(bill).(orders := map[bill.order := BegunRow(Placed(bill, 0, 0), 0)], ledger := [Captured(bill)])
  }

  lemma CaptureHappens(bill: Bill) returns (run: seq<Action>)
    requires Billable(bill)
    ensures Quiet(run, Begun(bill))
  {
    var db, cont := Moneyed(bill), Webhook("paid");
    WebhookMovesIntent(bill);
    CaptureAlone(db, bill.order, cont, 0, SILENT);
    BegunIs(bill);
    hide Run, Ran, RunFor, CheckedOut, Quiet, BegunRow;
    RanThen(CheckedOut(bill), LoadHook("paid"), 0, SILENT, 4, db, LoadForCapture(bill.order, cont), 4, Begun(bill),
      MarkProcessed("paid"));
    var start := CheckoutHappens(bill);
    run := Session(start, CheckedOut(bill), LoadHook("paid"), SILENT, 8, Begun(bill), MarkProcessed("paid"));
  }

  lemma BegunIs(bill: Bill)
    ensures var db := Moneyed(bill);
      bill.order in db.orders && db.orders[bill.order].bill == bill
      && db.(orders := db.orders[bill.order := BegunRow(db.orders[bill.order], db.now)],
        ledger := db.ledger + [Captured(bill)]) == Begun(bill)
  {
    hide BegunRow, IdempotencyKey;
    var db := Moneyed(bill);
    assert db.orders[bill.order := BegunRow(Placed(bill, 0, 0), 0)]
      == map[bill.order := BegunRow(Placed(bill, 0, 0), 0)];
  }

  // ----- a success reported after the failure has been taken down -----

  /** The intent once the failure has been stored, with a charge reference or without. */
  function FailedIntent(bill: Bill, chargeRef: string): Intent
  {
    OpenedIntent(bill, "stripe", "ref").(status := Failed, failedAt := Some(0), chargeRef := chargeRef)
  }

  const DECLINED := Payment("stripe", "ref", Failed, "")

  const RETRIED := Payment("stripe", "ref", Succeeded, "charge")

  /** Two webhook events in the order of their arrival; the first has been taken as far as the intent. */
  function Declined(bill: Bill): Db
  {
    Opened(bill, "stripe", "ref", SCHEMA_PROVIDERS).(hooks := map["failed" := Hook(Some(DECLINED), false)])
  }

  function FailureTaken(bill: Bill): Db
  {
    Declined(bill).(intents := [FailedIntent(bill, "")])
  }

  function SuccessComes(bill: Bill): Db
  {
    FailureTaken(bill).(hooks := Declined(bill).hooks["paid" := Hook(Some(RETRIED), false)])
  }

  lemma FailureIsTaken(bill: Bill)
    ensures Ran(Declined(bill), LoadHook("failed"), 0, SILENT, 3, FailureTaken(bill),
      LoadForFailure(bill.order, Webhook("failed")))
  {
    var db, o, cont := Declined(bill), bill.order, Webhook("failed");
    DeclineIsFound(bill);
    hide Run, Ran, RunFor, Declined, FailureTaken;
    RanNothing(db, LoadHook("failed"), 0, SILENT);
    RanMore(db, LoadHook("failed"), 0, SILENT, 0, db, LoadHook("failed"));
    RanMore(db, LoadHook("failed"), 0, SILENT, 1, db, LoadIntent("failed", DECLINED));
    RanMore(db, LoadHook("failed"), 0, SILENT, 2, db, MoveIntent(0, o, Pending, Failed, cont));
  }

  lemma DeclineIsFound(bill: Bill)
    ensures var db, o, cont := Declined(bill), bill.order, Webhook("failed");
      && Run(db, LoadHook("failed"), 0, QUIET) == (db, LoadIntent("failed", DECLINED))
      && Run(db, LoadIntent("failed", DECLINED), 0, QUIET) == (db, MoveIntent(0, o, Pending, Failed, cont))
      && Run(db, MoveIntent(0, o, Pending, Failed, cont), 0, QUIET) == (FailureTaken(bill), LoadForFailure(o, cont))
  {
    hide RunRequest, RunRefund, CheckoutKey, Placed;
    var db := Declined(bill);
    assert FindByRef(db.intents, "stripe", "ref") == Some(0);
    assert TransitionIntent(db, 0, Pending, Failed).0.intents == FailureTaken(bill).intents;
  }

  /** The order after the capture that the success brings about; the intent has its charge, and stays failed. */
  function BegunUnpaid(bill: Bill): Db
  {
    SuccessComes(bill).(intents := [FailedIntent(bill, "charge")],
      orders := map[bill.order := BegunRow(Placed(bill, 0, 0), 0)], ledger := [Captured(bill)])
  }

  lemma SuccessStillCaptures(bill: Bill)
    requires Billable(bill)
    ensures Ran(SuccessComes(bill), LoadHook("paid"), 0, SILENT, 7, BegunUnpaid(bill), MarkProcessed("paid"))
  {
    var db, o, cont := SuccessComes(bill), bill.order, Webhook("paid");
    var charged := db.(intents := [FailedIntent(bill, "charge")]);
    SuccessIsFound(bill);
    CaptureAlone(charged, o, cont, 0, SILENT) by { hide *; ChargedRows(bill); }
    ChargedRows(bill);
    hide Run, Ran, RunFor, SuccessComes, BegunUnpaid, BegunRow, Placed, FailedIntent;
    RanNothing(db, LoadHook("paid"), 0, SILENT);
    RanMore(db, LoadHook("paid"), 0, SILENT, 0, db, LoadHook("paid"));
    RanMore(db, LoadHook("paid"), 0, SILENT, 1, db, LoadIntent("paid", RETRIED));
    RanMore(db, LoadHook("paid"), 0, SILENT, 2, db, RecordCharge(0, o, Failed, RETRIED, cont));
    RanThen(db, LoadHook("paid"), 0, SILENT, 3, charged, LoadForCapture(o, cont), 4, BegunUnpaid(bill), Done(cont));
  }

  lemma ChargedRows(bill: Bill)
    ensures var db := SuccessComes(bill).(intents := [FailedIntent(bill, "charge")]);
      && bill.order in db.orders && db.orders[bill.order].bill == bill && db.orders[bill.order].status == PendingPayment
      && db.(orders := db.orders[bill.order := BegunRow(db.orders[bill.order], db.now)],
        ledger := db.ledger + [Captured(bill)]) == BegunUnpaid(bill)
  {
    hide CheckoutKey, BegunRow;
    var db := SuccessComes(bill).(intents := [FailedIntent(bill, "charge")]);
    assert db.orders[bill.order := BegunRow(Placed(bill, 0, 0), 0)] == BegunUnpaid(bill).orders;
  }

  lemma SuccessIsFound(bill: Bill)
    ensures var db, o, cont := SuccessComes(bill), bill.order, Webhook("paid");
      && Run(db, LoadHook("paid"), 0, QUIET) == (db, LoadIntent("paid", RETRIED))
      && Run(db, LoadIntent("paid", RETRIED), 0, QUIET) == (db, RecordCharge(0, o, Failed, RETRIED, cont))
      && Run(db, RecordCharge(0, o, Failed, RETRIED, cont), 0, QUIET)
        == (db.(intents := [FailedIntent(bill, "charge")]), LoadForCapture(o, cont))
  {
    hide RunRequest, RunRefund, CheckoutKey, Placed;
    var db := SuccessComes(bill);
    assert FindByRef(db.intents, "stripe", "ref") == Some(0);
    assert SetChargeRef(db, 0, "charge").intents == [FailedIntent(bill, "charge")];
  }

  lemma UnpaidRows(bill: Bill)
    ensures var db := BegunUnpaid(bill);
      && db.admits == SCHEMA_PROVIDERS && HasStarted(db, bill.order) && Finished(db, bill.order)
      && !PaidFor(db, bill.order) && db.intents == [FailedIntent(bill, "charge")]
  {
    hide CheckoutKey;
    assert IntentOf(BegunUnpaid(bill), 0, bill.order);
  }

  /** A declined payment is stored as failed and the process stops before the order follows; then the buyer's retry
      succeeds, and the success starts the order all the same. But the intent stays failed, so the seller's share is
      never released, and the buyer can never be refunded. */
  lemma SuccessCanComeTooLate(bill: Bill) returns (run: seq<Action>)
    requires Billable(bill)
    ensures var s := After(0, 0, SCHEMA_PROVIDERS, run);
      && Reachable(s) && HasStarted(s.db, bill.order) && s.db.intents == [FailedIntent(bill, "charge")]
      && forall more ::
        (Releases(Continue(s, more).db, bill.order) == 0 && Count(Continue(s, more).db.ledger, bill.order, Refund) == 0)
  {
    hide *;
    run := UnpaidHappens(bill);
    UnpaidRows(bill);
    QuietOwesNothing(run, BegunUnpaid(bill), ToRelease, bill.order);
    EndIs(BegunUnpaid(bill), run);
    var s := After(0, 0, SCHEMA_PROVIDERS, run);
    forall more: seq<Action>
      ensures Releases(Continue(s, more).db, bill.order) == 0
        && Count(Continue(s, more).db.ledger, bill.order, Refund) == 0
    {
      UnpaidForever(s, more, bill.order);
    }
  }

  lemma EndIs(db: Db, run: seq<Action>)
    ensures End(db, run) == After(0, 0, db.admits, run)
  {
  }

  lemma UnpaidHappens(bill: Bill) returns (run: seq<Action>)
    requires Billable(bill)
    ensures Quiet(run, BegunUnpaid(bill))
  {
    hide Quiet, Ran, RunFor;
    run := CheckedOutBy(bill);
    HookArrives(run, Opened(bill, "stripe", "ref", SCHEMA_PROVIDERS), "failed", DECLINED);
    run := run + [ReceiveHook("failed", Some(DECLINED))];
    assert Quiet(run, Declined(bill)) by { OneHook(bill); }
    FailureIsTaken(bill);
    run := Session(run, Declined(bill), LoadHook("failed"), SILENT, 3, FailureTaken(bill),
      LoadForFailure(bill.order, Webhook("failed")));
    HookArrives(run, FailureTaken(bill), "paid", RETRIED);
    run := run + [ReceiveHook("paid", Some(RETRIED))];
    SuccessStillCaptures(bill);
    run := Session(run, SuccessComes(bill), LoadHook("paid"), SILENT, 7, BegunUnpaid(bill), MarkProcessed("paid"));
  }

  lemma OneHook(bill: Bill)
    ensures var db := Opened(bill, "stripe", "ref", SCHEMA_PROVIDERS);
      db.(hooks := db.hooks["failed" := Hook(Some(DECLINED), false)]) == Declined(bill)
  {
    hide CheckoutKey, Placed;
    assert Opened(bill, "stripe", "ref", SCHEMA_PROVIDERS).hooks["failed" := Hook(Some(DECLINED), false)]
      == Declined(bill).hooks;
  }

  // ----- a refund that hangs -----

  /** Calls of an admin's refund up to the inserted row, on any rows with the paid intent and no refund. */
  lemma RefundInserts(db: Db, bill: Bill, answer: PaymentStatus)
    requires bill.order in db.orders && db.orders[bill.order].bill == bill && db.intents == [PaidIntent(bill)]
      && db.refunds == []
    ensures Ran(db, LoadForRefund(bill.order), 0, World(QUIET.(payment := Payment("", "", answer, "")), [], [], []), 5,
      db.(refunds := [RefundRow(bill.order, RefundPending)]),
        StoreAnswer(bill, 0, db.orders[bill.order].acceptedAt.Some?, answer))
  {
    var o, accepted, call := bill.order, db.orders[bill.order].acceptedAt.Some?,
      QUIET.(payment := Payment("", "", answer, ""));
    var world := World(call, [], [], []);
    RefundCalls(db, bill, answer);
    WhatIsHeard(world, LoadForRefund(o));
    WhatIsHeard(world, LoadCharge(bill, accepted));
    WhatIsHeard(world, CheckRefund(bill, accepted));
    WhatIsHeard(world, CallProvider(bill, accepted));
    WhatIsHeard(world, InsertRefund(bill, accepted, answer));
    hide *;
    RanNothing(db, LoadForRefund(o), 0, world);
    RanMore(db, LoadForRefund(o), 0, world, 0, db, LoadForRefund(o));
    RanMore(db, LoadForRefund(o), 0, world, 1, db, LoadCharge(bill, accepted));
    RanMore(db, LoadForRefund(o), 0, world, 2, db, CheckRefund(bill, accepted));
    RanMore(db, LoadForRefund(o), 0, world, 3, db, CallProvider(bill, accepted));
    RanMore(db, LoadForRefund(o), 0, world, 4, db, InsertRefund(bill, accepted, answer));
  }

  lemma WhatIsHeard(world: World, pc: Pc)
    requires RefundStep(pc)
    ensures Hear(world, pc) == if pc.CallProvider? then world.call else QUIET
  {
  }

  lemma RefundCalls(db: Db, bill: Bill, answer: PaymentStatus)
    requires bill.order in db.orders && db.orders[bill.order].bill == bill && db.intents == [PaidIntent(bill)]
      && db.refunds == []
    ensures var o, accepted, call := bill.order, db.orders[bill.order].acceptedAt.Some?,
      QUIET.(payment := Payment("", "", answer, ""));
      && Run(db, LoadForRefund(o), 0, QUIET) == (db, LoadCharge(bill, accepted))
      && Run(db, LoadCharge(bill, accepted), 0, QUIET) == (db, CheckRefund(bill, accepted))
      && Run(db, CheckRefund(bill, accepted), 0, QUIET) == (db, CallProvider(bill, accepted))
      && Run(db, CallProvider(bill, accepted), 0, call) == (db, InsertRefund(bill, accepted, answer))
      && Run(db, InsertRefund(bill, accepted, answer), 0, QUIET)
        == (db.(refunds := [RefundRow(o, RefundPending)]), StoreAnswer(bill, 0, accepted, answer))
  {
    hide *;
    RefundReads(db, bill);
    RefundWrites(db, bill, db.orders[bill.order].acceptedAt.Some?, answer);
  }

  lemma RefundReads(db: Db, bill: Bill)
    requires bill.order in db.orders && db.orders[bill.order].bill == bill && db.intents == [PaidIntent(bill)]
      && db.refunds == []
    ensures var o, accepted := bill.order, db.orders[bill.order].acceptedAt.Some?;
      && Run(db, LoadForRefund(o), 0, QUIET) == (db, LoadCharge(bill, accepted))
      && Run(db, LoadCharge(bill, accepted), 0, QUIET) == (db, CheckRefund(bill, accepted))
      && Run(db, CheckRefund(bill, accepted), 0, QUIET) == (db, CallProvider(bill, accepted))
  {
    hide Run, LatestIntent, PaidIntent;
    ChargeIsThere(db, bill);
    var accepted := db.orders[bill.order].acceptedAt.Some?;
    RunsRefund(db, LoadForRefund(bill.order), QUIET);
    RunsRefund(db, LoadCharge(bill, accepted), QUIET);
    RunsRefund(db, CheckRefund(bill, accepted), QUIET);
  }

  lemma RefundWrites(db: Db, bill: Bill, accepted: bool, answer: PaymentStatus)
    requires db.refunds == []
    ensures var call := QUIET.(payment := Payment("", "", answer, ""));
      && Run(db, CallProvider(bill, accepted), 0, call) == (db, InsertRefund(bill, accepted, answer))
      && Run(db, InsertRefund(bill, accepted, answer), 0, QUIET)
        == (db.(refunds := [RefundRow(bill.order, RefundPending)]), StoreAnswer(bill, 0, accepted, answer))
  {
    hide Run;
    RunsRefund(db, CallProvider(bill, accepted), QUIET.(payment := Payment("", "", answer, "")));
    RunsRefund(db, InsertRefund(bill, accepted, answer), QUIET);
    assert db.refunds + [RefundRow(bill.order, RefundPending)] == [RefundRow(bill.order, RefundPending)];
  }

  lemma ChargeIsThere(db: Db, bill: Bill)
    requires db.intents == [PaidIntent(bill)]
    ensures LatestIntent(db.intents, bill.order) == Some(0) && db.intents[0].status == Succeeded
      && db.intents[0].chargeRef != ""
  {
    hide IdempotencyKey;
  }

  lemma RunsRefund(db: Db, pc: Pc, input: Input)
    requires RefundStep(pc)
    ensures Run(db, pc, 0, input) == RunRefund(db, pc, input)
  {
    hide RunRefund, RunPayment, RunRequest;
  }

  /** The handler crashes after inserting the row: whatever the provider answered, even that it has paid, nothing is
      ever posted for the refund, and as the row is live no other refund of the order is ever made. */
  lemma RefundCanHang(bill: Bill, answer: PaymentStatus) returns (run: seq<Action>)
    requires Billable(bill)
    ensures var s := After(0, 0, SCHEMA_PROVIDERS, run);
      Reachable(s) && Unposted(s.db, bill.order) && !RefundInHand(s, bill.order)
  {
    hide After, Ran, Owed, Quiet, Reachable, Begun, Settles;
    run := CaptureHappens(bill);
    var db := Begun(bill);
    BegunRows(bill);
    RefundInserts(db, bill, answer);
    var hung := db.(refunds := [RefundRow(bill.order, RefundPending)]);
    run := Session(run, db, LoadForRefund(bill.order),
      World(QUIET.(payment := Payment("", "", answer, "")), [], [], []), 5,
      hung, StoreAnswer(bill, 0, db.orders[bill.order].acceptedAt.Some?, answer));
    QuietOwesNothing(run, hung, ToRefund, bill.order);
    QuietSettlesNothing(run, hung, bill.order);
    HungIsUnposted(bill);
  }

  lemma BegunRows(bill: Bill)
    ensures var db := Begun(bill);
      bill.order in db.orders && db.orders[bill.order].bill == bill && db.intents == [PaidIntent(bill)]
        && db.refunds == [] && db.admits == SCHEMA_PROVIDERS
      && db.orders[bill.order] == BegunRow(Placed(bill, 0, 0), 0) && db.ledger == [Captured(bill)] && db.now == 0
  {
    hide IdempotencyKey;
  }

  lemma QuietSettlesNothing(run: seq<Action>, db: Db, o: int64)
    requires Quiet(run, db)
    ensures !RefundInHand(End(db, run), o)
  {
    hide After;
  }

  lemma HungIsUnposted(bill: Bill)
    ensures Unposted(Begun(bill).(refunds := [RefundRow(bill.order, RefundPending)]), bill.order)
  {
    LiveStep([], RefundRow(bill.order, RefundPending), bill.order);
    assert [] + [RefundRow(bill.order, RefundPending)] == [RefundRow(bill.order, RefundPending)];
    CountStep([], Captured(bill), bill.order, Refund);
    assert [] + [Captured(bill)] == [Captured(bill)];
  }

  // ----- a refund drawn from the wrong account -----

  /** The order row after delivery and acceptance. */
  function AcceptedRow(bill: Bill): Order
  {
    Moved(Moved(BegunRow(Placed(bill, 0, 0), 0), Delivered, 0), Accepted, 0)
  }

  /** A wish that is one status change: read the order, then move it. */
  lemma MoveAlone(db: Db, bill: Bill, wish: Wish, to: Status)
    requires bill.order in db.orders && db.orders[bill.order].bill == bill && db.now == 0
    requires (wish.Deliver? || wish.Accept?) && to == Target(wish) && CanTransition(db.orders[bill.order].status, to)
    ensures Ran(db, Decide(bill.order, wish), 0, SILENT, 2,
      db.(orders := db.orders[bill.order := Moved(db.orders[bill.order], to, 0)]),
      if wish.Accept? then ReleaseNext([bill]) else Idle)
  {
    var from := db.orders[bill.order].status;
    MoveCalls(db, bill, wish, to);
    hide Run, Ran, RunFor, CanTransition;
    RanNothing(db, Decide(bill.order, wish), 0, SILENT);
    RanMore(db, Decide(bill.order, wish), 0, SILENT, 0, db, Decide(bill.order, wish));
    RanMore(db, Decide(bill.order, wish), 0, SILENT, 1, db, Move(bill, from, to));
  }

  lemma MoveCalls(db: Db, bill: Bill, wish: Wish, to: Status)
    requires bill.order in db.orders && db.orders[bill.order].bill == bill && db.now == 0
    requires (wish.Deliver? || wish.Accept?) && to == Target(wish) && CanTransition(db.orders[bill.order].status, to)
    ensures Run(db, Decide(bill.order, wish), 0, QUIET) == (db, Move(bill, db.orders[bill.order].status, to))
    ensures Run(db, Move(bill, db.orders[bill.order].status, to), 0, QUIET)
      == (db.(orders := db.orders[bill.order := Moved(db.orders[bill.order], to, 0)]), if wish.Accept?
        then ReleaseNext([bill]) else Idle)
  {
    hide RunPayment, RunRefund, CanTransition, Moved;
  }

  lemma AcceptanceHappens(bill: Bill) returns (run: seq<Action>)
    requires Billable(bill)
    ensures Quiet(run, Begun(bill).(orders := map[bill.order := AcceptedRow(bill)]))
  {
    hide Ran, Quiet, Begun, BegunRow, Placed, Moved;
    run := CaptureHappens(bill);
    BegunRows(bill);
    AcceptanceRows(bill);
    var db := Begun(bill);
    var delivered := db.(orders := db.orders[bill.order := Moved(db.orders[bill.order], Delivered, 0)]);
    MoveAlone(db, bill, Deliver, Delivered);
    run := Session(run, db, Decide(bill.order, Deliver), SILENT, 2, delivered, Idle);
    MoveAlone(delivered, bill, Accept, Accepted);
    run := Session(run, delivered, Decide(bill.order, Accept), SILENT, 2,
      Begun(bill).(orders := map[bill.order := AcceptedRow(bill)]), ReleaseNext([bill]));
  }

  /** The buyer accepts and the process stops before the release: the payment succeeded, the share is pending, and
      unless the order is disputed, delivered and accepted once more, it stays so. */
  lemma ReleaseCanBeLost(bill: Bill) returns (run: seq<Action>)
    requires Billable(bill)
    ensures var s := After(0, 0, SCHEMA_PROVIDERS, run);
      && Reachable(s) && bill.order in s.db.orders && s.db.orders[bill.order].status == Accepted
      && PaidFor(s.db, bill.order) && Releases(s.db, bill.order) == 0 && !Releasing(s, bill.order)
  {
    hide After, Quiet, Reachable, Begun, AcceptedRow, Owed, PaidFor, Count;
    run := AcceptanceHappens(bill);
    BegunRows(bill);
    AcceptanceRows(bill);
    var db := Begun(bill).(orders := map[bill.order := AcceptedRow(bill)]);
    QuietOwesNothing(run, db, ToRelease, bill.order);
    PaidRows(bill);
  }

  lemma PaidRows(bill: Bill)
    ensures var db := Begun(bill).(orders := map[bill.order := AcceptedRow(bill)]);
      PaidFor(db, bill.order) && Count(db.ledger, bill.order, Tag.Release) == 0
  {
    hide CheckoutKey, AcceptedRow;
    var db := Begun(bill).(orders := map[bill.order := AcceptedRow(bill)]);
    assert IntentOf(db, 0, bill.order);
    CountStep([], Captured(bill), bill.order, Tag.Release);
    assert [] + [Captured(bill)] == [Captured(bill)];
  }

  lemma AcceptanceRows(bill: Bill)
    ensures var db := Begun(bill);
      && bill.order in db.orders && db.orders[bill.order].status == InProgress
      && Moved(db.orders[bill.order], Delivered, 0).status == Delivered
      && Moved(db.orders[bill.order], Delivered, 0).bill == bill
      && db.orders[bill.order := Moved(db.orders[bill.order], Delivered, 0)]
          [bill.order := Moved(Moved(db.orders[bill.order], Delivered, 0), Accepted, 0)]
            == map[bill.order := AcceptedRow(bill)]
      && AcceptedRow(bill).bill == bill && AcceptedRow(bill).acceptedAt == Some(0)
      && AcceptedRow(bill).status == Accepted
  {
    var row, db := BegunRow(Placed(bill, 0, 0), 0), Begun(bill);
    assert db.orders == map[bill.order := row];
    assert AcceptedRow(bill) == Moved(Moved(row, Delivered, 0), Accepted, 0);
  }

  const REFUND_WORLD := World(QUIET.(payment := Payment("", "", Succeeded, "")), [], [], [])

  /** The rows after a refund whose payment came back at once. */
  function RefundedRows(db: Db, bill: Bill, accepted: bool): Db
  {
    db.(refunds := [RefundRow(bill.order, RefundSucceeded)], ledger := db.ledger + [Refunded(bill, accepted)])
  }

  /** Its last two calls. */
  lemma RefundFinishes(db: Db, bill: Bill, accepted: bool)
    requires Billable(bill) && db.refunds == [RefundRow(bill.order, RefundPending)]
    ensures var stored := db.(refunds := [RefundRow(bill.order, RefundSucceeded)]);
      && Run(db, StoreAnswer(bill, 0, accepted, Succeeded), 0, QUIET) == (stored, PostRefund(bill, 0, accepted))
      && Run(stored, PostRefund(bill, 0, accepted), 0, QUIET) == (RefundedRows(db, bill, accepted), Idle)
  {
    hide Run;
    var stored := db.(refunds := [RefundRow(bill.order, RefundSucceeded)]);
    RunsRefund(db, StoreAnswer(bill, 0, accepted, Succeeded), QUIET);
    RunsRefund(stored, PostRefund(bill, 0, accepted), QUIET);
    assert db.refunds[0 := RefundRow(bill.order, RefundSucceeded)] == stored.refunds;
  }

  /** All its seven calls. */
  lemma RefundRuns(db: Db, bill: Bill, accepted: bool)
    requires bill.order in db.orders && db.orders[bill.order].bill == bill && db.intents == [PaidIntent(bill)]
      && db.refunds == [] && Billable(bill) && accepted == db.orders[bill.order].acceptedAt.Some?
    ensures Ran(db, LoadForRefund(bill.order), 0, REFUND_WORLD, 7, RefundedRows(db, bill, accepted), Idle)
  {
    hide Ran, RunFor, Run, PaidIntent, Billable;
    var o, inserted := bill.order, db.(refunds := [RefundRow(bill.order, RefundPending)]);
    var stored := db.(refunds := [RefundRow(bill.order, RefundSucceeded)]);
    RefundInserts(db, bill, Succeeded);
    RefundFinishes(inserted, bill, accepted);
    RanMore(db, LoadForRefund(o), 0, REFUND_WORLD, 5, inserted, StoreAnswer(bill, 0, accepted, Succeeded));
    RanMore(db, LoadForRefund(o), 0, REFUND_WORLD, 6, stored, PostRefund(bill, 0, accepted));
  }

  /** The buyer accepts, the process crashes before the release, an admin refunds: the refund is drawn from the
      available account, which then owes the seller's share, while the same share stays pending for good. */
  lemma RefundCanMissTheMoney(bill: Bill) returns (run: seq<Action>)
    requires Billable(bill) && bill.total - bill.fee > 0
    ensures var s := After(0, 0, SCHEMA_PROVIDERS, run); var ledger := s.db.ledger;
      && Reachable(s) && bill.order in s.db.orders && s.db.orders[bill.order].bill == bill
      && Count(ledger, bill.order, Capture) == 1 && Count(ledger, bill.order, Refund) == 1
      && !DrawnWhereHeld(ledger, bill)
      && AllPostable(ledger)
      && OrderNet(Journal(ledger), SellerPending, bill.order) == bill.total - bill.fee
      && OrderNet(Journal(ledger), SellerAvailable, bill.order) == -(bill.total - bill.fee)
  {
    hide After, Ran, Quiet, Reachable, Begun, AcceptedRow, Run, OrderNet, AllPostable, Journal, RunFor, Count, Drawn;
    run := AcceptanceHappens(bill);
    BegunRows(bill);
    AcceptanceRows(bill);
    var db := Begun(bill).(orders := map[bill.order := AcceptedRow(bill)]);
    RefundRuns(db, bill, true);
    run := Session(run, db, LoadForRefund(bill.order), REFUND_WORLD, 7, RefundedRows(db, bill, true), Idle);
    QuietOwesNothing(run, RefundedRows(db, bill, true), ToRefund, bill.order);
    MissedCounts(bill);
    BooksPerOrder(After(0, 0, SCHEMA_PROVIDERS, run), bill.order);
  }

  lemma MissedCounts(bill: Bill)
    ensures var ledger := [Captured(bill)] + [Refunded(bill, true)];
      && Count(ledger, bill.order, Capture) == 1 && Count(ledger, bill.order, Refund) == 1
      && Count(ledger, bill.order, Tag.Release) == 0
      && Drawn(ledger, bill.order, true) == 1 && Drawn(ledger, bill.order, false) == 0
      && PendingShares(ledger, bill.order) == 1 && AvailableShares(ledger, bill.order) == -1
  {
    var first := [Captured(bill)];
    assert [] + first == first;
    forall tag: Tag
      ensures Count(first, bill.order, tag) == if tag == Capture then 1 else 0
    {
      CountStep([], Captured(bill), bill.order, tag);
    }
    forall tag: Tag
      ensures Count(first + [Refunded(bill, true)], bill.order, tag) == if tag == Tag.Release then 0 else 1
    {
      CountStep(first, Refunded(bill, true), bill.order, tag);
    }
    DrawnStep([], Captured(bill), bill.order, true);
    DrawnStep([], Captured(bill), bill.order, false);
    DrawnStep(first, Refunded(bill, true), bill.order, true);
    DrawnStep(first, Refunded(bill, true), bill.order, false);
    hide Count, Drawn;
  }

  // ----- a dispute settled by the wrong request -----

  predicate WentFrom(o: Order, from: Status, to: Status)
  {
    exists i :: 0 < i < |o.visits| && o.visits[i - 1].status == from && o.visits[i].status == to
  }

  function Asked(bill: Bill): Db
  {
    Begun(bill).(cancellations := [Request(bill.order, true)])
  }

  function DisputedToo(bill: Bill): Db
  {
    Asked(bill).(disputes := [Request(bill.order, true)],
      orders := map[bill.order := Moved(BegunRow(Placed(bill, 0, 0), 0), Disputed, 0)])
  }

  function SettledApart(bill: Bill): Db
  {
    DisputedToo(bill).(cancellations := [Request(bill.order, false)],
      orders := map[bill.order := Moved(Moved(BegunRow(Placed(bill, 0, 0), 0), Disputed, 0), Cancelled, 0)])
  }

  /** The calls of a request about an order, in any tables: those that ask, those that resolve, and the last. */
  lemma AskingCalls(db: Db, bill: Bill, matter: Matter, from: Status, to: Status)
    requires bill.order in db.orders && db.orders[bill.order].bill == bill && db.orders[bill.order].status == from
    requires CanTransition(from, to) && to == Target(Ask(matter))
    ensures Run(db, Decide(bill.order, Ask(matter)), 0, QUIET) == (db, OpenRow(matter, bill.order, from))
    ensures Run(db, OpenRow(matter, bill.order, from), 0, QUIET)
      == (OpenRequest(db, matter, bill.order), Move(bill, from, to))
  {
    hide RunPayment, RunRefund, CanTransition, OpenRequest;
  }

  lemma ResolvingCalls(db: Db, bill: Bill, matter: Matter, row: nat, from: Status, to: Status)
    requires bill.order in db.orders && db.orders[bill.order].bill == bill && db.orders[bill.order].status == from
    requires CanTransition(from, to) && ValidOutcome(matter, to)
    requires FindOpen(Requests(db, matter), bill.order) == Some(row) && CloseRequest(db, matter, row).1
    ensures Run(db, Decide(bill.order, Resolve(matter, to)), 0, QUIET) == (db, FindRow(matter, bill.order, from, to))
    ensures Run(db, FindRow(matter, bill.order, from, to), 0, QUIET)
      == (db, CloseRow(matter, bill.order, row, from, to))
    ensures Run(db, CloseRow(matter, bill.order, row, from, to), 0, QUIET)
      == (CloseRequest(db, matter, row).0, Move(bill, from, to))
  {
    hide RunPayment, RunRefund, CanTransition, FindOpen, ValidOutcome, CloseRequest;
  }

  lemma LastCall(db: Db, bill: Bill, from: Status, to: Status)
    requires bill.order in db.orders && db.orders[bill.order].status == from && to != Accepted
    ensures Run(db, Move(bill, from, to), 0, QUIET)
      == (db.(orders := db.orders[bill.order := Moved(db.orders[bill.order], to, db.now)]), Idle)
  {
    hide RunPayment, RunRefund, Moved;
  }

  /** The request row is written, and there the process stops. */
  lemma AskingStops(bill: Bill)
    ensures Ran(Begun(bill), Decide(bill.order, Ask(Cancellation)), 0, SILENT, 2, Asked(bill),
      Move(bill, InProgress, CancelRequested))
  {
    var db, pc := Begun(bill), Decide(bill.order, Ask(Cancellation));
    AskedRows(bill);
    AskingCalls(db, bill, Cancellation, InProgress, CancelRequested);
    hide Run, Ran, RunFor, Begun, Asked, OpenRequest, FindOpen;
    RanNothing(db, pc, 0, SILENT);
    RanMore(db, pc, 0, SILENT, 0, db, pc);
    RanMore(db, pc, 0, SILENT, 1, db, OpenRow(Cancellation, bill.order, InProgress));
  }

  lemma AskedRows(bill: Bill)
    ensures var db := Begun(bill);
      && bill.order in db.orders && db.orders[bill.order].bill == bill && db.orders[bill.order].status == InProgress
      && OpenRequest(db, Cancellation, bill.order) == Asked(bill)
  {
    hide IdempotencyKey;
    assert [] + [Request(bill.order, true)] == [Request(bill.order, true)];
  }

  lemma DisputeOpens(bill: Bill)
    ensures Ran(Asked(bill), Decide(bill.order, Ask(Dispute)), 0, SILENT, 3, DisputedToo(bill), Idle)
  {
    var db, pc := Asked(bill), Decide(bill.order, Ask(Dispute));
    var written := OpenRequest(db, Dispute, bill.order);
    DisputedRows(bill);
    AskingCalls(db, bill, Dispute, InProgress, Disputed);
    LastCall(written, bill, InProgress, Disputed);
    hide Run, Ran, RunFor, Asked, DisputedToo, OpenRequest, FindOpen, Moved;
    RanNothing(db, pc, 0, SILENT);
    RanMore(db, pc, 0, SILENT, 0, db, pc);
    RanMore(db, pc, 0, SILENT, 1, db, OpenRow(Dispute, bill.order, InProgress));
    RanMore(db, pc, 0, SILENT, 2, written, Move(bill, InProgress, Disputed));
  }

  lemma DisputedRows(bill: Bill)
    ensures var db, written := Asked(bill), OpenRequest(Asked(bill), Dispute, bill.order);
      && bill.order in db.orders && db.orders[bill.order].bill == bill && db.orders[bill.order].status == InProgress
      && written.orders == db.orders
      && written.(orders := db.orders[bill.order := Moved(db.orders[bill.order], Disputed, written.now)])
        == DisputedToo(bill)
  {
    hide IdempotencyKey;
    var row := BegunRow(Placed(bill, 0, 0), 0);
    assert [] + [Request(bill.order, true)] == [Request(bill.order, true)];
    assert map[bill.order := row][bill.order := Moved(row, Disputed, 0)] == map[bill.order := Moved(row, Disputed, 0)];
  }

  lemma CancellationIsApproved(bill: Bill)
    ensures Ran(DisputedToo(bill), Decide(bill.order, Resolve(Cancellation, Cancelled)), 0, SILENT, 4,
      SettledApart(bill), Idle)
  {
    var db, o, pc := DisputedToo(bill), bill.order, Decide(bill.order, Resolve(Cancellation, Cancelled));
    var closed := CloseRequest(db, Cancellation, 0).0;
    ApprovedRows(bill);
    ResolvingCalls(db, bill, Cancellation, 0, Disputed, Cancelled);
    LastCall(closed, bill, Disputed, Cancelled);
    hide Run, Ran, RunFor, DisputedToo, SettledApart, CloseRequest, FindOpen, Moved;
    RanNothing(db, pc, 0, SILENT);
    RanMore(db, pc, 0, SILENT, 0, db, pc);
    RanMore(db, pc, 0, SILENT, 1, db, FindRow(Cancellation, o, Disputed, Cancelled));
    RanMore(db, pc, 0, SILENT, 2, db, CloseRow(Cancellation, o, 0, Disputed, Cancelled));
    RanMore(db, pc, 0, SILENT, 3, closed, Move(bill, Disputed, Cancelled));
  }

  lemma ApprovedRows(bill: Bill)
    ensures var db, o := DisputedToo(bill), bill.order; var (closed, done) := CloseRequest(db, Cancellation, 0);
      && o in db.orders && db.orders[o].bill == bill && db.orders[o].status == Disputed
      && FindOpen(db.cancellations, o) == Some(0) && done && closed.orders == db.orders
      && closed.(orders := db.orders[o := Moved(db.orders[o], Cancelled, closed.now)]) == SettledApart(bill)
  {
    hide IdempotencyKey;
    var row := Moved(BegunRow(Placed(bill, 0, 0), 0), Disputed, 0);
    assert map[bill.order := row][bill.order := Moved(row, Cancelled, 0)]
      == map[bill.order := Moved(row, Cancelled, 0)];
    assert [Request(bill.order, true)][0 := Request(bill.order, false)] == [Request(bill.order, false)];
  }

  /** A cancellation request is written but its status change lost; the order goes into dispute; and approving the
      request cancels the order over the dispute, which stays open for good with the money kept. */
  lemma CancellationCanEndDispute(bill: Bill) returns (run: seq<Action>)
    requires Billable(bill)
    ensures var s := After(0, 0, SCHEMA_PROVIDERS, run);
      && Reachable(s) && bill.order in s.db.orders
      && WentFrom(s.db.orders[bill.order], Disputed, Cancelled)
      && Request(bill.order, true) in s.db.disputes && s.db.orders[bill.order].status == Cancelled
      && Count(s.db.ledger, bill.order, Capture) == 1 && s.db.refunds == []
  {
    hide After, Ran, Quiet, Reachable, Count, RunFor, Run, Begun, Asked, DisputedToo, SettledApart;
    run := CaptureHappens(bill);
    SettledRows(bill);
    AskingStops(bill);
    run := Session(run, Begun(bill), Decide(bill.order, Ask(Cancellation)), SILENT, 2, Asked(bill),
      Move(bill, InProgress, CancelRequested));
    DisputeOpens(bill);
    run := Session(run, Asked(bill), Decide(bill.order, Ask(Dispute)), SILENT, 3, DisputedToo(bill), Idle);
    CancellationIsApproved(bill);
    run := Session(run, DisputedToo(bill), Decide(bill.order, Resolve(Cancellation, Cancelled)), SILENT, 4,
      SettledApart(bill), Idle);
    QuietOwesNothing(run, SettledApart(bill), ToRefund, bill.order);
  }

  lemma SettledRows(bill: Bill)
    ensures Begun(bill).admits == Asked(bill).admits == DisputedToo(bill).admits == SettledApart(bill).admits
      == SCHEMA_PROVIDERS
    ensures var db := SettledApart(bill);
      && bill.order in db.orders && db.orders[bill.order].status == Cancelled
      && Request(bill.order, true) in db.disputes && db.refunds == []
      && Count(db.ledger, bill.order, Capture) == 1
      && WentFrom(db.orders[bill.order], Disputed, Cancelled)
  {
    var db := SettledApart(bill);
    var visits := db.orders[bill.order].visits;
    assert visits[4].status == Cancelled && visits[3].status == Disputed;
    CountStep([], Captured(bill), bill.order, Capture);
    assert [] + [Captured(bill)] == [Captured(bill)];
    hide IdempotencyKey, Count;
  }
}
