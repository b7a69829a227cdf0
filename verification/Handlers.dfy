/** The jobs and request handlers as written, each shown to be a run of its actor when nothing else interleaves. */
module Handlers {
  import opened Results
  import opened Int64
  import opened Ledger
  import opened Bookkeeping
  import opened Orders
  import opened Payments
  import opened StoreRows
  import opened Actors
  import opened SoloRuns
  import opened Settlements
  import opened Store

  ghost predicate Usable(st: Tables)
    reads st
  {
    st.Valid() && forall o :: o in st.orders ==> st.orders[o].bill.order == o
  }

  // ----- starting a payment -----

  /** What the provider says when asked for a session. */
  function CheckoutWorld(call: Result<string, string>): World
  {
    var answer := match call
      case Ok(ref) => QUIET.(payment := Payment("", ref, Pending, ""))
      case Err(_) => QUIET.(ok := false);
    World(answer, [], [], [])
  }

  /** A session is attached to an intent of the order with its checkout key if and only if payments are ready, the
      provider's name is admitted, the key's intent (if there is one) has no open session, and the provider answers. */
  method StartPayment(st: Tables, order: int64, means: string, ready: bool, call: Result<string, string>,
    ghost window: nat)
    returns (attached: bool, ghost steps: nat)
    requires Usable(st)
    modifies st`intents
    ensures Usable(st)
      && Ran(old(st.Rows()), CheckoutFrom(order, means, ready), window, CheckoutWorld(call), steps, st.Rows(), Idle)
    ensures attached <==>
      (ready && ProviderOf(means) in st.admits && call.Ok? && !HasOpenSession(old(st.Rows()), order))
    ensures attached ==>
      var i := FindByKey(old(st.intents), CheckoutKey(order));
      st.intents == if i.Some? then old(st.intents)[i.value := old(st.intents)[i.value].(providerRef := call.value)]
        else
          old(st.intents) + [Intent(order, ProviderOf(means), CheckoutKey(order), call.value, Pending, "", None, None,
            None)]
    ensures !attached && st.intents != old(st.intents) ==>
      st.intents == old(st.intents) + [Intent(order, ProviderOf(means), CheckoutKey(order), "", Pending, "", None, None,
        None)]
  {
    hide Run, Ran, RunFor, Journal, AllPostable, CheckoutKey, FindByKey, ProviderOf;
    ghost var start, pc, world := st.Rows(), CheckoutFrom(order, means, ready), CheckoutWorld(call);
    RanNothing(start, pc, window, world);
    steps := 0;
    if !ready {
      return false, steps;
    }
    var provider := ProviderOf(means);
    RanMore(start, pc, window, world, 0, start, pc);
    OpenRuns(start, order, provider, window);
    steps := 1;
    var i := |st.intents|;
    var created := st.CreatePaymentIntent(order, provider, CheckoutKey(order));
    if !created {
      if provider !in st.admits {
        return false, steps;
      }
      var taken := st.GetPaymentIntentByIdempotencyKey(CheckoutKey(order));
      i := taken.value;
      if st.intents[i].providerRef != "" && st.intents[i].status == Pending {
        return false, steps;
      }
    }
    RanMore(start, pc, window, world, steps, st.Rows(), CreateSession(order, i, provider));
    SessionRuns(st.Rows(), order, i, provider, window, call);
    steps := steps + 1;
    if call.Err? {
      return false, steps;
    }
    RanMore(start, pc, window, world, steps, st.Rows(), AttachSession(order, i, call.value));
    AttachRuns(st.Rows(), order, i, call.value, window);
    steps := steps + 1;
    st.SetPaymentIntentSession(i, call.value);
    attached := true;
  }

  /** The buyer can be sent to the session that the order's checkout already has. */
  predicate HasOpenSession(db: Db, o: int64)
  {
    var i := FindByKey(db.intents, CheckoutKey(o));
    i.Some? && db.intents[i.value].providerRef != "" && db.intents[i.value].status == Pending
  }

  lemma OpenRuns(db: Db, o: int64, provider: string, window: nat)
    ensures var (after, created) := CreateIntent(db, o, provider, CheckoutKey(o));
      Run(db, OpenIntent(o, provider), window, QUIET)
        == if created then (after, CreateSession(o, |db.intents|, provider))
           else (db, if provider in db.admits then Resume(db, o, provider) else Idle)
  {
    hide CreateIntent, Resume;
  }

  lemma SessionRuns(db: Db, o: int64, i: nat, provider: string, window: nat, call: Result<string, string>)
    ensures Run(db, CreateSession(o, i, provider), window, CheckoutWorld(call).call)
      == (db, if call.Ok? then AttachSession(o, i, call.value) else Idle)
  {
  }

  lemma AttachRuns(db: Db, o: int64, i: nat, ref: string, window: nat)
    ensures Run(db, AttachSession(o, i, ref), window, QUIET) == (SetSession(db, i, ref), Idle)
  {
    hide SetSession;
  }

  // ----- building and posting a group -----

  method PostCaptured(st: Tables, bill: Bill) returns (ok: bool)
    requires Usable(st)
    modifies st`entries, st`events
    ensures Usable(st) && (st.Rows(), ok) == StoreRows.Post(old(st.Rows()), Captured(bill))
  {
    hide CaptureEntries, Acceptable, Balanced, Journal, AllPostable;
    var built := PaymentCaptured(bill.order, bill.seller, bill.total, bill.fee, bill.currency);
    if built.Err? {
      return false;
    }
    ok := st.PostLedgerEntries(built.value, Captured(bill));
  }

  method PostReleased(st: Tables, bill: Bill, payable: int64) returns (ok: bool)
    requires Usable(st) && payable == Payable(bill) && payable > 0
    modifies st`entries, st`events
    ensures Usable(st) && (st.Rows(), ok) == StoreRows.Post(old(st.Rows()), Released(bill))
  {
    hide ReleaseEntries, Acceptable, Balanced, Journal, AllPostable, Payable, Bookkeeping.Entries;
    var built := EarningsReleased(bill.order, bill.seller, payable, Lower(bill.currency));
    ReleasedEntries(bill);
    ok := st.PostLedgerEntries(built.value, Released(bill));
  }

  method PostRefunded(st: Tables, bill: Bill, fromAvailable: bool) returns (ok: bool)
    requires Usable(st)
    modifies st`entries, st`events
    ensures Usable(st) && (st.Rows(), ok) == StoreRows.Post(old(st.Rows()), Refunded(bill, fromAvailable))
  {
    hide RefundEntries, Acceptable, Balanced, Journal, AllPostable, Bookkeeping.Entries, Wrap;
    var fee: int64 := bill.fee;
    var payable: int64 := Wrap(bill.total - fee);
    RefundedEntries(bill, fromAvailable);
    var built := RefundIssued(bill.order, bill.seller, bill.total, fee, payable, fromAvailable, Lower(bill.currency));
    if built.Err? {
      return false;
    }
    ok := st.PostLedgerEntries(built.value, Refunded(bill, fromAvailable));
  }

  /** Posts one capture and starts the order if and only if the order read is pending with amounts the builder takes.
      With other amounts a pending order is marked paid, and left so, before the builder refuses. */
  method CapturePaymentForOrder(st: Tables, order: int64, ghost cont: Cont, ghost window: nat, ghost world: World)
    returns (ok: bool, ghost steps: nat)
    requires Usable(st)
    modifies st`orders, st`entries, st`events
    ensures Usable(st)
      && Ran(old(st.Rows()), LoadForCapture(order, cont), window, world, steps, st.Rows(), if ok then Done(cont)
        else GiveUp(cont))
    ensures st.Rows() == CaptureEnds(old(st.Rows()), order)
    ensures ok <==>
      order in old(st.orders) && (AwaitsPayment(old(st.Rows()), order) ==> Billable(old(st.orders)[order].bill))
    ensures st.events != old(st.events) <==>
      AwaitsPayment(old(st.Rows()), order) && Billable(old(st.orders)[order].bill)
  {
    hide Run, Ran, RunFor, StoreRows.TransitionOrder, StoreRows.Post, Journal, AllPostable, CaptureEnds;
    ghost var start, pc := st.Rows(), LoadForCapture(order, cont);
    CaptureLoads(start, order, cont, window, world);
    CaptureStages(start, order);
    steps := 1;
    if order !in st.orders {
      return false, steps;
    }
    if st.orders[order].status != PendingPayment {
      return true, steps;
    }
    var bill := st.orders[order].bill;
    RanMore(start, pc, window, world, steps, start, ClaimPaid(bill, cont));
    CaptureRuns(start, bill, cont, window);
    steps := steps + 1;
    TransitionKeepsBills(start, bill.order, PendingPayment, Paid);
    var claimed := st.TransitionOrder(bill.order, PendingPayment, Paid);
    if !claimed {
      return true, steps;
    }
    ok, steps := PostAndAdvance(st, bill, start, pc, cont, window, world, steps);
  }

  /** The rest of a capture, for the caller that marked the order paid. */
  method PostAndAdvance(st: Tables, bill: Bill, ghost start: Db, ghost pc: Pc, ghost cont: Cont, ghost window: nat,
    ghost world: World, ghost before: nat)
    returns (ok: bool, ghost steps: nat)
    requires Usable(st) && Ran(start, pc, window, world, before, st.Rows(), PostCapture(bill, cont))
    modifies st`orders, st`entries, st`events
    ensures Usable(st) && Ran(start, pc, window, world, steps, st.Rows(), if ok then Done(cont) else GiveUp(cont))
    ensures var posted := StoreRows.Post(old(st.Rows()), Captured(bill)).0;
      (st.Rows(), ok) == if Billable(bill) then StoreRows.TransitionOrder(posted, bill.order, Paid, InProgress)
        else (old(st.Rows()), false)
  {
    hide Run, Ran, RunFor, StoreRows.TransitionOrder, StoreRows.Post, Journal, AllPostable;
    CaptureRuns(st.Rows(), bill, cont, window);
    RanMore(start, pc, window, world, before, st.Rows(), PostCapture(bill, cont));
    steps := before + 1;
    PostKeepsOrders(st.Rows(), Captured(bill));
    var posted := PostCaptured(st, bill);
    if !posted {
      return false, steps;
    }
    CaptureRuns(st.Rows(), bill, cont, window);
    RanMore(start, pc, window, world, steps, st.Rows(), Advance(bill.order, cont));
    steps := steps + 1;
    TransitionKeepsBills(st.Rows(), bill.order, Paid, InProgress);
    ok := st.TransitionOrder(bill.order, Paid, InProgress);
  }

  lemma PostKeepsOrders(db: Db, e: Event)
    ensures StoreRows.Post(db, e).0.orders == db.orders
    ensures StoreRows.Post(db, e).1 == Postable(e) && (!Postable(e) ==> StoreRows.Post(db, e).0 == db)
  {
  }

  method FailPaymentForOrder(st: Tables, order: int64, ghost cont: Cont, ghost window: nat, ghost world: World)
    returns (ok: bool, ghost steps: nat)
    requires Usable(st)
    modifies st`orders
    ensures Usable(st)
      && Ran(old(st.Rows()), LoadForFailure(order, cont), window, world, steps, st.Rows(), if ok then Done(cont)
        else GiveUp(cont))
    ensures st.Rows() == FailureEnds(old(st.Rows()), order) && (ok <==> order in old(st.orders))
  {
    hide Run, Ran, RunFor, StoreRows.TransitionOrder, Journal, AllPostable;
    ghost var start, pc := st.Rows(), LoadForFailure(order, cont);
    FailureStages(start, order);
    steps := FailureLoads(start, order, cont, window, world);
    if order !in st.orders {
      return false, steps;
    }
    if st.orders[order].status != PendingPayment {
      return true, steps;
    }
    RanMore(start, pc, window, world, steps, start, MoveToFailed(order, cont));
    FailureRuns(start, order, cont, window);
    steps := steps + 1;
    TransitionKeepsBills(start, order, PendingPayment, PaymentFailed);
    var moved := st.TransitionOrder(order, PendingPayment, PaymentFailed);
    ok := true;
  }

  lemma FailureLoads(db: Db, o: int64, cont: Cont, window: nat, world: World) returns (steps: nat)
    ensures Ran(db, LoadForFailure(o, cont), window, world, steps, db,
      if o !in db.orders then GiveUp(cont) else if db.orders[o].status != PendingPayment then Done(cont)
      else MoveToFailed(o, cont))
  {
    hide Ran;
    RanNothing(db, LoadForFailure(o, cont), window, world);
    RanMore(db, LoadForFailure(o, cont), window, world, 0, db, LoadForFailure(o, cont));
    steps := 1;
  }

  lemma FailureRuns(db: Db, o: int64, cont: Cont, window: nat)
    ensures Run(db, MoveToFailed(o, cont), window, QUIET)
      == (StoreRows.TransitionOrder(db, o, PendingPayment, PaymentFailed).0, Done(cont))
  {
    hide StoreRows.TransitionOrder;
  }

  lemma TransitionKeepsBills(db: Db, o: int64, from: Status, to: Status)
    ensures var after := StoreRows.TransitionOrder(db, o, from, to).0;
      after.orders.Keys == db.orders.Keys && forall p :: p in db.orders ==> after.orders[p].bill == db.orders[p].bill
  {
  }

  method SettleOrder(st: Tables, order: int64, status: PaymentStatus, ghost cont: Cont, ghost window: nat,
    ghost world: World) returns (ok: bool, ghost steps: nat)
    requires Usable(st)
    modifies st`orders, st`entries, st`events
    ensures Usable(st)
      && Ran(old(st.Rows()), Settle(order, status, cont), window, world, steps, st.Rows(), if ok then Done(cont)
        else GiveUp(cont))
    ensures st.Rows() == Owed(old(st.Rows()), order, status)
    ensures ok <==> Settleable(old(st.Rows()), order, status)
  {
    if status == Succeeded {
      ok, steps := CapturePaymentForOrder(st, order, cont, window, world);
    } else if status == Failed || status == Expired {
      ok, steps := FailPaymentForOrder(st, order, cont, window, world);
    } else {
      RanNothing(st.Rows(), Done(cont), window, world);
      ok, steps := true, 0;
    }
  }

  /** The event is still to be processed and reports on a payment that has an intent. */
  predicate Concerns(db: Db, key: string)
  {
    key in db.hooks && !db.hooks[key].processed && db.hooks[key].payment.Some?
      && FindByRef(db.intents, db.hooks[key].payment.value.provider, db.hooks[key].payment.value.providerRef).Some?
  }

  /** The intent that the event reports on. */
  function Concerned(db: Db, key: string): (i: nat)
    requires Concerns(db, key)
    ensures i < |db.intents|
  {
    var payment := db.hooks[key].payment.value;
    FindByRef(db.intents, payment.provider, payment.providerRef).value
  }

  /** One webhook job, from loading its event to marking it processed. */
  method ProcessPaymentWebhook(st: Tables, key: string, ghost window: nat, ghost world: World)
    returns (ok: bool, ghost steps: nat)
    requires Usable(st)
    modifies st`orders, st`entries, st`events, st`intents, st`hooks
    ensures Usable(st) && Ran(old(st.Rows()), LoadHook(key), window, world, steps, st.Rows(), Idle)
    ensures ok <==> key in st.hooks && st.hooks[key].processed
    ensures st.hooks == if ok && key in old(st.hooks) then old(st.hooks)[key := Hook(old(st.hooks)[key].payment, true)]
      else old(st.hooks)
    ensures !Concerns(old(st.Rows()), key) ==>
      (ok <==> key in old(st.hooks)) && st.intents == old(st.intents) && st.orders == old(st.orders)
        && st.events == old(st.events)
    ensures Concerns(old(st.Rows()), key) ==>
      var i, report := Concerned(old(st.Rows()), key), old(st.hooks)[key].payment.value;
      var o := old(st.intents)[i].order; var pending := AwaitsPayment(old(st.Rows()), o);
      && st.intents == old(st.intents)[i := Reported(old(st.intents)[i], report, st.now)]
      && (ok <==> Settleable(old(st.Rows()), o, report.status))
      && (pending && (report.status == Failed || report.status == Expired) ==>
            st.orders == old(st.orders)[o := Moved(old(st.orders)[o], PaymentFailed, st.now)])
      && (pending && report.status == Succeeded && ok ==>
            st.orders == old(st.orders)[o := Moved(Moved(old(st.orders)[o], Paid, st.now), InProgress, st.now)]
            && st.events == old(st.events) + [Captured(old(st.orders)[o].bill)])
      && (!pending || report.status !in {Succeeded, Failed, Expired} ==> st.orders == old(st.orders))
      && (!pending || report.status != Succeeded ==> st.events == old(st.events))
  {
    hide Run, Ran, RunFor, Journal, AllPostable, MarkHook, SetChargeRef, TransitionIntent, FindByRef, Observe, Owed,
      Reported, Settleable;
    ghost var start, pc := st.Rows(), LoadHook(key);
    RanNothing(start, pc, window, world);
    HookRuns(start, key, window);
    RanMore(start, pc, window, world, 0, start, pc);
    steps := 1;
    if key !in st.hooks {
      return false, steps;
    }
    if st.hooks[key].processed {
      return true, steps;
    }
    var evt := st.hooks[key].payment;
    if evt.None? {
      steps := Acknowledge(st, key, start, pc, window, world, steps);
      return true, steps;
    }
    var payment := evt.value;
    RanMore(start, pc, window, world, steps, start, LoadIntent(key, payment));
    IntentRuns(start, key, payment, window);
    steps := steps + 1;
    var found := st.GetPaymentIntentByProviderRef(payment.provider, payment.providerRef);
    if found.None? {
      steps := Acknowledge(st, key, start, pc, window, world, steps);
      return true, steps;
    }
    OwedSays(start, found.value, payment);
    ok, steps := ApplyEvent(st, key, found.value, payment, start, pc, window, world, steps);
    if ok {
      steps := Acknowledge(st, key, start, pc, window, world, steps);
    }
  }

  lemma HookRuns(db: Db, key: string, window: nat)
    ensures Run(db, LoadHook(key), window, QUIET)
      == (db,
        if key !in db.hooks || db.hooks[key].processed then Idle
        else if db.hooks[key].payment.None? then MarkProcessed(key) else LoadIntent(key, db.hooks[key].payment.value))
  {
  }

  lemma IntentRuns(db: Db, key: string, payment: Payment, window: nat)
    ensures var i := FindByRef(db.intents, payment.provider, payment.providerRef);
      Run(db, LoadIntent(key, payment), window, QUIET)
        == (db,
          if i.None? then MarkProcessed(key)
          else Observe(i.value, db.intents[i.value].order, db.intents[i.value].status, db.intents[i.value].chargeRef,
            payment, Webhook(key)))
  {
    hide FindByRef, Observe;
  }

  method Acknowledge(st: Tables, key: string, ghost start: Db, ghost pc: Pc, ghost window: nat, ghost world: World,
    ghost before: nat) returns (ghost steps: nat)
    requires Usable(st) && Ran(start, pc, window, world, before, st.Rows(), MarkProcessed(key))
    modifies st`hooks
    ensures Usable(st) && Ran(start, pc, window, world, steps, st.Rows(), Idle)
    ensures st.hooks == if key in old(st.hooks) then old(st.hooks)[key := Hook(old(st.hooks)[key].payment, true)]
      else old(st.hooks)
  {
    hide Ran, RunFor, Journal, AllPostable;
    RanMore(start, pc, window, world, before, st.Rows(), MarkProcessed(key));
    steps := before + 1;
    st.MarkWebhookProcessed(key);
  }

  /** Record the charge reference, move the intent when the table allows, then settle the order. */
  method ApplyEvent(st: Tables, key: string, i: nat, payment: Payment, ghost start: Db, ghost pc: Pc,
    ghost window: nat, ghost world: World, ghost before: nat)
    returns (ok: bool, ghost steps: nat)
    requires Usable(st) && i < |st.intents|
    requires var intent := st.intents[i];
      Ran(start, pc, window, world, before, st.Rows(),
        Observe(i, intent.order, intent.status, intent.chargeRef, payment, Webhook(key)))
    modifies st`orders, st`entries, st`events, st`intents
    ensures Usable(st) && Ran(start, pc, window, world, steps, st.Rows(), if ok then MarkProcessed(key) else Idle)
    ensures var reported := WithReport(old(st.Rows()), i, payment); var o := old(st.intents)[i].order;
      st.Rows() == Owed(reported, o, payment.status) && (ok <==> Settleable(reported, o, payment.status))
  {
    hide Ran, RunFor, Journal, AllPostable, SetChargeRef, TransitionIntent, CanTransitionPayment, Settle, Reported,
      Owed, Settleable;
    var intent := st.intents[i];
    ghost var cont := Webhook(key);
    ghost var after := WithReport(st.Rows(), i, payment);
    ReportStages(st.Rows(), i, payment);
    steps := before;
    if payment.chargeRef != "" && payment.chargeRef != intent.chargeRef {
      RanMore(start, pc, window, world, steps, st.Rows(), RecordCharge(i, intent.order, intent.status, payment, cont));
      steps := steps + 1;
      st.SetPaymentIntentChargeRef(i, payment.chargeRef);
    }
    if CanTransitionPayment(intent.status, payment.status) {
      RanMore(start, pc, window, world, steps, st.Rows(),
        MoveIntent(i, intent.order, intent.status, payment.status, cont));
      steps := steps + 1;
      var moved := st.TransitionPaymentIntent(i, intent.status, payment.status);
      if !moved {
        return false, steps;
      }
    }
    assert st.Rows() == after;
    ghost var more := 0;
    ok, more := SettleOrder(st, intent.order, payment.status, cont, window, world);
    RanThen(start, pc, window, world, steps, after, Settle(intent.order, payment.status, cont), more, st.Rows(), if ok
      then Done(cont) else GiveUp(cont));
    steps := steps + more;
  }

  /** Ask the provider about every stale intent that was listed; a failure skips to the next. */
  method PaymentReconcileSweep(st: Tables, stale: seq<nat>, answers: seq<Result<Payment, string>>, ghost window: nat)
    returns (ghost steps: nat)
    requires Usable(st) && |answers| == |stale|
    requires forall k :: 0 <= k < |stale| ==>
      stale[k] < |st.intents| && st.intents[stale[k]].status in {Pending, Processing}
        && st.intents[stale[k]].providerRef != ""
    modifies st`orders, st`entries, st`events, st`intents
    ensures Usable(st) && Ran(old(st.Rows()), ListStale, window, SweepWorld(stale, answers), steps, st.Rows(), Idle)
    ensures st.Rows() == Swept(old(st.Rows()), Listing(old(st.Rows()), stale), answers)
    ensures Apart(Listing(old(st.Rows()), stale)) ==> forall k :: 0 <= k < |stale| ==>
      if answers[k].Ok? then ActedOn(old(st.Rows()), st.Rows(), stale[k], answers[k].value)
      else LeftAlone(old(st.Rows()), st.Rows(), stale[k], old(st.intents)[stale[k]].order)
  {
    hide Run, Ran, RunFor, Journal, AllPostable, Hear, Swept, ActedOn, LeftAlone, Apart;
    ghost var start, world := st.Rows(), SweepWorld(stale, answers);
    var snapshots := seq(|stale|, k requires 0 <= k < |stale| && stale[k] < |st.intents| reads st =>
      var intent := st.intents[stale[k]];
      Snapshot(stale[k], intent.order, intent.providerRef, intent.status, intent.chargeRef));
    assert snapshots == Listing(start, stale);
    steps := StaleListed(start, stale, snapshots, window, world);
    steps := AskEach(st, snapshots, answers, stale, start, window, steps);
    RanMore(start, ListStale, window, world, steps, st.Rows(), Sweep([]));
    SweepEnds(st.Rows(), window, world);
    steps := steps + 1;
    if Apart(snapshots) { SweepSettles(start, stale, answers); }
  }

  method AskEach(st: Tables, listed: seq<Snapshot>, answers: seq<Result<Payment, string>>, ghost stale: seq<nat>,
    ghost start: Db, ghost window: nat, ghost before: nat)
    returns (ghost steps: nat)
    requires Usable(st) && |answers| == |listed| && forall k :: 0 <= k < |listed| ==> listed[k].intent < |st.intents|
    requires Ran(start, ListStale, window, SweepWorld(stale, answers), before, st.Rows(), Sweep(listed))
    modifies st`orders, st`entries, st`events, st`intents
    ensures Usable(st) && Ran(start, ListStale, window, SweepWorld(stale, answers), steps, st.Rows(), Sweep([]))
    ensures st.Rows() == Swept(old(st.Rows()), listed, answers)
  {
    hide Run, Ran, RunFor, Usable, Hear, Answered, SweepWorld;
    ghost var world, first := SweepWorld(stale, answers), st.Rows();
    steps := before;
    assert listed[0..] == listed;
    for k := 0 to |listed|
      invariant Usable(st) && Ran(start, ListStale, window, world, steps, st.Rows(), Sweep(listed[k..]))
      invariant st.Rows() == Swept(first, listed[..k], answers[..k])
    {
      assert listed[k..] == [listed[k]] + listed[k + 1..];
      assert listed[..k + 1][..k] == listed[..k] && answers[..k + 1][..k] == answers[..k];
      SweepTakes(st.Rows(), listed[k], listed[k + 1..], window, answers[k]);
      SweepHears(stale, answers, listed[k..], k);
      RanMore(start, ListStale, window, world, steps, st.Rows(), Sweep(listed[k..]));
      steps := steps + 1;
      if answers[k].Ok? {
        steps := ApplyAnswer(st, listed[k], answers[k].value, listed[k + 1..], start, window, world, steps);
      }
    }
    assert listed[..|listed|] == listed && answers[..|answers|] == answers;
  }

  function Heard(answer: Result<Payment, string>): Input
  {
    match answer
    case Ok(payment) => Input(true, payment, [], [])
    case Err(_) => QUIET.(ok := false)
  }

  /** The provider answers for the listed intents, in order. */
  function SweepWorld(stale: seq<nat>, answers: seq<Result<Payment, string>>): World
  {
    World(QUIET, stale, seq(|answers|, k requires 0 <= k < |answers| => Heard(answers[k])), [])
  }

  lemma SweepHears(stale: seq<nat>, answers: seq<Result<Payment, string>>, left: seq<Snapshot>, k: nat)
    requires k < |answers| && |left| == |answers| - k
    ensures Hear(SweepWorld(stale, answers), Sweep(left)) == Heard(answers[k])
  {
  }

  lemma StaleListed(db: Db, stale: seq<nat>, snapshots: seq<Snapshot>, window: nat, world: World) returns (steps: nat)
    requires world.stale == stale && forall k :: 0 <= k < |stale| ==> IsStale(db, stale[k])
    requires |snapshots| == |stale| && forall k ::
      0 <= k < |stale| ==> stale[k] < |db.intents| && snapshots[k] == SnapshotOf(db, stale[k])
    ensures Ran(db, ListStale, window, world, steps, db, Sweep(snapshots))
  {
    var input := QUIET.(stale := stale);
    hide Ran, IsStale, SnapshotOf;
    RanNothing(db, ListStale, window, world);
    RanMore(db, ListStale, window, world, 0, db, ListStale);
    assert Run(db, ListStale, window, input).1.stale == snapshots;
    steps := 1;
  }

  lemma SweepTakes(db: Db, head: Snapshot, rest: seq<Snapshot>, window: nat, answer: Result<Payment, string>)
    ensures Run(db, Sweep([head] + rest), window, Heard(answer))
      == (db, if answer.Ok?
        then Observe(head.intent, head.order, head.status, head.chargeRef, answer.value, Reconcile(rest))
        else Sweep(rest))
  {
    hide Observe;
    assert ([head] + rest)[1..] == rest;
  }

  lemma SweepEnds(db: Db, window: nat, world: World)
    ensures Run(db, Sweep([]), window, Hear(world, Sweep([]))) == (db, Idle)
  {
  }

  /** One provider answer: record the charge reference, move the intent if the table allows and nobody else did,
      settle the order. */
  method ApplyAnswer(st: Tables, head: Snapshot, payment: Payment, ghost rest: seq<Snapshot>, ghost start: Db,
    ghost window: nat, ghost world: World, ghost before: nat)
    returns (ghost steps: nat)
    requires Usable(st) && head.intent < |st.intents|
    requires Ran(start, ListStale, window, world, before, st.Rows(),
      Observe(head.intent, head.order, head.status, head.chargeRef, payment, Reconcile(rest)))
    modifies st`orders, st`entries, st`events, st`intents
    ensures Usable(st) && Ran(start, ListStale, window, world, steps, st.Rows(), Sweep(rest))
    ensures st.Rows() == Answered(old(st.Rows()), head, payment)
  {
    hide Ran, RunFor, Journal, AllPostable, SetChargeRef, TransitionIntent, CanTransitionPayment, Settle, Answered,
      Owed,
      Settleable;
    AnswerStages(st.Rows(), head, payment);
    ghost var cont := Reconcile(rest);
    steps := before;
    if payment.chargeRef != "" && payment.chargeRef != head.chargeRef {
      RanMore(start, ListStale, window, world, steps, st.Rows(),
        RecordCharge(head.intent, head.order, head.status, payment, cont));
      steps := steps + 1;
      st.SetPaymentIntentChargeRef(head.intent, payment.chargeRef);
    }
    if !CanTransitionPayment(head.status, payment.status) {
      return;
    }
    RanMore(start, ListStale, window, world, steps, st.Rows(),
      MoveIntent(head.intent, head.order, head.status, payment.status, cont));
    steps := steps + 1;
    var moved := st.TransitionPaymentIntent(head.intent, head.status, payment.status);
    if !moved {
      return;
    }
    ghost var here, more := st.Rows(), 0;
    var ok: bool;
    ok, more := SettleOrder(st, head.order, payment.status, cont, window, world);
    RanThen(start, ListStale, window, world, steps, here, Settle(head.order, payment.status, cont), more, st.Rows(),
      Sweep(rest));
    steps := steps + more;
  }

  // ----- requests about orders -----

  /** One release is posted if and only if the order's newest payment has succeeded and the share left by the fee is
      positive. */
  method ReleaseSellerEarnings(st: Tables, bill: Bill, ghost rest: seq<Bill>, ghost window: nat, ghost world: World)
    returns (ghost steps: nat)
    requires Usable(st)
    modifies st`entries, st`events
    ensures Usable(st)
      && Ran(old(st.Rows()), ReleaseNext([bill] + rest), window, world, steps, st.Rows(), ReleaseNext(rest))
    ensures var i := LatestIntent(st.intents, bill.order);
      st.events == if i.Some? && st.intents[i.value].status == Succeeded && Wrap(bill.total - bill.fee) > 0
        then old(st.events) + [Released(bill)] else old(st.events)
  {
    hide Run, Ran, RunFor, Usable, LatestIntent, Payable, StoreRows.Post, Wrap;
    ghost var start, pc := st.Rows(), ReleaseNext([bill] + rest);
    RanNothing(start, pc, window, world);
    ReleaseSteps(start, bill, rest, window);
    RanMore(start, pc, window, world, 0, start, pc);
    steps := 1;
    var i := st.LatestPaymentIntentForOrder(bill.order);
    if i.None? || st.intents[i.value].status != Succeeded {
      return;
    }
    var payable: int64 := Wrap(bill.total - bill.fee);
    assert payable == Payable(bill) by { PayableIs(bill); }
    if payable <= 0 {
      return;
    }
    RanMore(start, pc, window, world, steps, start, PostRelease(bill, rest));
    steps := steps + 1;
    ReleaseGoesIn(start, bill);
    var posted := PostReleased(st, bill, payable);
  }

  lemma ReleaseGoesIn(db: Db, bill: Bill)
    requires Payable(bill) > 0
    ensures StoreRows.Post(db, Released(bill)).0 == db.(ledger := db.ledger + [Released(bill)])
  {
    hide Payable;
  }

  /** The two calls of a release: look at the payment, then post. */
  lemma ReleaseSteps(db: Db, bill: Bill, rest: seq<Bill>, window: nat)
    ensures var i := LatestIntent(db.intents, bill.order);
      Run(db, ReleaseNext([bill] + rest), window, QUIET)
        == (db, if i.Some? && db.intents[i.value].status == Succeeded && Payable(bill) > 0
          then PostRelease(bill, rest) else ReleaseNext(rest))
    ensures Run(db, PostRelease(bill, rest), window, QUIET) == (StoreRows.Post(db, Released(bill)).0, ReleaseNext(rest))
  {
    hide LatestIntent, Payable, StoreRows.Post;
    assert ([bill] + rest)[1..] == rest;
  }

  lemma PayableIs(bill: Bill)
    ensures Payable(bill) == Wrap(bill.total - bill.fee)
  {
  }

  lemma ReleasedEntries(bill: Bill)
    requires Payable(bill) > 0
    ensures Bookkeeping.Entries(Released(bill))
      == ReleaseEntries(bill.order, bill.seller, Payable(bill), Lower(bill.currency))
  {
  }

  /** The releases posted for a list of orders: one for each whose newest payment has succeeded and whose share is
      positive, in turn. */
  function ReleasesFor(intents: seq<Intent>, bills: seq<Bill>): seq<Event>
  {
    if bills == [] then []
    else
      var bill := bills[|bills| - 1];
      var i := LatestIntent(intents, bill.order);
      ReleasesFor(intents, bills[..|bills| - 1])
        + if i.Some? && intents[i.value].status == Succeeded && Wrap(bill.total - bill.fee) > 0
          then [Released(bill)] else []
  }

  lemma NoReleases(intents: seq<Intent>)
    ensures ReleasesFor(intents, []) == []
  {
  }

  lemma ReleasesStep(intents: seq<Intent>, bills: seq<Bill>, k: nat)
    requires k < |bills|
    ensures var bill, i := bills[k], LatestIntent(intents, bills[k].order);
      ReleasesFor(intents, bills[..k + 1]) == ReleasesFor(intents, bills[..k])
        + if i.Some? && intents[i.value].status == Succeeded && Wrap(bill.total - bill.fee) > 0
          then [Released(bill)] else []
  {
    assert bills[..k + 1][..k] == bills[..k];
    hide LatestIntent, Wrap;
  }

  /** Release the earnings of each order in turn. */
  method ReleaseEach(st: Tables, bills: seq<Bill>, ghost start: Db, ghost pc: Pc, ghost window: nat,
    ghost world: World, ghost before: nat) returns (ghost steps: nat)
    requires Usable(st) && Ran(start, pc, window, world, before, st.Rows(), ReleaseNext(bills))
    modifies st`entries, st`events
    ensures Usable(st) && Ran(start, pc, window, world, steps, st.Rows(), Idle)
    ensures st.events == old(st.events) + ReleasesFor(st.intents, bills)
  {
    hide Run, Ran, RunFor, Usable, LatestIntent, Wrap, ReleasesFor;
    steps := before;
    NoReleases(st.intents);
    assert bills[0..] == bills;
    for k := 0 to |bills|
      invariant Usable(st) && Ran(start, pc, window, world, steps, st.Rows(), ReleaseNext(bills[k..]))
      invariant st.events == old(st.events) + ReleasesFor(st.intents, bills[..k])
    {
      ReleasesStep(st.intents, bills, k);
      ghost var here := st.Rows();
      assert bills[k..] == [bills[k]] + bills[k + 1..];
      ghost var more := ReleaseSellerEarnings(st, bills[k], bills[k + 1..], window, world);
      RanThen(start, pc, window, world, steps, here, ReleaseNext(bills[k..]), more, st.Rows(),
        ReleaseNext(bills[k + 1..]));
      steps := steps + more;
    }
    assert bills[..|bills|] == bills;
    RanMore(start, pc, window, world, steps, st.Rows(), ReleaseNext([]));
    ReleaseEnds(st.Rows(), window);
    steps := steps + 1;
  }

  lemma ReleaseEnds(db: Db, window: nat)
    ensures Run(db, ReleaseNext([]), window, QUIET) == (db, Idle)
  {
  }

  /** The sweep: one accepting statement, then a release for every order it returned. Exactly the delivered orders whose
      delivery is older than the window are accepted, each once, and no other order changes. */
  method OrderAutoAcceptSweep(st: Tables, window: nat) returns (ghost world: World, ghost steps: nat)
    requires Usable(st)
    modifies st`orders, st`entries, st`events
    ensures Usable(st) && Ran(old(st.Rows()), StartAutoAccept, window, world, steps, st.Rows(), Idle)
    ensures forall o :: o in world.listing <==>
      (o in old(st.orders) && old(st.orders)[o].status == Delivered && old(st.orders)[o].deliveredAt.Some?
        && old(st.orders)[o].deliveredAt.value < st.now - window)
    ensures forall j, k :: 0 <= j < k < |world.listing| ==> world.listing[j] != world.listing[k]
    ensures st.orders == map o | o in old(st.orders) ::
      if o in world.listing then Moved(old(st.orders)[o], Accepted, st.now) else old(st.orders)[o]
    ensures st.events == old(st.events) + ReleasesFor(st.intents, BillsOf(old(st.Rows()), world.listing))
  {
    hide Run, Ran, RunFor, Journal, AllPostable, StoreRows.AutoAcceptOrders, Lists, BillsOf, ReleasesFor, Moved;
    ghost var start, pc := st.Rows(), StartAutoAccept;
    var cutoff := st.now - window;
    var moved := st.AutoAcceptOrders(cutoff);
    world := World(QUIET, [], [], moved);
    steps := SweepBegins(start, window, world);
    RanMore(start, pc, window, world, steps, start, AcceptOverdue(cutoff));
    SweepAccepts(start, cutoff, window, Hear(world, AcceptOverdue(cutoff)));
    steps := steps + 1;
    AcceptBills(start, cutoff);
    OverdueAccepted(start, cutoff, moved);
    BillsSurvive(start, st.Rows(), moved);
    var bills := seq(|moved|, k requires 0 <= k < |moved|
      && moved[k] in st.orders reads st => st.orders[moved[k]].bill);
    assert bills == BillsOf(start, moved);
    steps := ReleaseEach(st, bills, start, pc, window, world, steps);
  }

  lemma SweepBegins(db: Db, window: nat, world: World) returns (steps: nat)
    ensures Ran(db, StartAutoAccept, window, world, steps, db, AcceptOverdue(db.now - window))
  {
    hide Run, Ran;
    RanNothing(db, StartAutoAccept, window, world);
    RanMore(db, StartAutoAccept, window, world, 0, db, StartAutoAccept);
    SweepStarts(db, window);
    steps := 1;
  }

  lemma SweepStarts(db: Db, window: nat)
    ensures Run(db, StartAutoAccept, window, QUIET) == (db, AcceptOverdue(db.now - window))
  {
  }

  lemma SweepAccepts(db: Db, cutoff: int, window: nat, input: Input)
    requires input.ok && Lists(db, cutoff, input.listing)
    ensures forall o :: o in input.listing ==> o in db.orders
    ensures Run(db, AcceptOverdue(cutoff), window, input)
      == (StoreRows.AutoAcceptOrders(db, cutoff), ReleaseNext(BillsOf(db, input.listing)))
  {
    ListedAreOverdue(db, cutoff, input.listing);
    hide Lists, StoreRows.AutoAcceptOrders, BillsOf;
  }

  lemma OverdueAccepted(db: Db, cutoff: int, listing: seq<int64>)
    requires Lists(db, cutoff, listing)
    ensures forall o :: o in listing <==>
      (o in db.orders && db.orders[o].status == Delivered && db.orders[o].deliveredAt.Some?
        && db.orders[o].deliveredAt.value < cutoff)
    ensures forall j, k :: 0 <= j < k < |listing| ==> listing[j] != listing[k]
    ensures var after := StoreRows.AutoAcceptOrders(db, cutoff);
      after.ledger == db.ledger && after.orders == map o | o in db.orders ::
        if o in listing then Moved(db.orders[o], Accepted, db.now) else db.orders[o]
  {
    ListedAreOverdue(db, cutoff, listing);
    hide Moved;
  }

  lemma AcceptBills(db: Db, cutoff: int)
    ensures var after := StoreRows.AutoAcceptOrders(db, cutoff);
      after.orders.Keys == db.orders.Keys && forall o :: o in db.orders ==> after.orders[o].bill == db.orders[o].bill
  {
  }

  lemma BillsSurvive(db: Db, after: Db, listing: seq<int64>)
    requires forall o ::
      o in listing ==> o in db.orders && o in after.orders && after.orders[o].bill == db.orders[o].bill
    ensures forall k ::
      0 <= k < |listing| ==> listing[k] in after.orders && BillsOf(db, listing)[k] == after.orders[listing[k]].bill
  {
    assert forall k :: 0 <= k < |listing| ==> listing[k] in listing;
    hide BillsOf;
  }

  /** Load the order for a request; the request goes on only if the order exists. */
  lemma RequestLoads(db: Db, o: int64, wish: Wish, window: nat, world: World) returns (steps: nat)
    ensures Ran(db, Decide(o, wish), window, world, steps, db, if o in db.orders then Decided(o, db.orders[o], wish)
      else Idle)
  {
    hide Decided, Ran;
    RanNothing(db, Decide(o, wish), window, world);
    RanMore(db, Decide(o, wish), window, world, 0, db, Decide(o, wish));
    steps := 1;
  }

  /** The guarded update that ends a request; an acceptance then releases the earnings. */
  method FinishMove(st: Tables, bill: Bill, from: Status, to: Status, ghost start: Db, ghost pc: Pc,
    ghost window: nat, ghost world: World, ghost before: nat)
    returns (ok: bool, ghost steps: nat)
    requires Usable(st) && Ran(start, pc, window, world, before, st.Rows(), Move(bill, from, to))
    modifies st`orders, st`entries, st`events
    ensures Usable(st) && Ran(start, pc, window, world, steps, st.Rows(), Idle)
    ensures ok <==> bill.order in old(st.orders) && old(st.orders)[bill.order].status == from
    ensures st.orders == if ok then old(st.orders)[bill.order := Moved(old(st.orders)[bill.order], to, st.now)]
      else old(st.orders)
    ensures st.events == old(st.events) + if ok && to == Accepted then ReleasesFor(st.intents, [bill]) else []
  {
    hide Run, Ran, RunFor, Journal, AllPostable, StoreRows.TransitionOrder, ReleasesFor;
    RanMore(start, pc, window, world, before, st.Rows(), Move(bill, from, to));
    MoveRuns(st.Rows(), bill, from, to, window);
    steps := before + 1;
    TransitionKeepsBills(st.Rows(), bill.order, from, to);
    TransitionSays(st.Rows(), bill.order, from, to);
    ok := st.TransitionOrder(bill.order, from, to);
    if ok && to == Accepted {
      steps := ReleaseEach(st, [bill], start, pc, window, world, steps);
    }
  }

  lemma TransitionSays(db: Db, o: int64, from: Status, to: Status)
    ensures var (after, won) := StoreRows.TransitionOrder(db, o, from, to);
      && (won <==> o in db.orders && db.orders[o].status == from) && after.ledger == db.ledger
      && after.orders == if won then db.orders[o := Moved(db.orders[o], to, db.now)] else db.orders
  {
  }

  lemma MoveRuns(db: Db, bill: Bill, from: Status, to: Status, window: nat)
    ensures var (after, moved) := StoreRows.TransitionOrder(db, bill.order, from, to);
      Run(db, Move(bill, from, to), window, QUIET)
        == (after, if moved && to == Accepted then ReleaseNext([bill]) else Idle)
  {
    hide StoreRows.TransitionOrder;
  }

  /** Deliver or accept: check the table against the status just read, then move. Work is delivered while the order is
      in progress or sent back, and accepted only when delivered; an acceptance releases the earnings. */
  method OrderMove(st: Tables, o: int64, wish: Wish, ghost window: nat, ghost world: World)
    returns (ok: bool, ghost steps: nat)
    requires Usable(st) && (wish.Deliver? || wish.Accept?)
    modifies st`orders, st`entries, st`events
    ensures Usable(st) && Ran(old(st.Rows()), Decide(o, wish), window, world, steps, st.Rows(), Idle)
    ensures ok <==> (o in old(st.orders)
      && old(st.orders)[o].status in if wish.Accept? then {Delivered} else {InProgress, RevisionRequested})
    ensures !ok ==> st.orders == old(st.orders) && st.events == old(st.events)
    ensures ok && wish.Deliver? ==>
      st.orders == old(st.orders)[o := Moved(old(st.orders)[o], Delivered, st.now)] && st.events == old(st.events)
    ensures ok && wish.Accept? ==>
      st.orders == old(st.orders)[o := Moved(old(st.orders)[o], Accepted, st.now)]
        && st.events == old(st.events) + ReleasesFor(st.intents, [old(st.orders)[o].bill])
  {
    hide Run, Ran, RunFor, Journal, AllPostable, CanTransition, ReleasesFor;
    ghost var start := st.Rows();
    steps := RequestLoads(start, o, wish, window, world);
    if o in st.orders { EnteredFrom(st.orders[o].status, Target(wish)); }
    if o !in st.orders || !CanTransition(st.orders[o].status, Target(wish)) {
      return false, steps;
    }
    ok, steps := FinishMove(st, st.orders[o].bill, st.orders[o].status, Target(wish), start, Decide(o, wish), window,
      world, steps);
  }

  /** Send a delivery back, as long as the allowance lasts: one revision is used and recorded, then the order moves. */
  method OrderRevise(st: Tables, o: int64, ghost window: nat, ghost world: World) returns (ok: bool, ghost steps: nat)
    requires Usable(st)
    modifies st`orders, st`entries, st`events, st`revisions
    ensures Usable(st) && Ran(old(st.Rows()), Decide(o, Revise), window, world, steps, st.Rows(), Idle)
    ensures ok <==>
      o in old(st.orders) && old(st.orders)[o].status == Delivered
        && old(st.orders)[o].revisionsUsed < old(st.orders)[o].revisionsAllowed
    ensures st.events == old(st.events)
    ensures !ok ==> st.orders == old(st.orders) && st.revisions == old(st.revisions)
    ensures ok ==>
      var used := old(st.orders)[o].(revisionsUsed := old(st.orders)[o].revisionsUsed + 1);
      st.orders == old(st.orders)[o := Moved(used, RevisionRequested, st.now)]
        && st.revisions == old(st.revisions) + [o]
  {
    hide Run, Ran, RunFor, Usable, CanTransition, Moved;
    ghost var start := st.Rows();
    steps := RevisionLoads(start, o, window, world);
    if o !in st.orders || !CanTransition(st.orders[o].status, RevisionRequested) {
      return false, steps;
    }
    ok, steps := SendBack(st, o, st.orders[o].status, window, world, steps);
  }

  /** One revision is used, if there is one left, and the order moves. */
  method SendBack(st: Tables, o: int64, from: Status, ghost window: nat, ghost world: World, ghost before: nat)
    returns (ok: bool, ghost steps: nat)
    requires Usable(st) && o in st.orders && st.orders[o].status == from
    requires Ran(st.Rows(), Decide(o, Revise), window, world, before, st.Rows(), UseRevision(o, from))
    modifies st`orders, st`entries, st`events, st`revisions
    ensures Usable(st) && Ran(old(st.Rows()), Decide(o, Revise), window, world, steps, st.Rows(), Idle)
    ensures ok <==> old(st.orders)[o].revisionsUsed < old(st.orders)[o].revisionsAllowed
    ensures st.events == old(st.events)
    ensures !ok ==> st.orders == old(st.orders) && st.revisions == old(st.revisions)
    ensures ok ==>
      var used := old(st.orders)[o].(revisionsUsed := old(st.orders)[o].revisionsUsed + 1);
      st.orders == old(st.orders)[o := Moved(used, RevisionRequested, st.now)]
        && st.revisions == old(st.revisions) + [o]
  {
    hide Run, Ran, RunFor, Journal, AllPostable, Moved, ConsumeRevision;
    ghost var start := st.Rows();
    RevisionSays(start, o);
    RanMore(start, Decide(o, Revise), window, world, before, start, UseRevision(o, from));
    RevisionRuns(start, o, from, window);
    steps := before + 1;
    var used := st.CreateRevisionRequest(o);
    if !used {
      return false, steps;
    }
    ghost var row := st.orders[o];
    UpdatedTwice(start.orders, o, row, Moved(row, RevisionRequested, st.now));
    ok, steps := FinishMove(st, st.orders[o].bill, from, RevisionRequested, start, Decide(o, Revise), window, world,
      steps);
  }

  lemma UpdatedTwice(orders: map<int64, Order>, o: int64, first: Order, second: Order)
    ensures orders[o := first][o := second] == orders[o := second]
  {
  }

  lemma RevisionLoads(db: Db, o: int64, window: nat, world: World) returns (steps: nat)
    ensures Ran(db, Decide(o, Revise), window, world, steps, db,
      if o in db.orders && db.orders[o].status == Delivered then UseRevision(o, Delivered) else Idle)
    ensures o in db.orders ==>
      (CanTransition(db.orders[o].status, RevisionRequested) <==> db.orders[o].status == Delivered)
  {
    hide Ran, CanTransition;
    steps := RequestLoads(db, o, Revise, window, world);
    if o in db.orders { EnteredFrom(db.orders[o].status, RevisionRequested); }
  }

  lemma RevisionSays(db: Db, o: int64)
    ensures var (after, used) := ConsumeRevision(db, o);
      && (used <==> o in db.orders && db.orders[o].revisionsUsed < db.orders[o].revisionsAllowed)
      && after.ledger == db.ledger && (!used ==> after == db)
      && (used ==>
            after.orders == db.orders[o := db.orders[o].(revisionsUsed := db.orders[o].revisionsUsed + 1)]
            && after.revisions == db.revisions + [o])
  {
  }

  lemma RevisionRuns(db: Db, o: int64, from: Status, window: nat)
    ensures var (after, used) := ConsumeRevision(db, o);
      Run(db, UseRevision(o, from), window, QUIET)
        == (after, if used then Move(after.orders[o].bill, from, RevisionRequested) else Idle)
  {
  }

  /** Ask for cancellation, or open a dispute: the request row first, then the status. A cancellation is asked for only
      in progress; a dispute is opened in progress, on a delivery, on a revision or after acceptance. */
  method OrderAsk(st: Tables, matter: Matter, o: int64, ghost window: nat, ghost world: World)
    returns (ok: bool, ghost steps: nat)
    requires Usable(st)
    modifies st`orders, st`entries, st`events, st`cancellations, st`disputes
    ensures Usable(st) && Ran(old(st.Rows()), Decide(o, Ask(matter)), window, world, steps, st.Rows(), Idle)
    ensures ok <==> (o in old(st.orders)
      && old(st.orders)[o].status in if matter == Cancellation then {InProgress}
        else {InProgress, Delivered, RevisionRequested, Accepted})
    ensures !ok ==> Requests(st.Rows(), matter) == old(Requests(st.Rows(), matter)) && st.orders == old(st.orders)
    ensures ok ==>
      Requests(st.Rows(), matter) == old(Requests(st.Rows(), matter)) + [Request(o, true)]
        && st.orders == old(st.orders)[o := Moved(old(st.orders)[o],
          if matter == Cancellation then CancelRequested else Disputed, st.now)]
    ensures st.events == old(st.events)
    ensures matter == Cancellation ==> st.disputes == old(st.disputes)
    ensures matter == Dispute ==> st.cancellations == old(st.cancellations)
  {
    hide Run, Ran, RunFor, Journal, AllPostable, CanTransition, OpenRequest, Moved;
    ghost var start := st.Rows();
    RequestSays(start, matter, o);
    steps := RequestLoads(start, o, Ask(matter), window, world);
    var to := Target(Ask(matter));
    if o in st.orders { EnteredFrom(st.orders[o].status, to); }
    if o !in st.orders || !CanTransition(st.orders[o].status, to) {
      return false, steps;
    }
    var from := st.orders[o].status;
    RanMore(start, Decide(o, Ask(matter)), window, world, steps, start, OpenRow(matter, o, from));
    AskRuns(start, matter, o, from, window);
    steps := steps + 1;
    st.CreateRequest(matter, o);
    ok, steps := FinishMove(st, st.orders[o].bill, from, to, start, Decide(o, Ask(matter)), window, world, steps);
  }

  lemma RequestSays(db: Db, matter: Matter, o: int64)
    ensures var after := OpenRequest(db, matter, o);
      && after.orders == db.orders && after.ledger == db.ledger
      && Requests(after, matter) == Requests(db, matter) + [Request(o, true)]
      && (matter == Cancellation ==> after.disputes == db.disputes)
      && (matter == Dispute ==> after.cancellations == db.cancellations)
  {
  }

  lemma AskRuns(db: Db, matter: Matter, o: int64, from: Status, window: nat)
    requires o in db.orders
    ensures Run(db, OpenRow(matter, o, from), window, QUIET)
      == (OpenRequest(db, matter, o), Move(db.orders[o].bill, from, Target(Ask(matter))))
  {
    hide OpenRequest;
  }

  /** From where a cancellation request or a dispute takes an order to each outcome. */
  predicate Resolvable(from: Status, matter: Matter, to: Status)
  {
    match to
    case Cancelled => from in {CancelRequested, Disputed}
    case InProgress => from in {Paid, CancelRequested, Disputed}
    case Closed => matter == Dispute && from in {Accepted, Disputed}
    case _ => false
  }

  /** Approve or decline a cancellation, or decide a dispute: find the open row, check the table, close the row, move
      the order. The check is the table's alone: a cancellation can also be resolved while the order is in dispute, a
      dispute while a cancellation is asked for, and a dispute can be closed after acceptance. */
  method OrderResolve(st: Tables, matter: Matter, o: int64, to: Status, ghost window: nat, ghost world: World)
    returns (ok: bool, ghost steps: nat)
    requires Usable(st)
    modifies st`orders, st`entries, st`events, st`cancellations, st`disputes
    ensures Usable(st) && Ran(old(st.Rows()), Decide(o, Resolve(matter, to)), window, world, steps, st.Rows(), Idle)
    ensures ok <==>
      o in old(st.orders) && Request(o, true) in old(Requests(st.Rows(), matter))
        && Resolvable(old(st.orders)[o].status, matter, to)
    ensures st.orders == if ok then old(st.orders)[o := Moved(old(st.orders)[o], to, st.now)] else old(st.orders)
    ensures st.events == old(st.events)
    ensures !ok ==> Requests(st.Rows(), matter) == old(Requests(st.Rows(), matter))
    ensures ok ==>
      var rows, row := old(Requests(st.Rows(), matter)), FindOpen(old(Requests(st.Rows(), matter)), o);
      row.Some? && Requests(st.Rows(), matter) == rows[row.value := Request(o, false)]
  {
    hide Run, Ran, RunFor, Journal, AllPostable, CanTransition, FindOpen, Moved, ValidOutcome, Requests,
      Decided, Resolvable;
    ghost var start, pc := st.Rows(), Decide(o, Resolve(matter, to));
    OpenRowExists(start, matter, o);
    if o in st.orders { ResolvesFrom(st.orders[o].status, matter, to); }
    steps := ResolveLoads(start, matter, o, to, window, world);
    if o !in st.orders || !ValidOutcome(matter, to) {
      return false, steps;
    }
    var from := st.orders[o].status;
    RanMore(start, pc, window, world, steps, start, FindRow(matter, o, from, to));
    ResolveFinds(start, matter, o, from, to, window);
    steps := steps + 1;
    var row := st.GetOpenRequest(matter, o);
    if row.None? || !CanTransition(from, to) {
      return false, steps;
    }
    ok, steps := CloseAndMove(st, matter, o, row.value, from, to, pc, window, world, steps);
  }

  /** The open row found is closed, and the order moves. */
  method CloseAndMove(st: Tables, matter: Matter, o: int64, row: nat, from: Status, to: Status, ghost pc: Pc,
    ghost window: nat, ghost world: World, ghost before: nat)
    returns (ok: bool, ghost steps: nat)
    requires Usable(st) && o in st.orders && st.orders[o].status == from && to != Accepted
    requires FindOpen(Requests(st.Rows(), matter), o) == Some(row)
    requires Ran(st.Rows(), pc, window, world, before, st.Rows(), CloseRow(matter, o, row, from, to))
    modifies st`orders, st`entries, st`events, st`cancellations, st`disputes
    ensures Usable(st) && Ran(old(st.Rows()), pc, window, world, steps, st.Rows(), Idle)
    ensures ok && st.orders == old(st.orders)[o := Moved(old(st.orders)[o], to, st.now)] && st.events == old(st.events)
    ensures Requests(st.Rows(), matter) == old(Requests(st.Rows(), matter))[row := Request(o, false)]
  {
    hide Run, Ran, RunFor, Journal, AllPostable, CloseRequest, FindOpen, Moved;
    ghost var start := st.Rows();
    RanMore(start, pc, window, world, before, start, CloseRow(matter, o, row, from, to));
    ResolveCloses(start, matter, o, row, from, to, window);
    OpenRequestCloses(start, matter, o);
    steps := before + 1;
    var closed := st.ResolveRequest(matter, row);
    ok, steps := FinishMove(st, st.orders[o].bill, from, to, start, pc, window, world, steps);
  }

  lemma ResolveLoads(db: Db, matter: Matter, o: int64, to: Status, window: nat, world: World) returns (steps: nat)
    ensures Ran(db, Decide(o, Resolve(matter, to)), window, world, steps, db,
      if o in db.orders && ValidOutcome(matter, to) then FindRow(matter, o, db.orders[o].status, to) else Idle)
  {
    hide Ran, ValidOutcome;
    steps := RequestLoads(db, o, Resolve(matter, to), window, world);
  }

  lemma ResolvesFrom(from: Status, matter: Matter, to: Status)
    ensures ValidOutcome(matter, to) && CanTransition(from, to) <==> Resolvable(from, matter, to)
    ensures Resolvable(from, matter, to) ==> to != Accepted
  {
    EnteredFrom(from, to);
    hide CanTransition;
  }

  lemma OpenRowExists(db: Db, matter: Matter, o: int64)
    ensures FindOpen(Requests(db, matter), o).Some? <==> Request(o, true) in Requests(db, matter)
  {
  }

  lemma OpenRequestCloses(db: Db, matter: Matter, o: int64)
    ensures var row := FindOpen(Requests(db, matter), o);
      row.Some? ==>
        var (after, closed) := CloseRequest(db, matter, row.value);
        closed && Requests(after, matter) == Requests(db, matter)[row.value := Request(o, false)]
        && after.ledger == db.ledger
  {
  }

  lemma ResolveFinds(db: Db, matter: Matter, o: int64, from: Status, to: Status, window: nat)
    ensures var row := FindOpen(Requests(db, matter), o);
      Run(db, FindRow(matter, o, from, to), window, QUIET)
        == (db, if row.Some? && CanTransition(from, to) then CloseRow(matter, o, row.value, from, to) else Idle)
  {
    hide FindOpen, CanTransition;
  }

  lemma ResolveCloses(db: Db, matter: Matter, o: int64, row: nat, from: Status, to: Status, window: nat)
    requires o in db.orders
    ensures var (after, closed) := CloseRequest(db, matter, row);
      Run(db, CloseRow(matter, o, row, from, to), window, QUIET)
        == (after, if closed then Move(db.orders[o].bill, from, to) else Idle)
      && after.orders == db.orders
  {
  }

  // ----- refunds -----

  /** The provider's answer to the one refund call, or its failure. */
  function RefundWorld(call: Result<PaymentStatus, string>): World
  {
    match call
    case Ok(status) => World(Input(true, Payment("", "", status, ""), [], []), [], [], [])
    case Err(_) => World(QUIET.(ok := false), [], [], [])
  }

  /** The order exists, its newest payment succeeded with a charge to refund, and no refund is live. */
  predicate Refundable(db: Db, o: int64)
  {
    var i := LatestIntent(db.intents, o);
    o in db.orders && i.Some? && db.intents[i.value].status == Succeeded && db.intents[i.value].chargeRef != ""
      && forall row :: row in db.refunds && row.order == o ==> row.status == RefundFailed
  }

  lemma {:induction false} NoLiveRefund(refunds: seq<RefundRow>, o: int64)
    ensures Live(refunds, o) == 0 <==> forall row :: row in refunds && row.order == o ==> row.status == RefundFailed
    decreases |refunds|
  {
    if refunds != [] {
      var n := |refunds| - 1;
      NoLiveRefund(refunds[..n], o);
      assert refunds == refunds[..n] + [refunds[n]];
    }
  }

  /** What the status column takes of a provider's answer; a row whose answer it refuses stays pending. */
  function RefundRecorded(answer: PaymentStatus): RefundStatus
  {
    if answer == Succeeded then RefundSucceeded else if answer == Failed then RefundFailed else RefundPending
  }

  /** Load, check, call the provider, insert the row, store the answer, and post only an immediate success. It goes
      through if and only if the order's newest payment has succeeded and has a charge, every earlier refund of the
      order has failed, and the provider answers with one of the three statuses that can be stored. Once the provider
      has answered there is a row, and only an immediate success is posted, drawn from the seller's available earnings
      exactly when the order has been accepted. */
  method AdminOrderRefund(st: Tables, o: int64, call: Result<PaymentStatus, string>, ghost window: nat)
    returns (ok: bool, ghost steps: nat)
    requires Usable(st)
    modifies st`refunds, st`entries, st`events
    ensures Usable(st) && Ran(old(st.Rows()), LoadForRefund(o), window, RefundWorld(call), steps, st.Rows(), Idle)
    ensures ok <==> Refundable(old(st.Rows()), o) && call.Ok? && call.value in {Pending, Succeeded, Failed}
    ensures st.refunds == if Refundable(old(st.Rows()), o) && call.Ok?
      then old(st.refunds) + [RefundRow(o, RefundRecorded(call.value))] else old(st.refunds)
    ensures st.events == if ok && call.value == Succeeded && Billable(st.orders[o].bill)
      then old(st.events) + [Refunded(st.orders[o].bill, st.orders[o].acceptedAt.Some?)] else old(st.events)
  {
    hide Run, Ran, RunFor, Journal, AllPostable, LatestIntent, Live, RefundRecorded;
    ghost var start, pc, world := st.Rows(), LoadForRefund(o), RefundWorld(call);
    NoLiveRefund(st.refunds, o);
    steps := RefundLoads(start, o, window, world);
    if o !in st.orders {
      return false, steps;
    }
    var bill, accepted := st.orders[o].bill, st.orders[o].acceptedAt.Some?;
    RanMore(start, pc, window, world, steps, start, LoadCharge(bill, accepted));
    RefundChecks(start, bill, accepted, window);
    steps := steps + 1;
    var i := st.LatestPaymentIntentForOrder(bill.order);
    if i.None? || st.intents[i.value].status != Succeeded || st.intents[i.value].chargeRef == "" {
      return false, steps;
    }
    RanMore(start, pc, window, world, steps, start, CheckRefund(bill, accepted));
    steps := steps + 1;
    var existing := st.HasRefund(bill.order);
    if existing {
      return false, steps;
    }
    RanMore(start, pc, window, world, steps, start, CallProvider(bill, accepted));
    RefundCalls(start, bill, accepted, window, call);
    steps := steps + 1;
    if call.Err? {
      return false, steps;
    }
    ok, steps := RecordRefund(st, bill, accepted, call.value, start, pc, window, world, steps);
  }

  lemma RefundLoads(db: Db, o: int64, window: nat, world: World) returns (steps: nat)
    ensures Ran(db, LoadForRefund(o), window, world, steps, db,
      if o in db.orders then LoadCharge(db.orders[o].bill, db.orders[o].acceptedAt.Some?) else Idle)
  {
    hide Ran;
    RanNothing(db, LoadForRefund(o), window, world);
    RanMore(db, LoadForRefund(o), window, world, 0, db, LoadForRefund(o));
    steps := 1;
  }

  lemma RefundChecks(db: Db, bill: Bill, accepted: bool, window: nat)
    ensures var i := LatestIntent(db.intents, bill.order);
      Run(db, LoadCharge(bill, accepted), window, QUIET)
        == (db, if i.Some? && db.intents[i.value].status == Succeeded && db.intents[i.value].chargeRef != ""
          then CheckRefund(bill, accepted) else Idle)
    ensures Run(db, CheckRefund(bill, accepted), window, QUIET)
      == (db, if Live(db.refunds, bill.order) > 0 then Idle else CallProvider(bill, accepted))
  {
    hide LatestIntent, Live;
  }

  lemma RefundCalls(db: Db, bill: Bill, accepted: bool, window: nat, call: Result<PaymentStatus, string>)
    ensures Run(db, CallProvider(bill, accepted), window, Hear(RefundWorld(call), CallProvider(bill, accepted)))
         == (db, if call.Ok? then InsertRefund(bill, accepted, call.value) else Idle)
  {
  }

  lemma RefundWrites(db: Db, bill: Bill, row: nat, accepted: bool, answer: PaymentStatus, window: nat)
    ensures var (after, inserted) := StoreRows.CreateRefund(db, bill.order);
      Run(db, InsertRefund(bill, accepted, answer), window, QUIET)
        == (after, if inserted then StoreAnswer(bill, |db.refunds|, accepted, answer) else Idle)
    ensures var (after, stored) := StoreRows.SetRefundStatus(db, row, answer);
      Run(db, StoreAnswer(bill, row, accepted, answer), window, QUIET)
        == (after, if stored && answer == Succeeded then PostRefund(bill, row, accepted) else Idle)
    ensures Run(db, PostRefund(bill, row, accepted), window, QUIET)
      == (StoreRows.Post(db, Refunded(bill, accepted)).0, Idle)
  {
    WhoRuns(db, InsertRefund(bill, accepted, answer), window, QUIET);
    WhoRuns(db, StoreAnswer(bill, row, accepted, answer), window, QUIET);
    WhoRuns(db, PostRefund(bill, row, accepted), window, QUIET);
    hide Run, RunPayment, RunRequest, StoreRows.CreateRefund, StoreRows.SetRefundStatus, StoreRows.Post;
  }

  method RecordRefund(st: Tables, bill: Bill, accepted: bool, answer: PaymentStatus, ghost start: Db, ghost pc: Pc,
    ghost window: nat, ghost world: World, ghost before: nat)
    returns (ok: bool, ghost steps: nat)
    requires Usable(st) && Ran(start, pc, window, world, before, st.Rows(), InsertRefund(bill, accepted, answer))
    modifies st`refunds, st`entries, st`events
    ensures Usable(st) && Ran(start, pc, window, world, steps, st.Rows(), Idle)
    ensures ok <==> Live(old(st.refunds), bill.order) == 0 && answer in {Pending, Succeeded, Failed}
    ensures st.refunds == if Live(old(st.refunds), bill.order) == 0
      then old(st.refunds) + [RefundRow(bill.order, RefundRecorded(answer))] else old(st.refunds)
    ensures st.events == if ok && answer == Succeeded && Billable(bill)
      then old(st.events) + [Refunded(bill, accepted)] else old(st.events)
  {
    hide Run, Ran, RunFor, Journal, AllPostable, StoreRows.SetRefundStatus, StoreRows.Post, Live;
    ghost var first := st.Rows();
    var row := |st.refunds|;
    RanMore(start, pc, window, world, before, st.Rows(), InsertRefund(bill, accepted, answer));
    RefundWrites(st.Rows(), bill, row, accepted, answer, window);
    steps := before + 1;
    var inserted := st.CreateRefund(bill.order);
    if !inserted {
      return false, steps;
    }
    RanMore(start, pc, window, world, steps, st.Rows(), StoreAnswer(bill, row, accepted, answer));
    RefundWrites(st.Rows(), bill, row, accepted, answer, window);
    steps := steps + 1;
    StoringSays(first, bill.order, answer);
    ok := st.SetRefundStatus(row, answer);
    PostingSays(st.Rows(), bill, accepted);
    if ok && answer == Succeeded {
      RanMore(start, pc, window, world, steps, st.Rows(), PostRefund(bill, row, accepted));
      RefundWrites(st.Rows(), bill, row, accepted, answer, window);
      steps := steps + 1;
      var posted := PostRefunded(st, bill, accepted);
    }
  }

  lemma StoringSays(db: Db, o: int64, answer: PaymentStatus)
    ensures var row := RefundRow(o, RefundPending);
      var (after, stored) := StoreRows.SetRefundStatus(db.(refunds := db.refunds + [row]), |db.refunds|, answer);
      (stored <==> answer in {Pending, Succeeded, Failed}) && after.ledger == db.ledger
      && after.refunds == db.refunds + [RefundRow(o, RefundRecorded(answer))]
  {
  }

  lemma PostingSays(db: Db, bill: Bill, accepted: bool)
    ensures var after := StoreRows.Post(db, Refunded(bill, accepted)).0;
      after.refunds == db.refunds
      && after.ledger == if Billable(bill) then db.ledger + [Refunded(bill, accepted)] else db.ledger
  {
  }

  /** The builder accepts a refund exactly when the event can be posted, and builds its entries. */
  lemma RefundedEntries(bill: Bill, accepted: bool)
    ensures var payable := Wrap(bill.total - bill.fee);
      && (bill.total > 0 && bill.fee >= 0 && payable >= 0 && bill.fee + payable == bill.total <==>
        Postable(Refunded(bill, accepted)))
      && (Postable(Refunded(bill, accepted)) ==>
            Bookkeeping.Entries(Refunded(bill, accepted))
              == RefundEntries(bill.order, bill.seller, bill.total, bill.fee, payable, accepted, Lower(bill.currency)))
  {
    var turns := WrapExplicit(bill.total - bill.fee);
    hide RefundEntries;
  }
}
