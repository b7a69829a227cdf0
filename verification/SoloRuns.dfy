/** What an actor does when nothing else interleaves, and why that is one of the system's runs. */
module SoloRuns {
  import opened Int64
  import opened Ledger
  import opened Orders
  import opened Payments
  import opened StoreRows
  import opened Actors

  /** For steps that hear nothing from outside. */
  const QUIET := Input(true, Payment("", "", Pending, ""), [], [])

  /** All that the outside world will answer: the checkout or refund call, the stale listing, the provider's answers in
      listing order, the accepted rows. */
  datatype World = World(call: Input, stale: seq<nat>, answers: seq<Input>, listing: seq<int64>)

  /** What a step hears from it; every other store call succeeds. */
  function Hear(world: World, pc: Pc): Input
  {
    match pc
    case CallProvider(_, _) => world.call
    case CreateSession(_, _, _) => world.call
    case ListStale => QUIET.(stale := world.stale)
    case Sweep(stale) => if 0 < |stale| <= |world.answers| then world.answers[|world.answers| - |stale|] else QUIET
    case AcceptOverdue(_) => QUIET.(listing := world.listing)
    case _ => QUIET
  }

  /** An actor's next n steps when nothing else happens. */
  function RunFor(db: Db, pc: Pc, window: nat, world: World, n: nat): (Db, Pc)
  {
    if n == 0 then (db, pc)
    else
      var (db', pc') := RunFor(db, pc, window, world, n - 1);
      Run(db', pc', window, Hear(world, pc'))
  }

  /** Alone, the actor gets from one store and program point to another. */
  ghost predicate Ran(db: Db, pc: Pc, window: nat, world: World, n: nat, db': Db, pc': Pc)
  {
    RunFor(db, pc, window, world, n) == (db', pc')
  }

  lemma RanNothing(db: Db, pc: Pc, window: nat, world: World)
    ensures Ran(db, pc, window, world, 0, db, pc)
  {
  }

  lemma RanMore(db: Db, pc: Pc, window: nat, world: World, n: nat, db': Db, pc': Pc)
    requires Ran(db, pc, window, world, n, db', pc')
    ensures Ran(db, pc, window, world, n + 1, Run(db', pc', window, Hear(world, pc')).0,
      Run(db', pc', window, Hear(world, pc')).1)
  {
    hide Run, Hear;
  }

  lemma {:induction false} RanThen(db: Db, pc: Pc, window: nat, world: World, n: nat, db': Db, pc': Pc, more: nat,
    db'': Db, pc'': Pc)
    requires Ran(db, pc, window, world, n, db', pc') && Ran(db', pc', window, world, more, db'', pc'')
    ensures Ran(db, pc, window, world, n + more, db'', pc'')
    decreases more
  {
    hide Run, Hear;
    if more > 0 {
      var (d, p) := RunFor(db', pc', window, world, more - 1);
      RanThen(db, pc, window, world, n, db', pc', more - 1, d, p);
    }
  }

  /** An idle actor stays idle, so where a solo run ends does not depend on how long it is watched. */
  lemma EndIsUnique(db: Db, pc: Pc, window: nat, world: World, n: nat, db': Db, m: nat, db'': Db)
    requires Ran(db, pc, window, world, n, db', Idle) && Ran(db, pc, window, world, m, db'', Idle)
    ensures db' == db''
  {
    hide *;
    if n < m {
      IdleStays(db, pc, window, world, n, db', m - n);
      SameEnd(db, pc, window, world, m, db', db'');
    } else {
      IdleStays(db, pc, window, world, m, db'', n - m);
      SameEnd(db, pc, window, world, n, db', db'');
    }
  }

  lemma SameEnd(db: Db, pc: Pc, window: nat, world: World, n: nat, db': Db, db'': Db)
    requires Ran(db, pc, window, world, n, db', Idle) && Ran(db, pc, window, world, n, db'', Idle)
    ensures db' == db''
  {
    hide RunFor;
  }

  lemma {:induction false} IdleStays(db: Db, pc: Pc, window: nat, world: World, n: nat, db': Db, more: nat)
    requires Ran(db, pc, window, world, n, db', Idle)
    ensures Ran(db, pc, window, world, n + more, db', Idle)
    decreases more
  {
    hide *;
    if more > 0 {
      IdleStays(db, pc, window, world, n, db', more - 1);
      RanMore(db, pc, window, world, n + more - 1, db', Idle);
      IdleRuns(db', window, world);
    }
  }

  lemma IdleRuns(db: Db, window: nat, world: World)
    ensures Run(db, Idle, window, Hear(world, Idle)) == (db, Idle)
  {
  }

  /** Wherever an actor has got to, its going on alone is one of the continuations of that state, and no other actor is
      disturbed. */
  lemma {:induction false} ActorGoesOn(s: State, a: nat, world: World, n: nat) returns (acts: seq<Action>)
    requires a in s.actors
    ensures |acts| == n && forall k :: 0 <= k < n ==> acts[k].Act? && acts[k].actor == a
    ensures var (db, pc) := RunFor(s.db, s.actors[a], s.window, world, n);
      Continue(s, acts) == s.(db := db, actors := s.actors[a := pc])
    decreases n
  {
    hide Run, Continue, RunFor, Hear;
    if n == 0 {
      ContinueNothing(s);
      acts := [];
      RanNothing(s.db, s.actors[a], s.window, world);
      assert s.actors[a := s.actors[a]] == s.actors;
    } else {
      var earlier := ActorGoesOn(s, a, world, n - 1);
      var (db, p) := RunFor(s.db, s.actors[a], s.window, world, n - 1);
      acts := earlier + [Act(a, Hear(world, p))];
      ContinueStep(s, earlier, Act(a, Hear(world, p)));
      RanMore(s.db, s.actors[a], s.window, world, n - 1, db, p);
    }
  }

  /** A solo run is one of the continuations of any state: the actor begins and then only it acts, and no other actor
      is disturbed. */
  lemma HandlersAreRuns(s: State, a: nat, pc: Pc, world: World, n: nat) returns (acts: seq<Action>)
    requires PcOf(s.actors, a).Idle? && EntryPoint(pc)
    ensures |acts| == n && forall k :: 0 <= k < n ==> acts[k].Act? && acts[k].actor == a
    ensures var (db, pc') := RunFor(s.db, pc, s.window, world, n);
      Continue(s, [Begin(a, pc)] + acts) == s.(db := db, actors := s.actors[a := pc'])
  {
    hide Run, Continue, RunFor, Hear;
    var begun := s.(actors := s.actors[a := pc]);
    acts := ActorGoesOn(begun, a, world, n);
    OneMore(s, Begin(a, pc));
    ContinueTwice(s, [Begin(a, pc)], acts);
    var (db, pc') := RunFor(s.db, pc, s.window, world, n);
    assert begun.actors[a := pc'] == s.actors[a := pc'];
  }

  lemma OneMore(s: State, action: Action)
    ensures Continue(s, [action]) == Step(s, action)
  {
    ContinueStep(s, [], action);
    ContinueNothing(s);
    assert [] + [action] == [action];
    hide Continue, Step;
  }

  lemma ContinueNothing(s: State)
    ensures Continue(s, []) == s
  {
  }

  // ----- one capture -----

  lemma CaptureLoads(db: Db, o: int64, cont: Cont, window: nat, world: World)
    ensures Ran(db, LoadForCapture(o, cont), window, world, 1, db,
      if o !in db.orders then GiveUp(cont) else if db.orders[o].status != PendingPayment then Done(cont)
      else ClaimPaid(db.orders[o].bill, cont))
  {
    hide Ran;
    RanNothing(db, LoadForCapture(o, cont), window, world);
    RanMore(db, LoadForCapture(o, cont), window, world, 0, db, LoadForCapture(o, cont));
  }

  /** The three writing calls of a capture. */
  lemma CaptureRuns(db: Db, bill: Bill, cont: Cont, window: nat)
    ensures var (after, won) := TransitionOrder(db, bill.order, PendingPayment, Paid);
      Run(db, ClaimPaid(bill, cont), window, QUIET) == (after, if won then PostCapture(bill, cont) else Done(cont))
    ensures Run(db, PostCapture(bill, cont), window, QUIET)
         == if Billable(bill) then (Post(db, Captured(bill)).0, Advance(bill.order, cont)) else (db, GiveUp(cont))
    ensures var (after, won) := TransitionOrder(db, bill.order, Paid, InProgress);
      Run(db, Advance(bill.order, cont), window, QUIET) == (after, if won then Done(cont) else GiveUp(cont))
  {
    hide TransitionOrder;
  }

  /** The order row after a capture that nothing disturbs. */
  function BegunRow(row: Order, now: int): Order
  {
    Moved(Moved(row, Paid, now), InProgress, now)
  }

  /** From the claim on, with amounts the builder takes, a capture that nothing disturbs posts once and starts the
      order. */
  lemma ClaimAlone(db: Db, o: int64, cont: Cont, window: nat, world: World)
    requires o in db.orders && db.orders[o].bill.order == o && db.orders[o].status == PendingPayment
      && Billable(db.orders[o].bill)
    ensures Ran(db, ClaimPaid(db.orders[o].bill, cont), window, world, 3,
      db.(orders := db.orders[o := BegunRow(db.orders[o], db.now)],
        ledger := db.ledger + [Captured(db.orders[o].bill)]), Done(cont))
  {
    var bill, row := db.orders[o].bill, db.orders[o];
    var paid := db.(orders := db.orders[o := Moved(row, Paid, db.now)]);
    var posted := paid.(ledger := db.ledger + [Captured(bill)]);
    CaptureRuns(db, bill, cont, window);
    CaptureRuns(paid, bill, cont, window);
    CaptureRuns(posted, bill, cont, window);
    assert paid.orders[o := Moved(paid.orders[o], InProgress, db.now)] == db.orders[o := BegunRow(row, db.now)];
    hide Run, Ran, RunFor;
    RanNothing(db, ClaimPaid(bill, cont), window, world);
    RanMore(db, ClaimPaid(bill, cont), window, world, 0, db, ClaimPaid(bill, cont));
    RanMore(db, ClaimPaid(bill, cont), window, world, 1, paid, PostCapture(bill, cont));
    RanMore(db, ClaimPaid(bill, cont), window, world, 2, posted, Advance(o, cont));
  }

  /** Alone, a capture of a pending order with a bill the builder takes posts once and starts the order. */
  lemma CaptureAlone(db: Db, o: int64, cont: Cont, window: nat, world: World)
    requires o in db.orders && db.orders[o].bill.order == o && db.orders[o].status == PendingPayment
      && Billable(db.orders[o].bill)
    ensures Ran(db, LoadForCapture(o, cont), window, world, 4,
      db.(orders := db.orders[o := BegunRow(db.orders[o], db.now)],
        ledger := db.ledger + [Captured(db.orders[o].bill)]), Done(cont))
  {
    var bill := db.orders[o].bill;
    hide *;
    CaptureLoads(db, o, cont, window, world);
    ClaimAlone(db, o, cont, window, world);
    RanThen(db, LoadForCapture(o, cont), window, world, 1, db, ClaimPaid(bill, cont), 3,
      db.(orders := db.orders[o := BegunRow(db.orders[o], db.now)], ledger := db.ledger + [Captured(bill)]),
        Done(cont));
  }

  // ----- one failure -----

  /** Alone, a payment found failed or expired takes its pending order to payment_failed in three calls: the intent
      moves, the order is read, the order moves. */
  lemma FailureAlone(db: Db, i: nat, o: int64, report: PaymentStatus, cont: Cont, window: nat, world: World)
    requires i < |db.intents| && db.intents[i].status == Pending && (report == Failed || report == Expired)
    requires o in db.orders && db.orders[o].status == PendingPayment
    ensures Ran(db, MoveIntent(i, o, Pending, report, cont), window, world, 3,
      db.(intents := db.intents[i := Settled(db.intents[i], report, db.now)],
        orders := db.orders[o := Moved(db.orders[o], PaymentFailed, db.now)]), Done(cont))
  {
    var pc := MoveIntent(i, o, Pending, report, cont);
    var moved := db.(intents := db.intents[i := Settled(db.intents[i], report, db.now)]);
    FailureCalls(db, i, o, report, cont, window);
    FailureCalls(moved, i, o, report, cont, window);
    hide Run, Ran, RunFor, Settled, Moved;
    RanNothing(db, pc, window, world);
    RanMore(db, pc, window, world, 0, db, pc);
    RanMore(db, pc, window, world, 1, moved, LoadForFailure(o, cont));
    RanMore(db, pc, window, world, 2, moved, MoveToFailed(o, cont));
  }

  lemma FailureCalls(db: Db, i: nat, o: int64, report: PaymentStatus, cont: Cont, window: nat)
    requires o in db.orders && db.orders[o].status == PendingPayment && (report == Failed || report == Expired)
    ensures i < |db.intents| && db.intents[i].status == Pending ==>
      Run(db, MoveIntent(i, o, Pending, report, cont), window, QUIET)
        == (db.(intents := db.intents[i := Settled(db.intents[i], report, db.now)]), LoadForFailure(o, cont))
    ensures Run(db, LoadForFailure(o, cont), window, QUIET) == (db, MoveToFailed(o, cont))
    ensures Run(db, MoveToFailed(o, cont), window, QUIET)
      == (db.(orders := db.orders[o := Moved(db.orders[o], PaymentFailed, db.now)]), Done(cont))
  {
    hide Settled, Moved;
  }
}
