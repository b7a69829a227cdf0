/** The invariant of the whole system, kept by every step, and what it says about every run. */
module Runs {
  import opened Int64
  import opened Ledger
  import opened Bookkeeping
  import opened Orders
  import opened StoreRows
  import opened Actors
  import opened Protocol
  import opened Duties

  // ----- how many actors owe a duty -----

  function Holders(actors: map<nat, Pc>, duty: Duty, o: int64): (holders: set<nat>)
    ensures forall a :: a in holders <==> a in actors && Owes(actors[a], duty, o)
  {
    set a | a in actors && Owes(actors[a], duty, o)
  }

  function Owed(actors: map<nat, Pc>, duty: Duty, o: int64): nat
  {
    |Holders(actors, duty, o)|
  }

  /** The same without one actor. */
  function OwedByOthers(actors: map<nat, Pc>, a: nat, duty: Duty, o: int64): nat
  {
    |Holders(actors, duty, o) - {a}|
  }

  lemma OwedSplits(actors: map<nat, Pc>, a: nat, pc: Pc, duty: Duty, o: int64)
    ensures Owed(actors, duty, o) == OwedByOthers(actors, a, duty, o) + One(Owes(PcOf(actors, a), duty, o))
    ensures Owed(actors[a := pc], duty, o) == OwedByOthers(actors, a, duty, o) + One(Owes(pc, duty, o))
  {
    var before, after := Holders(actors, duty, o), Holders(actors[a := pc], duty, o);
    hide Holders, Owes;
    assert after - {a} == before - {a};
    IdleOwesNothing(duty, o);
    if a in before { assert before == (before - {a}) + {a}; } else { assert before == before - {a}; }
    if a in after { assert after == (after - {a}) + {a}; } else { assert after == after - {a}; }
  }

  lemma IdleOwesNothing(duty: Duty, o: int64)
    ensures !Owes(Idle, duty, o)
    ensures forall pc :: Beginning(pc) ==> !Owes(pc, duty, o)
  {
  }

  lemma TwoHolders(actors: map<nat, Pc>, a: nat, b: nat, duty: Duty, o: int64)
    requires a != b && a in actors && b in actors && Owes(actors[a], duty, o) && Owes(actors[b], duty, o)
    ensures Owed(actors, duty, o) >= 2
  {
    var holders := Holders(actors, duty, o);
    assert holders == (holders - {a, b}) + {a, b};
  }

  lemma {:induction false} NobodyOwes(actors: map<nat, Pc>, duty: Duty, o: int64)
    requires forall a :: a in actors ==> !Owes(actors[a], duty, o)
    ensures Owed(actors, duty, o) == 0
  {
    assert Holders(actors, duty, o) == {};
  }

  // ----- the invariant -----

  ghost predicate OrderTally(db: Db, actors: map<nat, Pc>, o: int64)
    requires o in db.orders
  {
    && CaptureOk(db.orders[o].status, Count(db.ledger, o, Capture), Owed(actors, ToPostCapture, o),
      Owed(actors, ToAdvance, o))
    && Count(db.ledger, o, Tag.Release) + Owed(actors, ToRelease, o) <= TimesEntered(db.orders[o].visits, Accepted)
    && TimesEntered(db.orders[o].visits, RevisionRequested) + Owed(actors, ToRevise, o) <= db.orders[o].revisionsUsed
  }

  ghost predicate RefundTally(db: Db, actors: map<nat, Pc>, o: int64)
  {
    RefundOk(Count(db.ledger, o, Refund), Owed(actors, ToRefund, o), Live(db.refunds, o))
  }

  ghost predicate Remembered(s: State)
  {
    forall a :: a in s.actors ==> PcOk(s.db, s.window, s.actors[a])
  }

  ghost predicate Inv(s: State)
  {
    && DbOk(s.db)
    && Remembered(s)
    && (forall o :: o in s.db.orders ==> OrderTally(s.db, s.actors, o))
    && (forall o: int64 :: RefundTally(s.db, s.actors, o))
  }

  lemma KeyedById(db: Db)
    requires DbOk(db)
    ensures Keyed(db)
  {
    forall p | p in db.orders ensures db.orders[p].bill.order == p { assert OrderOk(db, p); }
  }

  lemma PcOkOf(s: State, a: nat)
    requires Remembered(s)
    ensures PcOk(s.db, s.window, PcOf(s.actors, a))
  {
  }

  // ----- an actor's step -----

  lemma TallyStep(s: State, a: nat, input: Input, o: int64)
    requires DbOk(s.db) && Remembered(s) && o in s.db.orders && OrderTally(s.db, s.actors, o)
    ensures var (db', pc') := Run(s.db, PcOf(s.actors, a), s.window, input);
      o in db'.orders && OrderTally(db', s.actors[a := pc'], o)
  {
    hide *;
    var pc := PcOf(s.actors, a);
    var (db', pc') := Run(s.db, pc, s.window, input);
    PcOkOf(s, a);
    KeyedById(s.db);
    OwedSplits(s.actors, a, pc', ToPostCapture, o);
    OwedSplits(s.actors, a, pc', ToAdvance, o);
    OwedSplits(s.actors, a, pc', ToRelease, o);
    OwedSplits(s.actors, a, pc', ToRevise, o);
    TallyParts(s.db, s.actors, o);
    CaptureStep(s.db, pc, s.window, input, o, OwedByOthers(s.actors, a, ToPostCapture, o),
      OwedByOthers(s.actors, a, ToAdvance, o));
    ReleaseStep(s.db, pc, s.window, input, o, OwedByOthers(s.actors, a, ToRelease, o));
    ReviseStep(s.db, pc, s.window, input, o, OwedByOthers(s.actors, a, ToRevise, o));
    TallyWhole(db', s.actors[a := pc'], o);
  }

  lemma TallyParts(db: Db, actors: map<nat, Pc>, o: int64)
    requires o in db.orders && OrderTally(db, actors, o)
    ensures CaptureOk(db.orders[o].status, Count(db.ledger, o, Capture), Owed(actors, ToPostCapture, o),
      Owed(actors, ToAdvance, o))
    ensures Count(db.ledger, o, Tag.Release) + Owed(actors, ToRelease, o) <= TimesEntered(db.orders[o].visits, Accepted)
    ensures TimesEntered(db.orders[o].visits, RevisionRequested) + Owed(actors, ToRevise, o)
      <= db.orders[o].revisionsUsed
  {
  }

  lemma TallyWhole(db: Db, actors: map<nat, Pc>, o: int64)
    requires o in db.orders
    requires CaptureOk(db.orders[o].status, Count(db.ledger, o, Capture), Owed(actors, ToPostCapture, o),
      Owed(actors, ToAdvance, o))
    requires Count(db.ledger, o, Tag.Release) + Owed(actors, ToRelease, o)
      <= TimesEntered(db.orders[o].visits, Accepted)
    requires TimesEntered(db.orders[o].visits, RevisionRequested) + Owed(actors, ToRevise, o)
      <= db.orders[o].revisionsUsed
    ensures OrderTally(db, actors, o)
  {
  }

  lemma RefundTallyStep(s: State, a: nat, input: Input, o: int64)
    requires Remembered(s) && RefundTally(s.db, s.actors, o)
    ensures var (db', pc') := Run(s.db, PcOf(s.actors, a), s.window, input); RefundTally(db', s.actors[a := pc'], o)
  {
    var pc := PcOf(s.actors, a);
    var (db', pc') := Run(s.db, pc, s.window, input);
    PcOkOf(s, a);
    OwedSplits(s.actors, a, pc', ToRefund, o);
    hide Run, PcOk, Owed, OwedByOthers, Owes, Live, Count, RefundOk, Remembered;
    RefundStepKeeps(s.db, pc, s.window, input, o, OwedByOthers(s.actors, a, ToRefund, o));
  }

  /** No two actors work on the same refund row, so one actor's answer never overwrites another's row. */
  lemma RowsApart(s: State, a: nat, b: nat, input: Input, row: nat)
    requires Inv(s) && a != b && b in s.actors && WorksOn(s.actors[b], row) && row < |s.db.refunds|
    ensures var (db', pc') := Run(s.db, PcOf(s.actors, a), s.window, input);
      row < |db'.refunds| && db'.refunds[row] == s.db.refunds[row]
  {
    hide *;
    var pc, other := PcOf(s.actors, a), s.actors[b];
    InvParts(s);
    PcOkOf(s, a);
    PcOkOf(s, b);
    NowOf(s, b);
    if WorksOn(pc, row) {
      SameRowSameOrder(s.db, s.window, pc, other, row);
      NowOf(s, a);
      OneRefundHolder(s.db, s.actors, other.bill.order);
      TwoHolders(s.actors, a, b, ToRefund, other.bill.order);
    } else {
      OtherRowsKept(s.db, pc, s.window, input, row);
    }
  }

  lemma NowOf(s: State, a: nat)
    ensures PcOf(s.actors, a) == if a in s.actors then s.actors[a] else Idle
  {
  }

  lemma OneRefundHolder(db: Db, actors: map<nat, Pc>, o: int64)
    requires RefundTally(db, actors, o)
    ensures Owed(actors, ToRefund, o) <= 1
  {
    hide Owed;
  }

  lemma SameRowSameOrder(db: Db, window: nat, pc: Pc, other: Pc, row: nat)
    requires PcOk(db, window, pc) && PcOk(db, window, other) && WorksOn(pc, row) && WorksOn(other, row)
    ensures !pc.Idle? && (other.StoreAnswer? || other.PostRefund?)
    ensures Owes(pc, ToRefund, other.bill.order) && Owes(other, ToRefund, other.bill.order)
  {
  }

  lemma OtherRowsKept(db: Db, pc: Pc, window: nat, input: Input, row: nat)
    requires row < |db.refunds| && !WorksOn(pc, row)
    ensures var (db', pc') := Run(db, pc, window, input); row < |db'.refunds| && db'.refunds[row] == db.refunds[row]
  {
    WhoRuns(db, pc, window, input);
    RunFrames(db, pc, window, input);
    hide Run, RunPayment, RunRequest, Live, Postable, LatestIntent, OnError;
  }

  lemma ActKeeps(s: State, a: nat, input: Input)
    requires Inv(s)
    ensures Inv(Step(s, Act(a, input)))
  {
    var pc := PcOf(s.actors, a);
    var (db', pc') := Run(s.db, pc, s.window, input);
    var s' := s.(db := db', actors := s.actors[a := pc']);
    assert Step(s, Act(a, input)) == s';
    PcOkOf(s, a);
    hide DbOk, PcOk, OrderTally, RefundTally, Run, PcOf, Step;
    RunKeepsRows(s.db, pc, s.window, input);
    forall b | b in s'.actors ensures PcOk(db', s.window, s'.actors[b]) {
      if b != a {
        forall row: nat | WorksOn(s.actors[b], row) && row < |s.db.refunds|
          ensures row < |db'.refunds| && db'.refunds[row] == s.db.refunds[row]
        {
          RowsApart(s, a, b, input, row);
        }
        PcOkStable(s.db, db', s.window, s.actors[b]);
      }
    }
    forall o | o in db'.orders
      ensures OrderTally(db', s'.actors, o)
    {
      OrdersComeFromPlacing(s.db, pc, s.window, input, o);
      TallyStep(s, a, input, o);
    }
    forall o: int64 ensures RefundTally(db', s'.actors, o) { RefundTallyStep(s, a, input, o); }
  }

  /** Actors never add orders. */
  lemma OrdersComeFromPlacing(db: Db, pc: Pc, window: nat, input: Input, o: int64)
    requires o in Run(db, pc, window, input).0.orders
    ensures o in db.orders
  {
    RunFrames(db, pc, window, input);
    hide Run;
  }

  // ----- the other actions -----

  lemma ReplaceKeeps(s: State, a: nat, pc: Pc)
    requires Inv(s) && Beginning(pc)
    ensures Inv(s.(actors := s.actors[a := pc]))
  {
    var actors := s.actors[a := pc];
    hide DbOk, PcOf, Beginning, CaptureOk;
    forall duty: Duty, o: int64 ensures Owed(actors, duty, o) <= Owed(s.actors, duty, o) {
      IdleOwesNothing(duty, o);
      OwedSplits(s.actors, a, pc, duty, o);
    }
    hide Owed, Count, TimesEntered, Live;
    forall o | o in s.db.orders ensures OrderTally(s.db, actors, o) {
      assert OrderTally(s.db, s.actors, o);
      LessIsFine(s.db.orders[o].status, Count(s.db.ledger, o, Capture), Owed(s.actors, ToPostCapture, o),
        Owed(s.actors, ToAdvance, o),
        Owed(actors, ToPostCapture, o), Owed(actors, ToAdvance, o));
    }
    forall o: int64 ensures RefundTally(s.db, actors, o) { assert RefundTally(s.db, s.actors, o); }
    assert PcOk(s.db, s.window, pc) by { EntryPointsOk(s.db, s.window, pc); }
    hide PcOk;
  }

  lemma EntryPointsOk(db: Db, window: nat, pc: Pc)
    requires Beginning(pc)
    ensures PcOk(db, window, pc)
  {
  }

  lemma LessIsFine(s: Status, captures: nat, posting: nat, advancing: nat, posting': nat, advancing': nat)
    requires CaptureOk(s, captures, posting, advancing) && posting' <= posting && advancing' <= advancing
    ensures CaptureOk(s, captures, posting', advancing')
  {
  }

  /** Changes to intents and webhook events, and the clock, touch nothing the invariant counts. */
  lemma BackgroundKeeps(s: State, db': Db)
    requires Inv(s) && db'.orders == s.db.orders && db'.now >= s.db.now
    requires db'.cancellations == s.db.cancellations && db'.disputes == s.db.disputes && db'.ledger == s.db.ledger
      && db'.refunds == s.db.refunds
    ensures Inv(s.(db := db'))
  {
    LaterIsFine(s.db, db');
    RememberedStays(s, db');
    hide DbOk, PcOk, Remembered, Grows, Count, TimesEntered, Live, Owed, CaptureOk;
    forall o | o in db'.orders ensures OrderTally(db', s.actors, o) { assert OrderTally(s.db, s.actors, o); }
    forall o: int64 ensures RefundTally(db', s.actors, o) { assert RefundTally(s.db, s.actors, o); }
  }

  lemma LaterIsFine(db: Db, db': Db)
    requires DbOk(db) && db'.orders == db.orders && db'.now >= db.now
    requires db'.cancellations == db.cancellations && db'.disputes == db.disputes && db'.ledger == db.ledger
      && db'.refunds == db.refunds
    ensures DbOk(db') && Grows(db, db')
  {
    forall p | p in db'.orders ensures OrderOk(db', p) {
      assert OrderOk(db, p);
      hide LastEntry, Chained;
    }
    hide Consistent, Started, Postable, OrderOk;
  }

  lemma RememberedStays(s: State, db': Db)
    requires Remembered(s) && Grows(s.db, db') && db'.refunds == s.db.refunds
    ensures Remembered(s.(db := db'))
  {
    hide PcOk, Grows;
    forall a | a in s.actors ensures PcOk(db', s.window, s.actors[a]) { PcOkStable(s.db, db', s.window, s.actors[a]); }
  }

  lemma PlaceKeeps(s: State, bill: Bill, allowed: nat)
    requires Inv(s) && bill.order !in s.db.orders
    ensures Inv(s.(db := s.db.(orders := s.db.orders[bill.order := Placed(bill, allowed, s.db.now)])))
  {
    var o := bill.order;
    var db' := s.db.(orders := s.db.orders[o := Placed(bill, allowed, s.db.now)]);
    NewOrderOk(s.db, bill, allowed);
    RememberedStays(s, db');
    NothingYet(s, o);
    hide *;
    InvParts(s);
    forall p | p in db'.orders ensures OrderTally(db', s.actors, p) {
      if p == o {
        NewOrderTally(db', s.actors, o, bill, allowed, s.db.now);
      } else {
        OrderTallyStays(s.db, db', s.actors, p);
      }
    }
    forall p: int64 ensures RefundTally(db', s.actors, p) { RefundTallyStays(s.db, db', s.actors, p); }
    InvWhole(s.(db := db'));
  }

  lemma InvParts(s: State)
    requires Inv(s)
    ensures DbOk(s.db) && Remembered(s)
    ensures forall o :: o in s.db.orders ==> OrderTally(s.db, s.actors, o)
    ensures forall o: int64 :: RefundTally(s.db, s.actors, o)
  {
  }

  lemma InvWhole(s: State)
    requires DbOk(s.db) && Remembered(s)
    requires forall o :: o in s.db.orders ==> OrderTally(s.db, s.actors, o)
    requires forall o: int64 :: RefundTally(s.db, s.actors, o)
    ensures Inv(s)
  {
  }

  lemma OrderTallyStays(db: Db, db': Db, actors: map<nat, Pc>, o: int64)
    requires o in db.orders && o in db'.orders && db'.orders[o] == db.orders[o] && db'.ledger == db.ledger
      && OrderTally(db, actors, o)
    ensures OrderTally(db', actors, o)
  {
    hide Owed, Count, TimesEntered, CaptureOk;
  }

  lemma RefundTallyStays(db: Db, db': Db, actors: map<nat, Pc>, o: int64)
    requires db'.refunds == db.refunds && db'.ledger == db.ledger && RefundTally(db, actors, o)
    ensures RefundTally(db', actors, o)
  {
    hide Owed, Count, Live;
  }

  lemma NewOrderOk(db: Db, bill: Bill, allowed: nat)
    requires DbOk(db) && bill.order !in db.orders
    ensures var db' := db.(orders := db.orders[bill.order := Placed(bill, allowed, db.now)]);
      DbOk(db') && Grows(db, db')
  {
    var db' := db.(orders := db.orders[bill.order := Placed(bill, allowed, db.now)]);
    assert OrderOk(db', bill.order) by { FreshConsistent(bill, allowed, db.now); hide Consistent; }
    hide Consistent, Started, Postable, Placed;
    forall p | p in db'.orders ensures OrderOk(db', p) { if p != bill.order { SameOrder(db, db', p); } }
    hide OrderOk;
    OthersKept(db, db');
  }

  lemma FreshConsistent(bill: Bill, allowed: nat, now: int)
    ensures Consistent(Placed(bill, allowed, now), now)
  {
  }

  lemma NewOrderTally(db: Db, actors: map<nat, Pc>, o: int64, bill: Bill, allowed: nat, now: int)
    requires o in db.orders && db.orders[o] == Placed(bill, allowed, now)
    requires Count(db.ledger, o, Capture) == Count(db.ledger, o, Tag.Release) == 0
    requires forall duty :: Owed(actors, duty, o) == 0
    ensures OrderTally(db, actors, o)
  {
    hide Owed, Count, TimesEntered;
    assert Owed(actors, ToPostCapture, o) == Owed(actors, ToAdvance, o) == Owed(actors, ToRelease, o)
      == Owed(actors, ToRevise, o) == 0;
    var visits := db.orders[o].visits;
    assert TimesEntered(visits, RevisionRequested) == 0 by {
      assert visits == [] + [Visit(PendingPayment, now)];
      VisitStep([], Visit(PendingPayment, now), RevisionRequested);
      NeverEntered(RevisionRequested);
    }
  }

  lemma NeverEntered(s: Status)
    ensures TimesEntered([], s) == 0
  {
  }

  /** Nothing has been posted for an order that is not there, and nobody owes it anything. */
  lemma NothingYet(s: State, o: int64)
    requires Inv(s) && o !in s.db.orders
    ensures forall tag :: Count(s.db.ledger, o, tag) == 0
    ensures forall duty :: Owed(s.actors, duty, o) == 0
  {
    NobodyOwesYet(s, o);
    hide Owed, Inv;
    forall tag: Tag ensures Count(s.db.ledger, o, tag) == 0 { NothingPostedYet(s, o, tag); }
  }

  lemma NothingPostedYet(s: State, o: int64, tag: Tag)
    requires Inv(s) && o !in s.db.orders
    ensures Count(s.db.ledger, o, tag) == 0
  {
    forall e | e in s.db.ledger ensures e.bill.order != o { assert Known(s.db, e.bill); }
    hide Inv;
    NoEventsOf(s.db.ledger, o, tag);
  }

  lemma NobodyOwesYet(s: State, o: int64)
    requires Inv(s) && o !in s.db.orders
    ensures forall duty :: Owed(s.actors, duty, o) == 0
  {
    hide PcOk, Owes, DbOk, OrderTally, RefundTally;
    forall duty: Duty ensures Owed(s.actors, duty, o) == 0 {
      forall a | a in s.actors ensures !Owes(s.actors[a], duty, o) {
        PcOkOf(s, a);
        UnknownOwesNothing(s.db, s.window, s.actors[a], duty, o);
      }
      NobodyOwes(s.actors, duty, o);
    }
  }

  lemma {:induction false} NoEventsOf(events: seq<Event>, o: int64, tag: Tag)
    requires forall e :: e in events ==> e.bill.order != o
    ensures Count(events, o, tag) == 0
  {
    if events != [] { NoEventsOf(events[..|events| - 1], o, tag); }
  }

  lemma UnknownOwesNothing(db: Db, window: nat, pc: Pc, duty: Duty, o: int64)
    requires PcOk(db, window, pc) && o !in db.orders
    ensures !Owes(pc, duty, o)
  {
    hide CanTransition, Started;
    match pc
    case ReleaseNext(bills) => assert forall k :: 0 <= k < |bills| ==> bills[k] in bills;
    case PostRelease(bill, rest) =>
      assert forall k :: 0 <= k < |rest| ==> rest[k] in [bill] + rest; assert bill in [bill] + rest;
    case _ =>
  }

  // ----- every run -----

  lemma StepKeeps(s: State, action: Action)
    requires Inv(s)
    ensures Inv(Step(s, action))
  {
    hide Inv, PcOf, EntryPoint, Placed;
    match action
    case Act(a, input) => ActKeeps(s, a, input);
    case Begin(a, pc) => if PcOf(s.actors, a).Idle? && EntryPoint(pc) { ReplaceKeeps(s, a, pc); }
    case Crash(a) => ReplaceKeeps(s, a, Idle);
    case Tick(seconds) => BackgroundKeeps(s, s.db.(now := s.db.now + seconds));
    case PlaceOrder(a, bill, allowed, means, ready) =>
      if bill.order !in s.db.orders && PcOf(s.actors, a).Idle? {
        PlaceKeeps(s, bill, allowed);
        ReplaceKeeps(s.(db := s.db.(orders := s.db.orders[bill.order := Placed(bill, allowed, s.db.now)])), a,
          CheckoutFrom(bill.order, means, ready));
      }
    case ReceiveHook(key, payment) => BackgroundKeeps(s, InsertHook(s.db, key, payment).0);
  }

  lemma StartOk(now: int, window: nat, admits: set<string>)
    ensures Inv(Start(now, window, admits))
  {
    var s := Start(now, window, admits);
    assert DbOk(s.db) && Remembered(s);
    hide DbOk, Remembered, RefundTally;
    forall o: int64 ensures RefundTally(s.db, s.actors, o) { EmptyRefundTally(s.db, o); }
  }

  lemma EmptyRefundTally(db: Db, o: int64)
    requires db.ledger == [] && db.refunds == []
    ensures RefundTally(db, map[], o)
  {
    NobodyOwes(map[], ToRefund, o);
  }

  /** Whatever the interleaving, the crashes, the clock and the outside world do, the invariant holds. */
  lemma {:induction false} EveryRun(now: int, window: nat, admits: set<string>, run: seq<Action>)
    ensures Inv(After(now, window, admits, run))
  {
    if run == [] {
      StartOk(now, window, admits);
    } else {
      EveryRun(now, window, admits, run[..|run| - 1]);
      StepKeeps(After(now, window, admits, run[..|run| - 1]), run[|run| - 1]);
      hide Inv, Step;
    }
  }
}
