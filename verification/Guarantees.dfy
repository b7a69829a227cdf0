/** What holds in every reachable state, and across every step from one. */
module Guarantees {
  import opened Int64
  import opened Ledger
  import opened Bookkeeping
  import opened Orders
  import opened Payments
  import opened StoreRows
  import opened Actors
  import opened Protocol
  import opened Duties
  import opened Runs

  ghost predicate Reachable(s: State)
  {
    exists now, window, admits, run :: s == After(now, window, admits, run)
  }

  lemma ReachableInv(s: State)
    requires Reachable(s)
    ensures Inv(s)
  {
    hide Inv, After;
    var now, window, admits, run :| s == After(now, window, admits, run);
    EveryRun(now, window, admits, run);
  }

  lemma TallyOf(s: State, o: int64)
    requires Inv(s) && o in s.db.orders
    ensures OrderOk(s.db, o) && OrderTally(s.db, s.actors, o)
  {
  }

  // ----- captures, releases, refunds, revisions -----

  /** However deliveries repeat, arrive out of order or crash half way: no capture before payment, one from
      in_progress on. */
  lemma OneCapturePerOrder(s: State, o: int64)
    requires Reachable(s) && o in s.db.orders
    ensures s.db.orders[o].status in {PendingPayment, PaymentFailed} ==> Count(s.db.ledger, o, Capture) == 0
    ensures s.db.orders[o].status == Paid ==> Count(s.db.ledger, o, Capture) <= 1
    ensures Started(s.db.orders[o].status) ==> Count(s.db.ledger, o, Capture) == 1
  {
    ReachableInv(s);
    TallyOf(s, o);
    hide Inv, Reachable, OrderOk, Owed, Count, TimesEntered;
  }

  /** A buyer's acceptance racing the sweep releases at most once for every time the order becomes accepted. */
  lemma ReleasesFollowAcceptances(s: State, o: int64)
    requires Reachable(s) && o in s.db.orders
    ensures Count(s.db.ledger, o, Tag.Release) <= TimesEntered(s.db.orders[o].visits, Accepted)
  {
    ReachableInv(s);
    TallyOf(s, o);
    hide Inv, Reachable, OrderOk, Owed, Count, TimesEntered, CaptureOk;
  }

  /** Revisions entered never exceed those used, nor those the allowance. */
  lemma RevisionsWithinAllowance(s: State, o: int64)
    requires Reachable(s) && o in s.db.orders
    ensures TimesEntered(s.db.orders[o].visits, RevisionRequested) <= s.db.orders[o].revisionsUsed
      <= s.db.orders[o].revisionsAllowed
  {
    ReachableInv(s);
    TallyOf(s, o);
    hide Inv, Reachable, Owed, Count, TimesEntered, CaptureOk, Consistent;
  }

  /** Request rows and allowance agree: an order has as many rows as it has used revisions, and no other id has any. */
  predicate RevisionsMatch(db: Db)
  {
    && (forall o :: o in db.orders ==> multiset(db.revisions)[o] == db.orders[o].revisionsUsed)
    && (forall o :: o in db.revisions ==> o in db.orders)
  }

  /** No revision is used without its request row, nor recorded without being used, in any run. */
  lemma {:induction false} RevisionRowsMatch(now: int, window: nat, admits: set<string>, run: seq<Action>)
    ensures RevisionsMatch(After(now, window, admits, run).db)
  {
    if run != [] {
      var before, action := After(now, window, admits, run[..|run| - 1]), run[|run| - 1];
      RevisionRowsMatch(now, window, admits, run[..|run| - 1]);
      hide After, RevisionsMatch;
      RevisionsStep(before, action);
    }
  }

  lemma RevisionsStep(s: State, action: Action)
    requires RevisionsMatch(s.db)
    ensures RevisionsMatch(Step(s, action).db)
  {
    hide IdempotencyKey, RevisionsMatch;
    match action
    case Act(a, input) => ActKeepsRevisions(s.db, PcOf(s.actors, a), s.window, input);
    case PlaceOrder(a, bill, allowed, means, ready) => NewOrderKeepsRevisions(s.db, bill, allowed);
    case _ => SameRevisions(s.db, Step(s, action).db);
  }

  lemma SameRevisions(db: Db, db': Db)
    requires RevisionsMatch(db) && db'.revisions == db.revisions && db'.orders.Keys == db.orders.Keys
    requires forall o :: o in db.orders ==> db'.orders[o].revisionsUsed == db.orders[o].revisionsUsed
    ensures RevisionsMatch(db')
  {
  }

  lemma NewOrderKeepsRevisions(db: Db, bill: Bill, allowed: nat)
    requires RevisionsMatch(db)
    ensures bill.order !in db.orders ==>
      RevisionsMatch(db.(orders := db.orders[bill.order := Placed(bill, allowed, db.now)]))
  {
  }

  lemma ActKeepsRevisions(db: Db, pc: Pc, window: nat, input: Input)
    requires RevisionsMatch(db)
    ensures RevisionsMatch(Run(db, pc, window, input).0)
  {
    WhoRuns(db, pc, window, input);
    RunFrames(db, pc, window, input);
    hide Run;
    if pc.UseRevision? {
      RevisionIsRecorded(db, pc.order);
    } else {
      hide RunPayment, RunRequest, RunRefund, OnError, RevisionsMatch;
      SameRevisions(db, Run(db, pc, window, input).0);
    }
  }

  lemma RevisionIsRecorded(db: Db, o: int64)
    requires RevisionsMatch(db)
    ensures RevisionsMatch(ConsumeRevision(db, o).0)
  {
  }

  /** With any number of racing admins at most one refund is posted for an order, and only against a live refund row. */
  lemma OneRefundPerOrder(s: State, o: int64)
    requires Reachable(s)
    ensures Count(s.db.ledger, o, Refund) <= Live(s.db.refunds, o) <= 1
  {
    ReachableInv(s);
    assert RefundTally(s.db, s.actors, o);
    hide Inv, Reachable, Owed, Count, Live;
  }

  // ----- order history -----

  /** Every past of every order follows the transition table one way, and every milestone says when. */
  lemma HistoryIsLegal(s: State, o: int64)
    requires Reachable(s) && o in s.db.orders
    ensures Consistent(s.db.orders[o], s.db.now)
  {
    ReachableInv(s);
    TallyOf(s, o);
    hide Inv, Reachable, OrderTally, Consistent;
  }

  /** In every reachable state, whatever raced: nothing is accepted or sent back that was not just delivered, and every
      release is paid for by a delivery of its own. */
  lemma ReleasesFollowDeliveries(s: State, o: int64)
    requires Reachable(s) && o in s.db.orders
    ensures var visits := s.db.orders[o].visits;
      && (forall i :: 0 < i < |visits| && visits[i].status in {Accepted, RevisionRequested} ==>
            visits[i - 1].status == Delivered)
      && Count(s.db.ledger, o, Tag.Release) + TimesEntered(visits, RevisionRequested) <= TimesEntered(visits, Delivered)
  {
    HistoryIsLegal(s, o);
    ReleasesFollowAcceptances(s, o);
    var row := s.db.orders[o];
    hide Reachable, Count, TimesEntered, LastEntry, CanTransition;
    AcceptedAfterDelivery(row.visits);
    forall i | 0 < i < |row.visits| && row.visits[i].status in {Accepted, RevisionRequested}
      ensures row.visits[i - 1].status == Delivered
    {
      DirectlyBefore(row, s.db.now, i);
    }
  }

  /** A cancellation request or dispute that is still open can be resolved exactly from cancel_requested or disputed,
      and to closed from accepted or disputed: no order is paid but not begun while it has one. */
  lemma ResolutionsComeFrom(s: State, matter: Matter, o: int64, to: Status)
    requires Reachable(s) && o in s.db.orders && FindOpen(Requests(s.db, matter), o).Some? && ValidOutcome(matter, to)
    ensures CanTransition(s.db.orders[o].status, to)
      <==> s.db.orders[o].status in if to == Closed then {Accepted, Disputed} else {CancelRequested, Disputed}
  {
    hide *;
    ReachableInv(s);
    RowsHaveStarted(s);
    OpenRowStarted(s.db, matter, o);
    ResolvableFrom(s.db.orders[o].status, matter, to);
  }

  lemma ResolvableFrom(from: Status, matter: Matter, to: Status)
    requires Started(from) && ValidOutcome(matter, to)
    ensures CanTransition(from, to)
      <==> from in if to == Closed then {Accepted, Disputed} else {CancelRequested, Disputed}
  {
    EnteredFrom(from, to);
    hide Transitions;
  }

  lemma OpenRowStarted(db: Db, matter: Matter, o: int64)
    requires forall row :: row in db.cancellations || row in db.disputes ==> HasStarted(db, row.order)
    requires FindOpen(Requests(db, matter), o).Some?
    ensures o in db.orders && Started(db.orders[o].status)
  {
    hide FindOpen, Started;
    assert Requests(db, matter)[FindOpen(Requests(db, matter), o).value] in Requests(db, matter);
  }

  lemma RowsHaveStarted(s: State)
    requires Inv(s)
    ensures forall row :: row in s.db.cancellations || row in s.db.disputes ==> HasStarted(s.db, row.order)
  {
    hide HasStarted, OrderOk, OrderTally, RefundTally, Postable;
  }

  /** No step removes an order, rewrites its terms or its past, or takes back a status the table does not let go. */
  lemma StepsOnlyExtend(s: State, action: Action, o: int64)
    requires Reachable(s) && o in s.db.orders
    ensures var s' := Step(s, action);
      && o in s'.db.orders && s'.db.orders[o].bill == s.db.orders[o].bill
      && s.db.orders[o].visits <= s'.db.orders[o].visits
      && s.db.ledger <= s'.db.ledger
  {
    hide *;
    ReachableInv(s);
    InvParts(s);
    if action.Act? {
      var pc := PcOf(s.actors, action.actor);
      StepOfActor(s, action.actor, action.input);
      PcOkOf(s, action.actor);
      RunKeepsRows(s.db, pc, s.window, action.input);
      GrowsAt(s.db, Run(s.db, pc, s.window, action.input).0, o);
      LedgerAppends(s.db, pc, s.window, action.input);
    } else {
      BackgroundExtends(s, action, o);
    }
  }

  lemma StepOfActor(s: State, a: nat, input: Input)
    ensures Step(s, Act(a, input)).db == Run(s.db, PcOf(s.actors, a), s.window, input).0
  {
    hide Run, PcOf;
  }

  lemma GrowsAt(db: Db, db': Db, o: int64)
    requires Grows(db, db') && o in db.orders
    ensures o in db'.orders && db'.orders[o].bill == db.orders[o].bill && db.orders[o].visits <= db'.orders[o].visits
  {
    assert OrderGrows(db, db', o);
  }

  lemma BackgroundExtends(s: State, action: Action, o: int64)
    requires !action.Act? && o in s.db.orders
    ensures var s' := Step(s, action);
      && o in s'.db.orders && s'.db.orders[o] == s.db.orders[o] && s'.db.ledger == s.db.ledger
      && s.db.ledger <= s'.db.ledger
      && s.db.orders[o].visits <= s'.db.orders[o].visits
  {
    hide IdempotencyKey, Placed, PcOf, EntryPoint;
  }

  lemma LedgerAppends(db: Db, pc: Pc, window: nat, input: Input)
    ensures db.ledger <= Run(db, pc, window, input).0.ledger
  {
    RunFrames(db, pc, window, input);
    hide Run;
  }

  /** The sweep accepts an order only when its latest delivery is older than the review window. */
  lemma AutoAcceptIsLate(s: State, a: nat, input: Input, o: int64)
    requires Reachable(s) && a in s.actors && s.actors[a].AcceptOverdue? && o in s.db.orders
    requires Step(s, Act(a, input)).db.orders[o] != s.db.orders[o]
    ensures s.db.orders[o].status == Delivered
    ensures forall i :: 0 <= i < |s.db.orders[o].visits| && s.db.orders[o].visits[i].status == Delivered ==>
      s.db.orders[o].visits[i].at < s.db.now - s.window
  {
    hide *;
    ReachableInv(s);
    InvParts(s);
    StepOfActor(s, a, input);
    CutoffOf(s, a);
    AcceptOnlyOverdue(s.db, s.actors[a], s.window, input, o);
    HistoryIsLegal(s, o);
    LatestDelivery(s.db.orders[o], s.db.now);
  }

  lemma CutoffOf(s: State, a: nat)
    requires Remembered(s) && a in s.actors && s.actors[a].AcceptOverdue?
    ensures PcOf(s.actors, a) == s.actors[a] && s.actors[a].cutoff <= s.db.now - s.window
  {
    PcOkOf(s, a);
  }

  lemma AcceptOnlyOverdue(db: Db, pc: Pc, window: nat, input: Input, o: int64)
    requires pc.AcceptOverdue? && o in db.orders
    ensures var db' := Run(db, pc, window, input).0;
      o in db'.orders && (db'.orders[o] != db.orders[o] ==>
        db.orders[o].status == Delivered && db.orders[o].deliveredAt.Some?
          && db.orders[o].deliveredAt.value < pc.cutoff)
  {
    hide Lists, BillsOf, Moved;
  }

  // ----- the books -----

  /** In every reachable state each currency sums to zero over the whole ledger. */
  lemma BooksSumToZero(s: State, currency: string)
    requires Reachable(s)
    ensures AllPostable(s.db.ledger) && Balance(Journal(s.db.ledger), currency) == 0
  {
    ReachableInv(s);
    assert AllPostable(s.db.ledger) by { hide Postable; }
    hide *;
    CurrenciesSumToZero(s.db.ledger, currency);
  }

  /** Every account that has entries in a currency. */
  function AccountsIn(entries: seq<Entry>, currency: string): set<Account>
  {
    set e | e in entries && e.account.currency == currency :: e.account
  }

  /** So the balances of all accounts of a currency, as the balance queries report them, add up to zero. */
  lemma AccountBalancesSumToZero(s: State, currency: string)
    requires Reachable(s)
    ensures AllPostable(s.db.ledger)
    ensures var journal := Journal(s.db.ledger); SumOver(journal, AccountsIn(journal, currency)) == 0
  {
    BooksSumToZero(s, currency);
    var journal := Journal(s.db.ledger);
    hide Reachable, Journal, AllPostable, SumOver, Balance;
    AccountsPartitionCurrency(journal, AccountsIn(journal, currency), currency);
  }

  /** Every order, in any state: each of its six kinds of account holds what its captures, releases and refunds say,
      to the cent. */
  lemma BooksPerOrder(s: State, o: int64)
    requires Reachable(s) && o in s.db.orders
    ensures AllPostable(s.db.ledger)
    ensures var b := s.db.orders[o].bill; var kept := Kept(s.db.ledger, o); var journal := Journal(s.db.ledger);
      && OrderNet(journal, SellerPending, o) == (b.total - b.fee) * PendingShares(s.db.ledger, o)
      && OrderNet(journal, SellerAvailable, o) == (b.total - b.fee) * AvailableShares(s.db.ledger, o)
      && OrderNet(journal, PlatformRevenue, o) == b.fee * kept
      && OrderNet(journal, ProviderClearing, o) == -(b.total as int) * kept
      && OrderNet(journal, Refunds, o) == 0
      && OrderNet(journal, Reserves, o) == 0
    ensures Started(s.db.orders[o].status) ==>
      Billable(s.db.orders[o].bill) && Kept(s.db.ledger, o) == 1 - Count(s.db.ledger, o, Refund)
        && Count(s.db.ledger, o, Refund) <= 1
  {
    hide *;
    BooksSumToZero(s, "");
    OneCapturePerOrder(s, o);
    OneRefundPerOrder(s, o);
    KeptIs(s.db.ledger, o);
    ReachableInv(s);
    LedgerOnTerms(s, o);
    var b := s.db.orders[o].bill;
    if Count(s.db.ledger, o, Capture) > 0 || Count(s.db.ledger, o, Refund) > 0 {
      PostedIsBillable(s.db.ledger, b);
      OrderBalances(s.db.ledger, b);
      SellerBalances(s.db.ledger, b);
    } else {
      ReleasedOnlyIfCaptured(s, o);
      NoTags(s.db.ledger, o);
      NothingOnOrder(s.db.ledger, b);
    }
  }

  lemma KeptIs(events: seq<Event>, o: int64)
    ensures Kept(events, o) == Count(events, o, Capture) - Count(events, o, Refund)
  {
  }

  lemma NoTags(events: seq<Event>, o: int64)
    requires Count(events, o, Capture) == Count(events, o, Tag.Release) == Count(events, o, Refund) == 0
    ensures forall tag :: Count(events, o, tag) == 0
  {
    hide Count;
    forall tag: Tag ensures Count(events, o, tag) == 0 { match tag case Capture => case Release => case Refund => }
  }

  /** A release comes only after an acceptance, and so only for a captured order. */
  lemma ReleasedOnlyIfCaptured(s: State, o: int64)
    requires Reachable(s) && o in s.db.orders && Count(s.db.ledger, o, Capture) == 0
    ensures Count(s.db.ledger, o, Tag.Release) == 0
  {
    hide Reachable, Count, Consistent, TimesEntered, Started;
    ReleasesFollowAcceptances(s, o);
    OneCapturePerOrder(s, o);
    HistoryIsLegal(s, o);
    if TimesEntered(s.db.orders[o].visits, Accepted) > 0 { AcceptedMeansStarted(s.db.orders[o], s.db.now); }
  }

  lemma AcceptedMeansStarted(row: Order, now: int)
    requires Consistent(row, now) && TimesEntered(row.visits, Accepted) > 0
    ensures Started(row.status)
  {
    EnteredExists(row.visits, Accepted);
    var i :| 0 <= i < |row.visits| && row.visits[i].status == Accepted;
    if i < |row.visits| - 1 { HistoryIsOneWay(row, now, i, |row.visits| - 1); }
    hide LastEntry, Chained;
  }

  lemma {:induction false} EnteredExists(visits: seq<Visit>, s: Status)
    requires TimesEntered(visits, s) > 0
    ensures exists i :: 0 <= i < |visits| && visits[i].status == s
  {
    var n := |visits| - 1;
    if visits[n].status != s {
      EnteredExists(visits[..n], s);
      var i :| 0 <= i < n && visits[..n][i].status == s;
      assert visits[i].status == s;
    }
  }

  lemma {:induction false} NothingOnOrder(events: seq<Event>, b: Bill)
    requires AllPostable(events) && forall tag :: Count(events, b.order, tag) == 0
    ensures Kept(events, b.order) == PendingShares(events, b.order) == AvailableShares(events, b.order) == 0
    ensures forall kind :: OrderNet(Journal(events), kind, b.order) == 0
  {
    DrawnAreRefunds(events, b.order);
    if events != [] {
      var before, e := events[..|events| - 1], events[|events| - 1];
      assert events == before + [e];
      CountStep(before, e, b.order, TagOf(e));
      forall tag: Tag ensures Count(before, b.order, tag) == 0 { CountStep(before, e, b.order, tag); }
      NothingOnOrder(before, b);
      hide Count, Journal, Drawn, Sum, Postable;
      forall kind: Kind ensures OrderNet(Journal(events), kind, b.order) == 0 { OrderKindStep(before, e, b, kind); }
    }
  }

  /** In whatever state a refunded order is, its refund has undone its capture on every account if and only if it was
      drawn from where the seller's share was; to the letter, only when the currency is stored in lower case as well. */
  lemma RefundUndoesCapture(s: State, o: int64)
    requires Reachable(s) && o in s.db.orders
    requires Count(s.db.ledger, o, Capture) == 1 && Count(s.db.ledger, o, Refund) >= 1
    ensures AllPostable(s.db.ledger)
    ensures var b := s.db.orders[o].bill; var journal := Journal(s.db.ledger);
      && ((forall account :: OrderOnUpToCase(journal, account, o) == 0) <==> DrawnWhereHeld(s.db.ledger, b))
      && ((forall account :: OrderOn(journal, account, o) == 0) <==>
        Lower(b.currency) == b.currency && DrawnWhereHeld(s.db.ledger, b))
  {
    hide *;
    BooksSumToZero(s, "");
    OneRefundPerOrder(s, o);
    ReachableInv(s);
    LedgerOnTerms(s, o);
    PostedIsBillable(s.db.ledger, s.db.orders[o].bill);
    RefundRestoresUpToCase(s.db.ledger, s.db.orders[o].bill);
    RefundRestoresExactly(s.db.ledger, s.db.orders[o].bill);
  }

  lemma LedgerOnTerms(s: State, o: int64)
    requires Inv(s) && o in s.db.orders
    ensures OnTerms(s.db.ledger, s.db.orders[o].bill) && s.db.orders[o].bill.order == o
  {
    assert OrderOk(s.db, o);
    hide OrderTally, RefundTally, Consistent, Postable;
    forall e | e in s.db.ledger && e.bill.order == o
      ensures e.bill == s.db.orders[o].bill
    {
      assert Known(s.db, e.bill);
    }
  }

  lemma {:induction false} PostedIsBillable(events: seq<Event>, b: Bill)
    requires AllPostable(events) && OnTerms(events, b)
    requires Count(events, b.order, Capture) > 0 || Count(events, b.order, Refund) > 0
    ensures Billable(b)
  {
    var n := |events| - 1;
    if events[n].bill.order == b.order && !events[n].Released? {
      assert events[n] in events;
    } else {
      assert forall e :: e in events[..n] ==> e in events;
      PostedIsBillable(events[..n], b);
    }
  }
}
