/** Work an actor has taken on but not finished, weighed against what the rows say has been done. */
module Duties {
  import opened Int64
  import opened Ledger
  import opened Bookkeeping
  import opened Orders
  import opened Payments
  import opened StoreRows
  import opened Actors
  import opened Protocol

  datatype Duty = ToPostCapture | ToAdvance | ToRelease | ToRevise | ToRefund

  predicate Mentions(bills: seq<Bill>, o: int64)
  {
    exists k :: 0 <= k < |bills| && bills[k].order == o
  }

  /** The actor has won the right to do this for the order and has yet to do it. */
  predicate Owes(pc: Pc, duty: Duty, o: int64)
  {
    match duty
    case ToPostCapture => pc.PostCapture? && pc.bill.order == o
    case ToAdvance => pc.Advance? && pc.order == o
    case ToRelease =>
      (pc.ReleaseNext? && Mentions(pc.bills, o)) || (pc.PostRelease? && (pc.bill.order == o || Mentions(pc.rest, o)))
    case ToRevise => pc.Move? && pc.to == RevisionRequested && pc.bill.order == o
    case ToRefund => (pc.StoreAnswer? || pc.PostRefund?) && pc.bill.order == o
  }

  function One(b: bool): nat
  {
    if b then 1 else 0
  }

  lemma RestMentioned(bills: seq<Bill>, o: int64)
    requires bills != [] && Mentions(bills[1..], o)
    ensures Mentions(bills, o)
  {
    var k :| 0 <= k < |bills[1..]| && bills[1..][k].order == o;
    assert bills[k + 1].order == o;
  }

  /** An error the program goes on from changes no row and takes on nothing. */
  lemma ErrorsTakeOnNothing(db: Db, pc: Pc, window: nat, input: Input, duty: Duty, o: int64)
    requires Errs(pc, input)
    ensures var (db', pc') := Run(db, pc, window, input); db' == db && (Owes(pc', duty, o) ==> Owes(pc, duty, o))
  {
    WhoRuns(db, pc, window, input);
    hide Run, RunPayment, RunRequest, RunRefund, AfterCharge, Mentions;
    match pc
    case RecordCharge(i, p, seen, payment, cont) => AfterChargeOwesNothing(i, p, seen, payment, cont, duty, o);
    case ReleaseNext(bills) => if Mentions(bills[1..], o) { RestMentioned(bills, o); }
    case _ =>
  }

  lemma AfterChargeOwesNothing(i: nat, p: int64, seen: PaymentStatus, payment: Payment, cont: Cont, duty: Duty,
    o: int64)
    ensures !Owes(AfterCharge(i, p, seen, payment, cont), duty, o)
  {
    hide CanTransitionPayment;
  }

  /** A step that only reads takes on nothing. */
  lemma ReadsTakeOnNothing(db: Db, pc: Pc, window: nat, input: Input, duty: Duty, o: int64)
    requires Reads(pc) && !Errs(pc, input)
    ensures var (db', pc') := Run(db, pc, window, input); db' == db && (Owes(pc', duty, o) ==> Owes(pc, duty, o))
  {
    WhoRuns(db, pc, window, input);
    hide Run, RunPayment, RunRequest, RunRefund, OnError, Owes;
    if PaymentStep(pc) {
      PaymentReadsOweNothing(db, pc, input, duty, o);
    } else if RefundStep(pc) {
      RefundReadsOweNothing(db, pc, input, duty, o);
    } else {
      RequestReadsOweNothing(db, pc, window, input, duty, o);
    }
  }

  lemma PaymentReadsOweNothing(db: Db, pc: Pc, input: Input, duty: Duty, o: int64)
    requires Reads(pc) && PaymentStep(pc)
    ensures var (db', pc') := RunPayment(db, pc, input); db' == db && !Owes(pc', duty, o)
  {
    hide FindByRef, IsStale, SnapshotOf, CanTransitionPayment;
  }

  lemma RefundReadsOweNothing(db: Db, pc: Pc, input: Input, duty: Duty, o: int64)
    requires Reads(pc) && RefundStep(pc)
    ensures var (db', pc') := RunRefund(db, pc, input); db' == db && !Owes(pc', duty, o)
  {
    hide LatestIntent, Live;
  }

  lemma RequestReadsOweNothing(db: Db, pc: Pc, window: nat, input: Input, duty: Duty, o: int64)
    requires Reads(pc) && !PaymentStep(pc) && !RefundStep(pc)
    ensures var (db', pc') := RunRequest(db, pc, window, input); db' == db && (Owes(pc', duty, o) ==> Owes(pc, duty, o))
  {
    hide LatestIntent, FindOpen, CanTransition, Payable, Mentions;
    match pc
    case ReleaseNext(bills) =>
      if bills != [] {
        if Mentions(bills[1..], o) { RestMentioned(bills, o); }
        FirstMentioned(bills, o);
      }
    case _ =>
  }

  lemma FirstMentioned(bills: seq<Bill>, o: int64)
    requires bills != []
    ensures bills[0].order == o ==> Mentions(bills, o)
  {
  }

  // ----- captures -----

  /** Captures posted, still to be posted, and still to be followed by the advance to in_progress, by order status. */
  ghost predicate CaptureOk(s: Status, captures: nat, posting: nat, advancing: nat)
  {
    if s.PendingPayment? || s.PaymentFailed? then captures == posting == advancing == 0
    else if s.Paid? then captures + posting <= 1 && advancing <= captures
    else captures == 1 && posting == advancing == 0
  }

  /** Steps that write rows other than order statuses and postings. */
  predicate WritesElsewhere(pc: Pc)
  {
    pc.OpenIntent? || pc.AttachSession? || pc.MarkProcessed? || pc.RecordCharge? || pc.MoveIntent?
    || pc.UseRevision? || pc.OpenRow? || pc.CloseRow? || pc.InsertRefund? || pc.StoreAnswer?
  }

  lemma StatusesUntouched(db: Db, pc: Pc, window: nat, input: Input, o: int64)
    requires !Errs(pc, input) && WritesElsewhere(pc) && o in db.orders
    ensures var (db', pc') := Run(db, pc, window, input);
      && db'.ledger == db.ledger
      && o in db'.orders && db'.orders[o].status == db.orders[o].status && db'.orders[o].visits == db.orders[o].visits
      && !pc'.PostCapture? && !pc'.Advance? && !pc'.ReleaseNext? && !pc'.PostRelease?
  {
    WhoRuns(db, pc, window, input);
    hide Run, RunPayment, RunRefund, RunRequest, OnError;
    if PaymentStep(pc) {
      PaymentLeavesStatuses(db, pc, input);
    } else if RefundStep(pc) {
      RefundLeavesStatuses(db, pc, input);
    } else {
      RequestLeavesStatuses(db, pc, window, input, o);
    }
  }

  lemma PaymentLeavesStatuses(db: Db, pc: Pc, input: Input)
    requires PaymentStep(pc) && WritesElsewhere(pc)
    ensures var (db', pc') := RunPayment(db, pc, input);
      db'.ledger == db.ledger && db'.orders == db.orders && !pc'.PostCapture? && !pc'.Advance? && !pc'.ReleaseNext?
        && !pc'.PostRelease?
  {
    hide CanTransitionPayment, Settled;
  }

  lemma RefundLeavesStatuses(db: Db, pc: Pc, input: Input)
    requires RefundStep(pc) && WritesElsewhere(pc)
    ensures var (db', pc') := RunRefund(db, pc, input);
      db'.ledger == db.ledger && db'.orders == db.orders && !pc'.PostCapture? && !pc'.Advance? && !pc'.ReleaseNext?
        && !pc'.PostRelease?
  {
    hide Live;
  }

  lemma RequestLeavesStatuses(db: Db, pc: Pc, window: nat, input: Input, o: int64)
    requires !PaymentStep(pc) && !RefundStep(pc) && WritesElsewhere(pc) && o in db.orders
    ensures var (db', pc') := RunRequest(db, pc, window, input);
      && db'.ledger == db.ledger
      && o in db'.orders && db'.orders[o].status == db.orders[o].status && db'.orders[o].visits == db.orders[o].visits
      && !pc'.PostCapture? && !pc'.Advance? && !pc'.ReleaseNext? && !pc'.PostRelease?
  {
  }

  predicate Transits(pc: Pc)
  {
    pc.ClaimPaid? || pc.Advance? || pc.MoveToFailed? || pc.Move?
  }

  /** The order a transition step is about, and the statuses it names. */
  function Transition(pc: Pc): (int64, Status, Status)
    requires Transits(pc)
  {
    match pc
    case ClaimPaid(bill, _) => (bill.order, PendingPayment, Paid)
    case Advance(o, _) => (o, Paid, InProgress)
    case MoveToFailed(o, _) => (o, PendingPayment, PaymentFailed)
    case Move(bill, from, to) => (bill.order, from, to)
  }

  /** Such a step is one compare-and-set; what follows it depends on whether it won. */
  lemma TransitRuns(db: Db, pc: Pc, window: nat, input: Input)
    requires !Errs(pc, input) && Transits(pc)
    ensures var (db', pc') := Run(db, pc, window, input); var (o, from, to) := Transition(pc);
      var (after, won) := TransitionOrder(db, o, from, to);
      && db' == after
      && (pc'.PostCapture? ==> won && pc.ClaimPaid? && pc'.bill == pc.bill)
      && (pc'.ReleaseNext? ==> won && pc.Move? && to == Accepted && pc'.bills == [pc.bill])
      && !pc'.Advance? && !pc'.PostRelease? && !pc'.Move? && !pc'.StoreAnswer? && !pc'.PostRefund?
  {
    hide TransitionOrder;
  }

  predicate Posts(pc: Pc)
  {
    pc.PostCapture? || pc.PostRelease? || pc.PostRefund?
  }

  function Posting(pc: Pc): Event
    requires Posts(pc)
  {
    match pc
    case PostCapture(bill, _) => Captured(bill)
    case PostRelease(bill, _) => Released(bill)
    case PostRefund(bill, _, accepted) => Refunded(bill, accepted)
  }

  lemma PostRuns(db: Db, pc: Pc, window: nat, input: Input)
    requires !Errs(pc, input) && Posts(pc)
    ensures var (db', pc') := Run(db, pc, window, input); var (after, posted) := Post(db, Posting(pc));
      && db' == after
      && (pc'.Advance? ==> posted && pc.PostCapture? && pc'.order == pc.bill.order)
      && (pc'.ReleaseNext? ==> pc.PostRelease? && pc'.bills == pc.rest)
      && !pc'.PostCapture? && !pc'.PostRelease? && !pc'.Move? && !pc'.StoreAnswer? && !pc'.PostRefund?
  {
    hide Post;
  }

  lemma PostCounts(db: Db, e: Event, o: int64, tag: Tag)
    ensures var (db', posted) := Post(db, e);
      Count(db'.ledger, o, tag) == Count(db.ledger, o, tag) + One(posted && e.bill.order == o && TagOf(e) == tag)
        && db'.orders == db.orders
  {
    CountStep(db.ledger, e, o, tag);
    hide Count, Postable;
  }

  lemma CaptureStep(db: Db, pc: Pc, window: nat, input: Input, o: int64, posting: nat, advancing: nat)
    requires PcOk(db, window, pc) && o in db.orders
    requires CaptureOk(db.orders[o].status, Count(db.ledger, o, Capture), posting + One(Owes(pc, ToPostCapture, o)),
      advancing + One(Owes(pc, ToAdvance, o)))
    ensures var (db', pc') := Run(db, pc, window, input);
      o in db'.orders
      && CaptureOk(db'.orders[o].status, Count(db'.ledger, o, Capture), posting + One(Owes(pc', ToPostCapture, o)),
        advancing + One(Owes(pc', ToAdvance, o)))
  {
    hide Run, Count, PcOk, Post;
    if Errs(pc, input) {
      ErrorsTakeOnNothing(db, pc, window, input, ToPostCapture, o);
      ErrorsTakeOnNothing(db, pc, window, input, ToAdvance, o);
    } else if Reads(pc) {
      ReadsTakeOnNothing(db, pc, window, input, ToPostCapture, o);
      ReadsTakeOnNothing(db, pc, window, input, ToAdvance, o);
    } else if WritesElsewhere(pc) {
      StatusesUntouched(db, pc, window, input, o);
    } else if Posts(pc) {
      PostRuns(db, pc, window, input);
      PostCounts(db, Posting(pc), o, Capture);
    } else if Transits(pc) {
      CaptureTransit(db, pc, window, input, o, posting, advancing);
    } else {
      AcceptKeepsStarted(db, pc, window, input, o);
    }
  }

  lemma CaptureTransit(db: Db, pc: Pc, window: nat, input: Input, o: int64, posting: nat, advancing: nat)
    requires !Errs(pc, input) && Transits(pc) && PcOk(db, window, pc) && o in db.orders
    requires CaptureOk(db.orders[o].status, Count(db.ledger, o, Capture), posting + One(Owes(pc, ToPostCapture, o)),
      advancing + One(Owes(pc, ToAdvance, o)))
    ensures var (db', pc') := Run(db, pc, window, input);
      o in db'.orders && db'.ledger == db.ledger
      && CaptureOk(db'.orders[o].status, Count(db.ledger, o, Capture), posting + One(Owes(pc', ToPostCapture, o)),
        advancing + One(Owes(pc', ToAdvance, o)))
  {
    hide Run, Count, PcOk, TransitionOrder;
    TransitRuns(db, pc, window, input);
    TransitKeepsCapture(db, pc, window, o);
  }

  lemma TransitKeepsCapture(db: Db, pc: Pc, window: nat, o: int64)
    requires PcOk(db, window, pc) && o in db.orders && Transits(pc)
    ensures var (p, from, to) := Transition(pc); var (db', won) := TransitionOrder(db, p, from, to);
      && db'.ledger == db.ledger && o in db'.orders
      && (if won && p == o
        then db.orders[o].status == from && db'.orders[o].status == to && (pc.Move? ==> Started(from) && Started(to))
          else db'.orders[o].status == db.orders[o].status)
  {
    hide Transitions;
  }

  lemma AcceptKeepsStarted(db: Db, pc: Pc, window: nat, input: Input, o: int64)
    requires !Errs(pc, input) && pc.AcceptOverdue? && o in db.orders
    ensures var (db', pc') := Run(db, pc, window, input);
      && db'.ledger == db.ledger && o in db'.orders
      && (db'.orders[o].status == db.orders[o].status
        || (Started(db.orders[o].status) && Started(db'.orders[o].status)))
      && !pc'.PostCapture? && !pc'.Advance? && !pc'.Move? && !pc'.StoreAnswer? && !pc'.PostRefund?
  {
    hide Lists, BillsOf;
  }

  // ----- releases -----

  predicate Keyed(db: Db)
  {
    forall p :: p in db.orders ==> db.orders[p].bill.order == p
  }

  /** Releases posted or still to be posted never outnumber acceptances. */
  lemma ReleaseStep(db: Db, pc: Pc, window: nat, input: Input, o: int64, others: nat)
    requires PcOk(db, window, pc) && o in db.orders && Keyed(db)
    requires Count(db.ledger, o, Tag.Release) + others + One(Owes(pc, ToRelease, o))
      <= TimesEntered(db.orders[o].visits, Accepted)
    ensures var (db', pc') := Run(db, pc, window, input);
      o in db'.orders
      && Count(db'.ledger, o,
        Tag.Release) + others + One(Owes(pc', ToRelease, o)) <= TimesEntered(db'.orders[o].visits, Accepted)
  {
    hide Run, Count, PcOk, Post, TimesEntered, TransitionOrder, Mentions;
    if Errs(pc, input) {
      ErrorsTakeOnNothing(db, pc, window, input, ToRelease, o);
    } else if Reads(pc) {
      ReadsTakeOnNothing(db, pc, window, input, ToRelease, o);
    } else if WritesElsewhere(pc) {
      StatusesUntouched(db, pc, window, input, o);
    } else if Posts(pc) {
      PostRuns(db, pc, window, input);
      PostCounts(db, Posting(pc), o, Tag.Release);
      if pc.PostRelease? { RestMentions(db, window, pc, o); }
    } else if Transits(pc) {
      TransitRuns(db, pc, window, input);
      var (p, from, to) := Transition(pc);
      TransitEnters(db, p, from, to, o, Accepted);
      if pc.Move? { SingleMention(pc.bill, o); }
    } else {
      AcceptTakesOn(db, pc, window, input, o);
    }
  }

  lemma RestMentions(db: Db, window: nat, pc: Pc, o: int64)
    requires pc.PostRelease? && PcOk(db, window, pc)
    ensures pc.bill.order == o ==> !Mentions(pc.rest, o)
  {
    var all := [pc.bill] + pc.rest;
    assert forall k :: 0 <= k < |pc.rest| ==> all[k + 1] == pc.rest[k];
    assert all[0] == pc.bill;
  }

  lemma SingleMention(bill: Bill, o: int64)
    ensures Mentions([bill], o) <==> bill.order == o
  {
    assert [bill][0] == bill;
  }

  /** A transition enters its target once, for its own order only. */
  lemma TransitEnters(db: Db, p: int64, from: Status, to: Status, o: int64, s: Status)
    requires o in db.orders
    ensures var (db', won) := TransitionOrder(db, p, from, to);
      && db'.ledger == db.ledger && db'.refunds == db.refunds && o in db'.orders
      && db'.orders[o].revisionsUsed == db.orders[o].revisionsUsed
      && db'.orders[o].revisionsAllowed == db.orders[o].revisionsAllowed
      && TimesEntered(db'.orders[o].visits, s) == TimesEntered(db.orders[o].visits, s) + One(won && p == o && to == s)
  {
    MovedEnters(db.orders[o], to, db.now, s);
    hide TimesEntered, Moved;
  }

  lemma MovedEnters(row: Order, to: Status, now: int, s: Status)
    ensures TimesEntered(Moved(row, to, now).visits, s) == TimesEntered(row.visits, s) + One(to == s)
    ensures Moved(row, to, now).revisionsUsed == row.revisionsUsed
      && Moved(row, to, now).revisionsAllowed == row.revisionsAllowed
    ensures Moved(row, to, now).bill == row.bill && Moved(row, to, now).status == to
  {
    VisitStep(row.visits, Visit(to, now), s);
    hide TimesEntered;
  }

  lemma AcceptTakesOn(db: Db, pc: Pc, window: nat, input: Input, o: int64)
    requires !Errs(pc, input) && pc.AcceptOverdue? && o in db.orders && Keyed(db)
    ensures var (db', pc') := Run(db, pc, window, input); var overdue := pc' != pc && Overdue(db.orders[o], pc.cutoff);
      && db'.ledger == db.ledger && db'.refunds == db.refunds && o in db'.orders
      && db'.orders[o].revisionsUsed == db.orders[o].revisionsUsed
      && db'.orders[o].revisionsAllowed == db.orders[o].revisionsAllowed
      && (Owes(pc', ToRelease, o) ==> overdue)
      && TimesEntered(db'.orders[o].visits, Accepted) == TimesEntered(db.orders[o].visits, Accepted) + One(overdue)
      && TimesEntered(db'.orders[o].visits, RevisionRequested) == TimesEntered(db.orders[o].visits, RevisionRequested)
      && !pc'.Move? && !pc'.StoreAnswer? && !pc'.PostRefund?
  {
    hide TimesEntered, Lists, BillsOf, Mentions, OverdueOrders, Moved, Overdue;
    MovedEnters(db.orders[o], Accepted, db.now, Accepted);
    MovedEnters(db.orders[o], Accepted, db.now, RevisionRequested);
    if Lists(db, pc.cutoff, input.listing) { ListingMentions(db, pc.cutoff, input.listing, o); }
  }

  lemma ListingMentions(db: Db, cutoff: int, listing: seq<int64>, o: int64)
    requires Lists(db, cutoff, listing) && o in db.orders && Keyed(db)
    ensures forall p :: p in listing ==> p in db.orders
    ensures Mentions(BillsOf(db, listing), o) ==> Overdue(db.orders[o], cutoff)
  {
    ListedAreOverdue(db, cutoff, listing);
    hide Lists;
    if Mentions(BillsOf(db, listing), o) {
      var k :| 0 <= k < |BillsOf(db, listing)| && BillsOf(db, listing)[k].order == o;
      assert listing[k] in listing && db.orders[listing[k]].bill.order == o;
    }
  }

  // ----- revisions -----

  /** Revisions entered or about to be entered never outnumber the allowance used, nor that the allowance. */
  lemma ReviseStep(db: Db, pc: Pc, window: nat, input: Input, o: int64, others: nat)
    requires PcOk(db, window, pc) && o in db.orders && Keyed(db)
    requires TimesEntered(db.orders[o].visits, RevisionRequested) + others + One(Owes(pc, ToRevise, o))
      <= db.orders[o].revisionsUsed
    ensures var (db', pc') := Run(db, pc, window, input);
      o in db'.orders
      && TimesEntered(db'.orders[o].visits,
        RevisionRequested) + others + One(Owes(pc', ToRevise, o)) <= db'.orders[o].revisionsUsed
  {
    hide Run, Count, Post, TimesEntered, TransitionOrder, Mentions, Known, HasStarted, BillsKnown, CanTransition;
    if Errs(pc, input) {
      ErrorsTakeOnNothing(db, pc, window, input, ToRevise, o);
    } else if Reads(pc) {
      ReadsTakeOnNothing(db, pc, window, input, ToRevise, o);
    } else if WritesElsewhere(pc) {
      RevisionsElsewhere(db, pc, window, input, o);
    } else if Posts(pc) {
      PostRuns(db, pc, window, input);
      PostCounts(db, Posting(pc), o, Capture);
    } else if Transits(pc) {
      TransitRuns(db, pc, window, input);
      var (p, from, to) := Transition(pc);
      TransitEnters(db, p, from, to, o, RevisionRequested);
      MoveLoses(db, pc, window, o);
    } else {
      AcceptTakesOn(db, pc, window, input, o);
    }
  }

  lemma RevisionsElsewhere(db: Db, pc: Pc, window: nat, input: Input, o: int64)
    requires !Errs(pc, input) && PcOk(db, window, pc) && WritesElsewhere(pc) && o in db.orders && Keyed(db)
    ensures var (db', pc') := Run(db, pc, window, input);
      o in db'.orders && db'.orders[o].visits == db.orders[o].visits
      && db'.orders[o].revisionsUsed == db.orders[o].revisionsUsed + One(Owes(pc', ToRevise, o))
  {
    hide Run, PcOk;
    if pc.UseRevision? {
      OneRevisionUsed(db, pc, window, input, o);
    } else if pc.OpenRow? || pc.CloseRow? {
      RowsMoveElsewhere(db, pc, window, input);
    } else {
      OrdersUntouched(db, pc, window, input);
    }
  }

  lemma OneRevisionUsed(db: Db, pc: Pc, window: nat, input: Input, o: int64)
    requires !Errs(pc, input) && pc.UseRevision? && o in db.orders && Keyed(db)
    ensures var (db', pc') := Run(db, pc, window, input);
      o in db'.orders && db'.orders[o].visits == db.orders[o].visits
      && db'.orders[o].revisionsUsed == db.orders[o].revisionsUsed + One(Owes(pc', ToRevise, o))
  {
    hide RunPayment, RunRefund;
    assert pc.order in db.orders ==> db.orders[pc.order].bill.order == pc.order;
  }

  lemma RowsMoveElsewhere(db: Db, pc: Pc, window: nat, input: Input)
    requires !Errs(pc, input) && PcOk(db, window, pc) && (pc.OpenRow? || pc.CloseRow?)
    ensures var (db', pc') := Run(db, pc, window, input);
      db'.orders == db.orders && (pc'.Move? ==> pc'.to != RevisionRequested)
  {
    hide RunPayment, RunRefund, OpenRequest, CloseRequest, HasStarted, CanTransition;
    RequestsKeepOrders(db, pc.matter, pc.order, if pc.CloseRow? then pc.row else 0);
  }

  lemma OrdersUntouched(db: Db, pc: Pc, window: nat, input: Input)
    requires !Errs(pc, input) && WritesElsewhere(pc) && !pc.UseRevision? && !pc.OpenRow? && !pc.CloseRow?
    ensures var (db', pc') := Run(db, pc, window, input); db'.orders == db.orders && !pc'.Move?
  {
    hide RunRequest, CanTransitionPayment, Live;
  }

  lemma RequestsKeepOrders(db: Db, matter: Matter, p: int64, row: nat)
    ensures OpenRequest(db, matter, p).orders == db.orders && CloseRequest(db, matter, row).0.orders == db.orders
  {
  }

  lemma MoveLoses(db: Db, pc: Pc, window: nat, o: int64)
    requires Transits(pc)
    ensures var (p, from, to) := Transition(pc); to == RevisionRequested && p == o ==> Owes(pc, ToRevise, o)
  {
  }

  // ----- refunds -----

  /** Refunds posted or under way never outnumber live refund rows, and there is at most one of those. */
  ghost predicate RefundOk(posted: nat, owed: nat, live: nat)
  {
    posted + owed <= live <= 1
  }

  lemma RefundStepKeeps(db: Db, pc: Pc, window: nat, input: Input, o: int64, others: nat)
    requires PcOk(db, window, pc)
    requires RefundOk(Count(db.ledger, o, Refund), others + One(Owes(pc, ToRefund, o)), Live(db.refunds, o))
    ensures var (db', pc') := Run(db, pc, window, input);
      RefundOk(Count(db'.ledger, o, Refund), others + One(Owes(pc', ToRefund, o)), Live(db'.refunds, o))
  {
    hide Run, Count, Post, TimesEntered, TransitionOrder, Mentions, Live;
    if Errs(pc, input) {
      ErrorsTakeOnNothing(db, pc, window, input, ToRefund, o);
    } else if Reads(pc) {
      hide PcOk;
      ReadsTakeOnNothing(db, pc, window, input, ToRefund, o);
    } else if Posts(pc) {
      hide PcOk;
      PostRuns(db, pc, window, input);
      PostCounts(db, Posting(pc), o, Refund);
      PostKeepsRefunds(db, Posting(pc));
    } else if Transits(pc) {
      hide PcOk;
      TransitRuns(db, pc, window, input);
      var (p, from, to) := Transition(pc);
      TransitKeepsRefunds(db, p, from, to);
    } else {
      RefundRowStep(db, pc, window, input, o);
    }
  }

  lemma PostKeepsRefunds(db: Db, e: Event)
    ensures Post(db, e).0.refunds == db.refunds
  {
  }

  lemma TransitKeepsRefunds(db: Db, o: int64, from: Status, to: Status)
    ensures TransitionOrder(db, o, from, to).0.refunds == db.refunds
      && TransitionOrder(db, o, from, to).0.ledger == db.ledger
  {
  }

  lemma RefundRowStep(db: Db, pc: Pc, window: nat, input: Input, o: int64)
    requires !Errs(pc, input) && PcOk(db, window, pc) && !Reads(pc) && !Posts(pc) && !Transits(pc)
    ensures var (db', pc') := Run(db, pc, window, input);
      var before, after := One(Owes(pc, ToRefund, o)), One(Owes(pc', ToRefund, o));
      && db'.ledger == db.ledger
      && (Live(db'.refunds, o) - Live(db.refunds, o) == after - before
        || (Live(db'.refunds, o) == Live(db.refunds, o) && after <= before))
      && (Live(db'.refunds, o) > Live(db.refunds, o) ==> Live(db.refunds, o) == 0)
  {
    hide Known, HasStarted, BillsKnown, CanTransition, Lists, BillsOf, Live, OverdueOrders;
    match pc
    case InsertRefund(bill, _, _) => LiveStep(db.refunds, RefundRow(bill.order, RefundPending), o);
    case StoreAnswer(bill, row, _, answer) =>
      if StoredStatus(answer).Some? {
        LiveUpdate(db.refunds, row, db.refunds[row].(status := StoredStatus(answer).value), o);
      }
    case _ =>
      hide PcOk;
      RefundsUntouched(db, pc, window, input, o);
  }

  lemma RefundsUntouched(db: Db, pc: Pc, window: nat, input: Input, o: int64)
    requires !Errs(pc, input) && !Reads(pc) && !Posts(pc) && !Transits(pc) && !pc.InsertRefund? && !pc.StoreAnswer?
    ensures var (db', pc') := Run(db, pc, window, input);
      db'.refunds == db.refunds && db'.ledger == db.ledger && !Owes(pc', ToRefund, o)
  {
    hide CanTransitionPayment, Lists, BillsOf, OverdueOrders, Moved;
  }
}
