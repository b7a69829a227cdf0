/** What a report about a payment owes its order, and what a webhook job or a sweep leaves behind. */
module Settlements {
  import opened Results
  import opened Int64
  import opened Ledger
  import opened Bookkeeping
  import opened Orders
  import opened Payments
  import opened StoreRows
  import opened Actors
  import opened SoloRuns

  // ----- one order -----

  /** The order is there and still pending when the method reads it. */
  predicate AwaitsPayment(db: Db, o: int64)
  {
    o in db.orders && db.orders[o].status == PendingPayment
  }

  /** The rows a capture leaves behind. */
  function CaptureEnds(db: Db, o: int64): Db
  {
    if !AwaitsPayment(db, o) then db
    else if Billable(db.orders[o].bill)
    then db.(orders := db.orders[o := BegunRow(db.orders[o], db.now)],
      ledger := db.ledger + [Captured(db.orders[o].bill)])
    else db.(orders := db.orders[o := Moved(db.orders[o], Paid, db.now)])
  }

  /** The same, statement by statement. */
  lemma CaptureStages(db: Db, o: int64)
    requires o in db.orders ==> db.orders[o].bill.order == o
    ensures !AwaitsPayment(db, o) ==> CaptureEnds(db, o) == db
    ensures AwaitsPayment(db, o) ==>
      var bill := db.orders[o].bill; var (paid, claimed) := StoreRows.TransitionOrder(db, o, PendingPayment, Paid);
      var (begun, moved) := StoreRows.TransitionOrder(StoreRows.Post(paid, Captured(bill)).0, o, Paid, InProgress);
      claimed && CaptureEnds(db, o).ledger == (if Billable(bill) then db.ledger + [Captured(bill)] else db.ledger)
      && CaptureEnds(db, o) == (if Billable(bill) then begun else paid) && (Billable(bill) ==> moved)
  {
    if AwaitsPayment(db, o) {
      var row := db.orders[o];
      assert db.orders[o := Moved(row, Paid, db.now)][o := BegunRow(row, db.now)]
        == db.orders[o := BegunRow(row, db.now)];
    }
  }

  /** The rows that a failed or expired payment leaves behind: a pending order is in payment_failed, any other as
      before. */
  function FailureEnds(db: Db, o: int64): Db
  {
    if AwaitsPayment(db, o) then db.(orders := db.orders[o := Moved(db.orders[o], PaymentFailed, db.now)]) else db
  }

  lemma FailureStages(db: Db, o: int64)
    ensures !AwaitsPayment(db, o) ==> FailureEnds(db, o) == db
    ensures AwaitsPayment(db, o) ==>
      FailureEnds(db, o) == StoreRows.TransitionOrder(db, o, PendingPayment, PaymentFailed).0
  {
  }

  /** The rows once an order has been given what a report owes it: a capture, a failure, or nothing. */
  function Owed(db: Db, o: int64, report: PaymentStatus): Db
  {
    if report == Succeeded then CaptureEnds(db, o)
    else if report == Failed || report == Expired then FailureEnds(db, o)
    else db
  }

  /** Whether the order can be given what the report owes it. */
  predicate Settleable(db: Db, o: int64, report: PaymentStatus)
  {
    (report in {Succeeded, Failed, Expired} ==> o in db.orders)
    && (report == Succeeded && AwaitsPayment(db, o) ==> Billable(db.orders[o].bill))
  }

  // ----- one report -----

  /** A pending payment goes on to whatever is reported, one being processed only to success or failure. */
  predicate GoesOn(from: PaymentStatus, report: PaymentStatus)
  {
    (from == Pending && report != Pending) || (from == Processing && report in {Succeeded, Failed})
  }

  /** The intent after a report: its charge is noted, and it moves if it can. */
  function Reported(row: Intent, payment: Payment, now: int): Intent
  {
    var noted := if payment.chargeRef == "" then row else row.(chargeRef := payment.chargeRef);
    if GoesOn(row.status, payment.status) then Settled(noted, payment.status, now) else noted
  }

  function WithReport(db: Db, i: nat, payment: Payment): Db
    requires i < |db.intents|
  {
    db.(intents := db.intents[i := Reported(db.intents[i], payment, db.now)])
  }

  /** What a report changes about the order of its intent. */
  lemma OwedSays(db: Db, i: nat, payment: Payment)
    requires i < |db.intents|
    ensures var o, report := db.intents[i].order, payment.status;
      var pending, after := AwaitsPayment(db, o), Owed(WithReport(db, i, payment), o, report);
      && after.intents == db.intents[i := Reported(db.intents[i], payment, db.now)]
      && Settleable(WithReport(db, i, payment), o, report) == Settleable(db, o, report)
      && (pending && (report == Failed || report == Expired) ==>
            after.orders == db.orders[o := Moved(db.orders[o], PaymentFailed, db.now)])
      && (pending && report == Succeeded && Settleable(db, o, report) ==>
            after.orders == db.orders[o := Moved(Moved(db.orders[o], Paid, db.now), InProgress, db.now)]
            && after.ledger == db.ledger + [Captured(db.orders[o].bill)])
      && (!pending || report !in {Succeeded, Failed, Expired} ==> after.orders == db.orders)
      && (!pending || report != Succeeded ==> after.ledger == db.ledger)
  {
    hide Reported, Moved, Billable;
  }

  /** Statement by statement, a report leaves the intent as reported, and nothing else changed. */
  lemma ReportStages(db: Db, i: nat, payment: Payment)
    requires i < |db.intents|
    ensures var row := db.intents[i];
      var after := WithReport(db, i, payment);
      var noted := if payment.chargeRef != "" && payment.chargeRef != row.chargeRef
        then SetChargeRef(db, i, payment.chargeRef) else db;
      if CanTransitionPayment(row.status, payment.status)
      then TransitionIntent(noted, i, row.status, payment.status) == (after, true) else noted == after
  {
    var row := db.intents[i];
    PaymentEnteredFrom(row.status, payment.status);
    hide CanTransitionPayment, Settled;
    assert db.intents[i := row] == db.intents && row.(chargeRef := row.chargeRef) == row;
    var noted := row.(chargeRef := payment.chargeRef);
    assert db.intents[i := noted][i := Settled(noted, payment.status, db.now)]
      == db.intents[i := Settled(noted, payment.status, db.now)];
  }

  // ----- one answer to the sweep -----

  /** What one answer leaves behind: the charge is noted if it is news to the sweep; and if the payment goes on, and is
      still as the sweep has read it, it moves and the order is given what it is owed. */
  function Answered(db: Db, head: Snapshot, payment: Payment): (after: Db)
    requires head.intent < |db.intents|
    ensures |after.intents| == |db.intents|
  {
    var row := db.intents[head.intent];
    var noted := if payment.chargeRef == "" || payment.chargeRef == head.chargeRef then row
      else row.(chargeRef := payment.chargeRef);
    if row.status == head.status && GoesOn(head.status, payment.status)
    then
      Owed(db.(intents := db.intents[head.intent := Settled(noted, payment.status, db.now)]), head.order,
        payment.status)
    else db.(intents := db.intents[head.intent := noted])
  }

  lemma AnswerStages(db: Db, head: Snapshot, payment: Payment)
    requires head.intent < |db.intents|
    ensures var noted := if payment.chargeRef != "" && payment.chargeRef != head.chargeRef
        then SetChargeRef(db, head.intent, payment.chargeRef) else db;
      if CanTransitionPayment(head.status, payment.status)
      then
        var (moved, won) := TransitionIntent(noted, head.intent, head.status, payment.status);
        Answered(db, head, payment) == if won then Owed(moved, head.order, payment.status) else moved
      else Answered(db, head, payment) == noted
  {
    var i, row := head.intent, db.intents[head.intent];
    PaymentEnteredFrom(head.status, payment.status);
    hide CanTransitionPayment, Settled, Owed;
    assert db.intents[i := row] == db.intents;
    var noted := row.(chargeRef := payment.chargeRef);
    assert db.intents[i := noted][i := Settled(noted, payment.status, db.now)]
      == db.intents[i := Settled(noted, payment.status, db.now)];
  }

  // ----- a whole sweep -----

  /** The listed intents as the sweep reads them. */
  function Listing(db: Db, stale: seq<nat>): (listed: seq<Snapshot>)
    requires forall k :: 0 <= k < |stale| ==> stale[k] < |db.intents|
    ensures |listed| == |stale| && forall k ::
      0 <= k < |listed| ==> stale[k] < |db.intents| && listed[k] == SnapshotOf(db, stale[k])
  {
    if stale == [] then []
    else Listing(db, stale[..|stale| - 1]) + [SnapshotOf(db, stale[|stale| - 1])]
  }

  /** The answers taken in listing order; a failed call leaves everything as it is. */
  function Swept(db: Db, listed: seq<Snapshot>, answers: seq<Result<Payment, string>>): (after: Db)
    requires |answers| == |listed| && forall k :: 0 <= k < |listed| ==> listed[k].intent < |db.intents|
    ensures |after.intents| == |db.intents|
  {
    if listed == [] then db
    else
      var n := |listed| - 1;
      var before := Swept(db, listed[..n], answers[..n]);
      if answers[n].Ok? then Answered(before, listed[n], answers[n].value) else before
  }

  /** No two listed intents are the same, or of the same order. */
  predicate Apart(listed: seq<Snapshot>)
  {
    forall j, k :: 0 <= j < k < |listed| ==> listed[j].intent != listed[k].intent && listed[j].order != listed[k].order
  }

  predicate BillsInPlace(db: Db)
  {
    forall o :: o in db.orders ==> db.orders[o].bill.order == o
  }

  /** One report has had its effect: the intent is as reported; and if it went on while the order was pending, then
      after a failure or expiry the order is in payment_failed, and after a success with amounts the builder takes it
      is in progress with one capture more. Otherwise order and captures are as before. */
  ghost predicate ActedOn(db: Db, after: Db, i: nat, payment: Payment)
    requires i < |db.intents| == |after.intents|
  {
    var o, report := db.intents[i].order, payment.status;
    var acts := GoesOn(db.intents[i].status, report) && AwaitsPayment(db, o);
    && after.intents[i] == Reported(db.intents[i], payment, db.now)
    && (acts && (report == Failed || report == Expired) ==>
          o in after.orders && after.orders[o] == Moved(db.orders[o], PaymentFailed, db.now))
    && (acts && report == Succeeded && Billable(db.orders[o].bill) ==>
          o in after.orders && after.orders[o] == Moved(Moved(db.orders[o], Paid, db.now), InProgress, db.now)
            && Count(after.ledger, o, Capture) == Count(db.ledger, o, Capture) + 1)
    && (!acts || report !in {Succeeded, Failed, Expired} ==> SameOrder(db, after, o))
    && (!acts || report != Succeeded ==> Count(after.ledger, o, Capture) == Count(db.ledger, o, Capture))
  }

  predicate SameOrder(db: Db, after: Db, o: int64)
  {
    (o in after.orders <==> o in db.orders) && (o in db.orders ==> after.orders[o] == db.orders[o])
  }

  /** Nothing about an intent or its order has changed. */
  ghost predicate LeftAlone(db: Db, after: Db, i: nat, o: int64)
    requires i < |db.intents| == |after.intents|
  {
    after.now == db.now && after.intents[i] == db.intents[i] && SameOrder(db, after, o)
      && Count(after.ledger, o, Capture) == Count(db.ledger, o, Capture)
  }

  lemma AnswerActs(db: Db, i: nat, payment: Payment)
    requires i < |db.intents| && BillsInPlace(db)
    ensures ActedOn(db, Answered(db, SnapshotOf(db, i), payment), i, payment)
  {
    var o := db.intents[i].order;
    if o in db.orders { CountStep(db.ledger, Captured(db.orders[o].bill), o, Capture); }
    hide Count, Settled, Billable;
  }

  lemma AnswerLeaves(db: Db, head: Snapshot, payment: Payment, i: nat, o: int64)
    requires head.intent < |db.intents| && i < |db.intents| && BillsInPlace(db)
    requires i != head.intent && o != head.order
    ensures LeftAlone(db, Answered(db, head, payment), i, o)
  {
    if head.order in db.orders { CountStep(db.ledger, Captured(db.orders[head.order].bill), o, Capture); }
    hide Count, Settled, Billable;
  }

  lemma AnswerKeepsBills(db: Db, head: Snapshot, payment: Payment)
    requires head.intent < |db.intents| && BillsInPlace(db)
    ensures BillsInPlace(Answered(db, head, payment))
  {
    hide Settled, Billable;
  }

  lemma {:induction false} SweepKeepsBills(db: Db, listed: seq<Snapshot>, answers: seq<Result<Payment, string>>)
    requires |answers| == |listed| && BillsInPlace(db)
    requires forall k :: 0 <= k < |listed| ==> listed[k].intent < |db.intents|
    ensures BillsInPlace(Swept(db, listed, answers))
    decreases |listed|
  {
    hide Answered, BillsInPlace;
    if listed != [] {
      var n := |listed| - 1;
      SweepKeepsBills(db, listed[..n], answers[..n]);
      if answers[n].Ok? { AnswerKeepsBills(Swept(db, listed[..n], answers[..n]), listed[n], answers[n].value); }
    }
  }

  lemma {:induction false} SweepLeaves(db: Db, listed: seq<Snapshot>, answers: seq<Result<Payment, string>>, i: nat,
    o: int64)
    requires |answers| == |listed| && BillsInPlace(db) && i < |db.intents|
    requires forall k :: 0 <= k < |listed| ==>
      listed[k].intent < |db.intents| && listed[k].intent != i && listed[k].order != o
    ensures LeftAlone(db, Swept(db, listed, answers), i, o)
    decreases |listed|
  {
    hide Answered, BillsInPlace, Count, SameOrder;
    if listed == [] {
      NothingChanged(db, i, o);
    } else {
      var n := |listed| - 1;
      SweepLeaves(db, listed[..n], answers[..n], i, o);
      SweepKeepsBills(db, listed[..n], answers[..n]);
      if answers[n].Ok? { AnswerLeaves(Swept(db, listed[..n], answers[..n]), listed[n], answers[n].value, i, o); }
      AloneTwice(db, Swept(db, listed[..n], answers[..n]), Swept(db, listed, answers), i, o);
    }
  }

  lemma NothingChanged(db: Db, i: nat, o: int64)
    requires i < |db.intents|
    ensures LeftAlone(db, db, i, o)
  {
  }

  lemma AloneTwice(db: Db, mid: Db, after: Db, i: nat, o: int64)
    requires i < |db.intents| == |mid.intents| == |after.intents|
    requires LeftAlone(db, mid, i, o) && (mid == after || LeftAlone(mid, after, i, o))
    ensures LeftAlone(db, after, i, o)
  {
    hide Count;
  }

  /** Every listed intent whose provider answers is acted on, and every other one left alone: no answer gets in the way
      of another. */
  lemma {:induction false} SweepActs(db: Db, listed: seq<Snapshot>, answers: seq<Result<Payment, string>>, k: nat)
    requires |answers| == |listed| && BillsInPlace(db) && Apart(listed) && k < |listed|
    requires forall j :: 0 <= j < |listed| ==>
      listed[j].intent < |db.intents| && listed[j] == SnapshotOf(db, listed[j].intent)
    ensures if answers[k].Ok? then ActedOn(db, Swept(db, listed, answers), listed[k].intent, answers[k].value)
      else LeftAlone(db, Swept(db, listed, answers), listed[k].intent, listed[k].order)
    decreases |listed|
  {
    hide Answered, BillsInPlace, Count, SameOrder, ActedOn, LeftAlone;
    var n := |listed| - 1;
    var i, o, before := listed[k].intent, listed[k].order, Swept(db, listed[..n], answers[..n]);
    SweepKeepsBills(db, listed[..n], answers[..n]);
    if k < n {
      SweepActs(db, listed[..n], answers[..n], k);
      if answers[n].Ok? { AnswerLeaves(before, listed[n], answers[n].value, i, o); }
      if answers[k].Ok? {
        ActedThenAlone(db, before, Swept(db, listed, answers), i, answers[k].value);
      } else {
        AloneTwice(db, before, Swept(db, listed, answers), i, o);
      }
    } else {
      SweepLeaves(db, listed[..n], answers[..n], i, o);
      if answers[n].Ok? {
        SameSnapshot(db, before, i);
        AnswerActs(before, i, answers[n].value);
        AloneThenActed(db, before, Swept(db, listed, answers), i, answers[n].value);
      }
    }
  }

  lemma ActedThenAlone(db: Db, mid: Db, after: Db, i: nat, payment: Payment)
    requires i < |db.intents| == |mid.intents| == |after.intents| && ActedOn(db, mid, i, payment)
    requires mid == after || LeftAlone(mid, after, i, db.intents[i].order)
    ensures ActedOn(db, after, i, payment)
  {
    hide Count, Reported, GoesOn, Moved, Billable;
  }

  lemma AloneThenActed(db: Db, mid: Db, after: Db, i: nat, payment: Payment)
    requires i < |db.intents| == |mid.intents| == |after.intents| && ActedOn(mid, after, i, payment)
    requires LeftAlone(db, mid, i, db.intents[i].order)
    ensures ActedOn(db, after, i, payment)
  {
    hide Count, Reported, GoesOn, Moved, Billable;
  }

  lemma SameSnapshot(db: Db, mid: Db, i: nat)
    requires i < |db.intents| == |mid.intents| && LeftAlone(db, mid, i, db.intents[i].order)
    ensures SnapshotOf(mid, i) == SnapshotOf(db, i)
  {
    hide Count;
  }

  /** So a sweep over intents of different orders does to each what its report says. */
  lemma SweepSettles(db: Db, stale: seq<nat>, answers: seq<Result<Payment, string>>)
    requires |answers| == |stale| && BillsInPlace(db) && forall k :: 0 <= k < |stale| ==> stale[k] < |db.intents|
    requires Apart(Listing(db, stale))
    ensures var after := Swept(db, Listing(db, stale), answers);
      forall k :: 0 <= k < |stale| ==>
        if answers[k].Ok? then ActedOn(db, after, stale[k], answers[k].value)
        else LeftAlone(db, after, stale[k], db.intents[stale[k]].order)
  {
    hide Swept, ActedOn, LeftAlone, BillsInPlace, Apart;
    forall k | 0 <= k < |stale|
      ensures var after := Swept(db, Listing(db, stale), answers);
        if answers[k].Ok? then ActedOn(db, after, stale[k], answers[k].value)
        else LeftAlone(db, after, stale[k], db.intents[stale[k]].order)
    {
      SweepActs(db, Listing(db, stale), answers, k);
    }
  }
}
