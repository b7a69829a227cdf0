/** When a seller's share can still be released, and when it never will be. */
module Earnings {
  import opened Int64
  import opened Ledger
  import opened Bookkeeping
  import opened Orders
  import opened Payments
  import opened StoreRows
  import opened Actors
  import opened Protocol
  import opened Duties
  import opened Runs
  import opened Guarantees
  import opened Checkouts
  import opened SoloRuns
  import opened Outcomes

  /** How often the order has become accepted. */
  function Acceptances(db: Db, o: int64): nat
    requires o in db.orders
  {
    TimesEntered(db.orders[o].visits, Accepted)
  }

  function Releases(db: Db, o: int64): nat
  {
    Count(db.ledger, o, Tag.Release)
  }

  /** An actor has yet to release the order's share, the share is worth something, and the payment succeeded. */
  ghost predicate Releasing(s: State, o: int64)
  {
    o in s.db.orders && Payable(s.db.orders[o].bill) > 0 && PaidFor(s.db, o) && Owed(s.actors, ToRelease, o) > 0
  }

  // ----- a release that is lost -----

  /** Only becoming accepted takes on a release, and only an actor with one to do posts it. */
  lemma RunTakesOnNoRelease(db: Db, pc: Pc, window: nat, input: Input, o: int64)
    requires PcOk(db, window, pc) && o in db.orders && Keyed(db)
    ensures var (db', pc') := Run(db, pc, window, input);
      && o in db'.orders
      && (Acceptances(db', o) == Acceptances(db, o) && Owes(pc', ToRelease, o) ==> Owes(pc, ToRelease, o))
      && (Releases(db', o) != Releases(db, o) ==> pc.PostRelease? && pc.bill.order == o && Postable(Released(pc.bill)))
  {
    hide Run, Count, PcOk, Post, TimesEntered, TransitionOrder, Mentions;
    if Errs(pc, input) {
      ErrorsTakeOnNothing(db, pc, window, input, ToRelease, o);
    } else if Reads(pc) {
      ReadsTakeOnNothing(db, pc, window, input, ToRelease, o);
    } else if WritesElsewhere(pc) {
      StatusesUntouched(db, pc, window, input, o);
    } else if Posts(pc) {
      PostRuns(db, pc, window, input);
      PostCounts(db, Posting(pc), o, Tag.Release);
      PostsIfPostable(db, Posting(pc));
    } else if Transits(pc) {
      TransitRuns(db, pc, window, input);
      var (p, from, to) := Transition(pc);
      TransitEnters(db, p, from, to, o, Accepted);
      if pc.Move? { SingleMention(pc.bill, o); }
    } else {
      AcceptTakesOn(db, pc, window, input, o);
    }
  }

  lemma PostsIfPostable(db: Db, e: Event)
    ensures Post(db, e).1 == Postable(e)
  {
  }

  /** The order's payment is finished, so whether it succeeded is settled. */
  lemma PaidForBefore(db: Db, db': Db, o: int64)
    requires Evolves(db, db') && IntentsOk(db') && Finished(db, o) && PaidFor(db', o)
    ensures PaidFor(db, o)
  {
    var i: nat :| IntentOf(db, i, o) && Final(db.intents[i].status);
    var j: nat :| IntentOf(db', j, o) && db'.intents[j].status == Succeeded;
    FinalStays(db.intents[i], db'.intents[i]);
    assert IntentOf(db', i, o);
    assert i == j;
  }

  /** An order with a release to do has become accepted, and so its payment is finished. */
  lemma OwedMeansFinished(s: State, o: int64)
    requires Inv(s) && PaymentRowsOk(s.db) && o in s.db.orders && Owed(s.actors, ToRelease, o) > 0
    ensures Finished(s.db, o)
  {
    TallyOf(s, o);
    hide Inv, Finished, Owed, Count, Consistent, TimesEntered, IntentsOk, Placeable, Warranted, Genuine;
    assert PaymentBehind(s.db, o);
    AcceptedMeansStarted(s.db.orders[o], s.db.now);
  }

  lemma StepLeavesUnreleased(s: State, action: Action, o: int64)
    requires Inv(s) && CheckoutInv(s) && o in s.db.orders && !Releasing(s, o)
    requires o in Step(s, action).db.orders && Acceptances(Step(s, action).db, o) == Acceptances(s.db, o)
    ensures !Releasing(Step(s, action), o) && Releases(Step(s, action).db, o) == Releases(s.db, o)
  {
    hide *;
    if action.Act? {
      ActLeavesUnreleased(s, action.actor, action.input, o);
    } else {
      var s' := Step(s, action);
      BackgroundExtends(s, action, o);
      OutsideEvolves(s, action);
      OutsideOwes(s, action, ToRelease, o);
      SameReleases(s.db, s'.db, o);
      NoMoreReleasing(s, s', o) by { SamePaidFor(s.db, s'.db, o); }
    }
  }

  lemma SameReleases(db: Db, db': Db, o: int64)
    requires db'.ledger == db.ledger
    ensures Releases(db', o) == Releases(db, o)
  {
    hide Count;
  }

  lemma SamePaidFor(db: Db, db': Db, o: int64)
    requires db'.intents == db.intents
    ensures PaidFor(db', o) == PaidFor(db, o)
  {
    if PaidFor(db', o) {
      var i: nat :| IntentOf(db', i, o) && db'.intents[i].status == Succeeded;
      assert IntentOf(db, i, o);
    }
    if PaidFor(db, o) {
      var i: nat :| IntentOf(db, i, o) && db.intents[i].status == Succeeded;
      assert IntentOf(db', i, o);
    }
  }

  lemma NoMoreReleasing(s: State, s': State, o: int64)
    requires o in s.db.orders && !Releasing(s, o) && (o in s'.db.orders ==> s'.db.orders[o].bill == s.db.orders[o].bill)
    requires Owed(s'.actors, ToRelease, o) <= Owed(s.actors, ToRelease, o)
    requires Owed(s.actors, ToRelease, o) > 0 && PaidFor(s'.db, o) ==> PaidFor(s.db, o)
    ensures !Releasing(s', o)
  {
    hide PaidFor, Owed, Payable;
  }

  lemma ActLeavesUnreleased(s: State, a: nat, input: Input, o: int64)
    requires Inv(s) && CheckoutInv(s) && o in s.db.orders && !Releasing(s, o)
    requires o in Step(s, Act(a, input)).db.orders
      && Acceptances(Step(s, Act(a, input)).db, o) == Acceptances(s.db, o)
    ensures var s' := Step(s, Act(a, input)); !Releasing(s', o) && Releases(s'.db, o) == Releases(s.db, o)
  {
    hide *;
    var pc, s' := PcOf(s.actors, a), Step(s, Act(a, input));
    InvParts(s);
    PcOkOf(s, a);
    KeyedById(s.db);
    ActIs(s, a, input);
    OwedSplits(s.actors, a, Run(s.db, pc, s.window, input).1, ToRelease, o);
    RunTakesOnNoRelease(s.db, pc, s.window, input, o);
    RunKeepsRows(s.db, pc, s.window, input);
    GrowsAt(s.db, s'.db, o);
    CheckoutParts(s);
    KnowsNow(s, a);
    RunEvolves(s.db, pc, s.window, input);
    RunKeepsPaymentRows(s.db, pc, s.window, input);
    RowsParts(s'.db);
    if Owed(s.actors, ToRelease, o) > 0 && PaidFor(s'.db, o) {
      OwedMeansFinished(s, o);
      PaidForBefore(s.db, s'.db, o);
    }
    OneLess(Owes(pc, ToRelease, o), Owes(Run(s.db, pc, s.window, input).1, ToRelease, o));
    NoMoreReleasing(s, s', o);
    if Releases(s'.db, o) != Releases(s.db, o) { PostingIsReleasing(s, a, o); }
  }

  lemma OneLess(before: bool, after: bool)
    requires after ==> before
    ensures One(after) <= One(before)
  {
  }

  /** An actor about to post a release of the order is one that has it to do. */
  lemma PostingIsReleasing(s: State, a: nat, o: int64)
    requires Inv(s) && CheckoutInv(s) && o in s.db.orders
    requires PcOf(s.actors, a).PostRelease? && PcOf(s.actors, a).bill.order == o
    ensures Releasing(s, o)
  {
    hide *;
    var pc := PcOf(s.actors, a);
    InvParts(s);
    PcOkOf(s, a);
    KnowsNow(s, a);
    NowOf(s, a);
    ReleaserKnows(s.db, s.window, pc);
    IsReleasing(s, a, o);
  }

  lemma ReleaserKnows(db: Db, window: nat, pc: Pc)
    requires pc.PostRelease? && PcOk(db, window, pc) && KnowsPayment(db, pc)
    ensures Known(db, pc.bill) && PaidFor(db, pc.bill.order) && Payable(pc.bill) > 0
  {
    hide PaidFor, Payable, Known;
    FirstIsKnown(db, pc.bill, pc.rest);
  }

  lemma IsReleasing(s: State, a: nat, o: int64)
    requires PcOf(s.actors, a).PostRelease? && PcOf(s.actors, a).bill.order == o
    requires Known(s.db, PcOf(s.actors, a).bill) && PaidFor(s.db, o) && Payable(PcOf(s.actors, a).bill) > 0
    ensures Releasing(s, o)
  {
    hide PaidFor, Payable;
    assert a in Holders(s.actors, ToRelease, o);
  }

  lemma FirstIsKnown(db: Db, bill: Bill, rest: seq<Bill>)
    requires BillsKnown(db, [bill] + rest)
    ensures Known(db, bill)
  {
    assert bill in [bill] + rest;
  }

  /** Acceptances only ever add up. */
  lemma {:induction false} AcceptancesGrow(visits: seq<Visit>, more: seq<Visit>, s: Status)
    requires visits <= more
    ensures TimesEntered(visits, s) <= TimesEntered(more, s)
    decreases |more|
  {
    if |visits| == |more| {
      assert visits == more;
    } else {
      var n := |more| - 1;
      AcceptancesGrow(visits, more[..n], s);
      assert more == more[..n] + [more[n]];
      VisitStep(more[..n], more[n], s);
    }
  }

  lemma StepKeepsOrder(s: State, action: Action, o: int64)
    requires Reachable(s) && o in s.db.orders
    ensures o in Step(s, action).db.orders && Acceptances(s.db, o) <= Acceptances(Step(s, action).db, o)
  {
    StepsOnlyExtend(s, action, o);
    hide Step, Reachable, TimesEntered;
    AcceptancesGrow(s.db.orders[o].visits, Step(s, action).db.orders[o].visits, Accepted);
  }

  lemma {:induction false} OrderStays(s: State, more: seq<Action>, o: int64)
    requires Reachable(s) && o in s.db.orders
    ensures o in Continue(s, more).db.orders && Acceptances(s.db, o) <= Acceptances(Continue(s, more).db, o)
    decreases |more|
  {
    hide *;
    if more == [] {
      ContinueNothing(s);
    } else {
      var n := |more| - 1;
      OrderStays(s, more[..n], o);
      assert more[..n] + [more[n]] == more;
      ContinueStep(s, more[..n], more[n]);
      ContinueReachable(s, more[..n]);
      StepKeepsOrder(Continue(s, more[..n]), more[n], o);
    }
  }

  /** Short of being accepted once more, such an order never sees another release. */
  lemma {:induction false} LostReleaseIsPermanent(s: State, more: seq<Action>, o: int64)
    requires Reachable(s) && o in s.db.orders && !Releasing(s, o)
    requires o in Continue(s, more).db.orders && Acceptances(Continue(s, more).db, o) == Acceptances(s.db, o)
    ensures !Releasing(Continue(s, more), o) && Releases(Continue(s, more).db, o) == Releases(s.db, o)
    decreases |more|
  {
    hide *;
    if more == [] {
      ContinueNothing(s);
    } else {
      var n := |more| - 1;
      var before := Continue(s, more[..n]);
      assert more[..n] + [more[n]] == more;
      ContinueStep(s, more[..n], more[n]);
      ContinueReachable(s, more[..n]);
      OrderStays(s, more[..n], o);
      StepKeepsOrder(before, more[n], o);
      LostReleaseIsPermanent(s, more[..n], o);
      ReachableInv(before);
      ReachableCheckouts(before);
      StepLeavesUnreleased(before, more[n], o);
    }
  }

  // ----- a release that can still be made -----

  const FAILING := QUIET.(ok := false)

  /** The orders before this one in the actor's list can be skipped, as when their rows cannot be read. */
  lemma {:induction false} ReachesHead(s: State, a: nat, o: int64) returns (more: seq<Action>)
    requires a in s.actors && s.actors[a].ReleaseNext? && Mentions(s.actors[a].bills, o)
    ensures var s' := Continue(s, more);
      && s'.db == s.db && s'.window == s.window && a in s'.actors && s'.actors[a].ReleaseNext?
      && s'.actors[a].bills != [] && s'.actors[a].bills[0].order == o && s'.actors[a].bills[0] in s.actors[a].bills
    decreases |s.actors[a].bills|
  {
    hide Continue, Step;
    var bills := s.actors[a].bills;
    var k :| 0 <= k < |bills| && bills[k].order == o;
    if bills[0].order == o {
      more := [];
      ContinueNothing(s);
    } else {
      var s' := Step(s, Act(a, FAILING));
      SkipsHead(s, a);
      assert bills[1..][k - 1].order == o;
      var rest := ReachesHead(s', a, o);
      OneMore(s, Act(a, FAILING));
      ContinueTwice(s, [Act(a, FAILING)], rest);
      more := [Act(a, FAILING)] + rest;
    }
  }

  lemma SkipsHead(s: State, a: nat)
    requires a in s.actors && s.actors[a].ReleaseNext? && s.actors[a].bills != []
    ensures Step(s, Act(a, FAILING)) == s.(actors := s.actors[a := ReleaseNext(s.actors[a].bills[1..])])
  {
  }

  lemma SkipsPosting(s: State, a: nat)
    requires a in s.actors && s.actors[a].PostRelease?
    ensures Step(s, Act(a, FAILING)) == s.(actors := s.actors[a := ReleaseNext(s.actors[a].rest)])
  {
  }

  lemma RestIsKnown(db: Db, bill: Bill, rest: seq<Bill>)
    requires BillsKnown(db, [bill] + rest)
    ensures forall b :: b in rest ==> Known(db, b)
  {
    forall b | b in rest ensures Known(db, b) { assert b in [bill] + rest; }
  }

  /** From the head of the list, two calls post the release. */
  lemma HeadReleases(s: State, a: nat, o: int64)
    requires a in s.actors && s.actors[a].ReleaseNext? && s.actors[a].bills != [] && s.actors[a].bills[0].order == o
    requires IntentsOk(s.db) && PaidFor(s.db, o) && Payable(s.actors[a].bills[0]) > 0
    ensures Step(s, Act(a, QUIET))
      == s.(actors := s.actors[a := PostRelease(s.actors[a].bills[0], s.actors[a].bills[1..])])
  {
    hide PaidFor, IntentsOk, Payable, LatestIntent, Run, PcOf;
    PaidIsLatest(s.db, o);
    HeadRuns(s.db, s.actors[a].bills, s.window);
    ActIs(s, a, QUIET);
    NowOf(s, a);
  }

  lemma HeadRuns(db: Db, bills: seq<Bill>, window: nat)
    requires bills != [] && Payable(bills[0]) > 0
    requires var i := LatestIntent(db.intents, bills[0].order); i.Some? && db.intents[i.value].status == Succeeded
    ensures Run(db, ReleaseNext(bills), window, QUIET) == (db, PostRelease(bills[0], bills[1..]))
  {
    hide Payable, LatestIntent;
  }

  lemma PaidIsLatest(db: Db, o: int64)
    requires IntentsOk(db) && PaidFor(db, o)
    ensures LatestIntent(db.intents, o).Some? && db.intents[LatestIntent(db.intents, o).value].status == Succeeded
  {
    var i: nat :| IntentOf(db, i, o) && db.intents[i].status == Succeeded;
    var j := LatestIntent(db.intents, o);
    hide IdempotencyKey;
    assert j.Some?;
    assert j.value == i;
  }

  lemma PostingReleases(s: State, a: nat, o: int64)
    requires a in s.actors && s.actors[a].PostRelease? && s.actors[a].bill.order == o && Payable(s.actors[a].bill) > 0
    ensures var s' := Step(s, Act(a, QUIET));
      s'.db.orders == s.db.orders && Releases(s'.db, o) == Releases(s.db, o) + 1
  {
    PostCounts(s.db, Released(s.actors[a].bill), o, Tag.Release);
    hide Count, Payable;
  }

  /** A further release, by way of no further acceptance. */
  ghost predicate ReleasesMore(s: State, more: seq<Action>, o: int64)
    requires o in s.db.orders
  {
    var s' := Continue(s, more);
    o in s'.db.orders && Acceptances(s'.db, o) == Acceptances(s.db, o) && Releases(s'.db, o) > Releases(s.db, o)
  }

  lemma ReleasingCanPost(s: State, o: int64) returns (more: seq<Action>)
    requires Inv(s) && CheckoutInv(s) && Releasing(s, o)
    ensures ReleasesMore(s, more, o)
  {
    hide Continue, Inv, CheckoutInv, Step, Payable, PaidFor, IntentsOk, Count, TimesEntered, PcOk, ReleasesMore,
      Mentions;
    InvParts(s);
    CheckoutParts(s);
    RowsParts(s.db);
    var a :| a in Holders(s.actors, ToRelease, o);
    PcOkOf(s, a);
    NowOf(s, a);
    if s.actors[a].ReleaseNext? {
      more := ListedCanPost(s, a, o);
    } else if s.actors[a].bill.order == o {
      more := HolderCanPost(s, a, o);
    } else {
      SkipsPosting(s, a);
      StillListed(s, a);
      var rest := ListedCanPost(Step(s, Act(a, FAILING)), a, o);
      OneMore(s, Act(a, FAILING));
      ContinueTwice(s, [Act(a, FAILING)], rest);
      more := [Act(a, FAILING)] + rest;
      SameFrom(s, Step(s, Act(a, FAILING)), more, rest, o);
    }
  }

  lemma StillListed(s: State, a: nat)
    requires a in s.actors && s.actors[a].PostRelease? && PcOk(s.db, s.window, s.actors[a])
    ensures PcOk(s.db, s.window, ReleaseNext(s.actors[a].rest))
  {
    var pc := s.actors[a];
    RestIsKnown(s.db, pc.bill, pc.rest);
    forall i, j | 0 <= i < j < |pc.rest| ensures pc.rest[i].order != pc.rest[j].order {
      assert ([pc.bill] + pc.rest)[i + 1].order != ([pc.bill] + pc.rest)[j + 1].order;
    }
    hide Known;
  }

  lemma SameFrom(s: State, s': State, more: seq<Action>, rest: seq<Action>, o: int64)
    requires o in s.db.orders && s'.db == s.db && Continue(s, more) == Continue(s', rest) && ReleasesMore(s', rest, o)
    ensures ReleasesMore(s, more, o)
  {
    hide Continue, Acceptances, Releases;
  }

  lemma HolderCanPost(s: State, a: nat, o: int64) returns (more: seq<Action>)
    requires o in s.db.orders && a in s.actors && s.actors[a].PostRelease? && s.actors[a].bill.order == o
    requires PcOk(s.db, s.window, s.actors[a]) && Payable(s.db.orders[o].bill) > 0
    ensures ReleasesMore(s, more, o)
  {
    hide Continue, Step, Payable, Count, TimesEntered;
    FirstIsKnown(s.db, s.actors[a].bill, s.actors[a].rest);
    PostingReleases(s, a, o);
    more := [Act(a, QUIET)];
    OneMore(s, Act(a, QUIET));
  }

  lemma ListedCanPost(s: State, a: nat, o: int64) returns (more: seq<Action>)
    requires o in s.db.orders && a in s.actors && s.actors[a].ReleaseNext? && Mentions(s.actors[a].bills, o)
    requires IntentsOk(s.db) && PaidFor(s.db, o) && Payable(s.db.orders[o].bill) > 0
    requires PcOk(s.db, s.window, s.actors[a])
    ensures ReleasesMore(s, more, o)
  {
    hide Continue, Step, Payable, PaidFor, IntentsOk, Count, TimesEntered;
    var before := ReachesHead(s, a, o);
    var s' := Continue(s, before);
    HeadReleases(s', a, o);
    var s'' := Step(s', Act(a, QUIET));
    PostingReleases(s'', a, o);
    OneMore(s', Act(a, QUIET));
    ContinueStep(s', [Act(a, QUIET)], Act(a, QUIET));
    ContinueTwice(s, before, [Act(a, QUIET)] + [Act(a, QUIET)]);
    more := before + ([Act(a, QUIET)] + [Act(a, QUIET)]);
  }

  /** In any reachable state some continuation posts a further release of the order without a further acceptance, if and
      only if an actor has one to do, the payment succeeded, and the share is positive. */
  lemma ReleaseIff(s: State, o: int64)
    requires Reachable(s) && o in s.db.orders
    ensures (exists more :: ReleasesMore(s, more, o)) <==> Releasing(s, o)
  {
    hide *;
    if Releasing(s, o) {
      ReachableInv(s);
      ReachableCheckouts(s);
      var more := ReleasingCanPost(s, o);
    } else {
      forall more: seq<Action> ensures !ReleasesMore(s, more, o) { NoneMore(s, more, o); }
    }
  }

  lemma NoneMore(s: State, more: seq<Action>, o: int64)
    requires Reachable(s) && o in s.db.orders && !Releasing(s, o)
    ensures !ReleasesMore(s, more, o)
  {
    hide Reachable, Releasing, Continue, Acceptances, Releases;
    var s' := Continue(s, more);
    if o in s'.db.orders && Acceptances(s'.db, o) == Acceptances(s.db, o) { LostReleaseIsPermanent(s, more, o); }
  }

  // ----- payments that are finished without success -----

  lemma OnlyWarranted(s: State, o: int64)
    requires Reachable(s) && !PaidFor(s.db, o)
    ensures Releases(s.db, o) == 0 && Count(s.db.ledger, o, Refund) == 0
  {
    hide Reachable, CheckoutInv, PaymentRowsOk, IntentsOk, Charged, PaidFor;
    ReachableCheckouts(s);
    RowsParts(s.db);
    if Releases(s.db, o) > 0 { var e := Counted(s.db.ledger, o, Tag.Release); }
    if Count(s.db.ledger, o, Refund) > 0 {
      var e := Counted(s.db.ledger, o, Refund);
      ChargedIsPaid(s.db, o);
    }
  }

  lemma ChargedIsPaid(db: Db, o: int64)
    ensures Charged(db, o) ==> PaidFor(db, o)
  {
    if Charged(db, o) {
      var i: nat :| IntentOf(db, i, o) && db.intents[i].status == Succeeded && db.intents[i].chargeRef != "";
    }
  }

  /** An order whose payment is finished, but not as a success, never sees a release or a refund, even if a success
      reported later has started it. */
  lemma {:induction false} UnpaidForever(s: State, more: seq<Action>, o: int64)
    requires Reachable(s) && Finished(s.db, o) && !PaidFor(s.db, o)
    ensures var s' := Continue(s, more);
      && Finished(s'.db, o) && !PaidFor(s'.db, o)
      && Releases(s'.db, o) == 0 && Count(s'.db.ledger, o, Refund) == 0
    decreases |more|
  {
    hide *;
    if more == [] {
      ContinueNothing(s);
      OnlyWarranted(s, o);
    } else {
      var n := |more| - 1;
      var before := Continue(s, more[..n]);
      UnpaidForever(s, more[..n], o);
      assert more[..n] + [more[n]] == more;
      ContinueStep(s, more[..n], more[n]);
      ContinueReachable(s, more[..n]);
      ContinueReachable(s, more);
      StepEvolves(before, more[n]);
      FinishedStays(before.db, Continue(s, more).db, o);
      ReachableCheckouts(Continue(s, more));
      RowsParts(Continue(s, more).db);
      if PaidFor(Continue(s, more).db, o) { PaidForBefore(before.db, Continue(s, more).db, o); }
      OnlyWarranted(Continue(s, more), o);
    }
  }
}
