/** What whole runs of captures, releases and refunds do to the books. */
module Bookkeeping {
  import opened Results
  import opened Int64
  import opened Ledger

  /** Lower-case form of a currency code. */
  function Lower(text: string): (r: string)
    ensures |r| == |text|
  {
    seq(|text|, i requires 0 <= i < |text| => if 'A' <= text[i] <= 'Z' then (text[i] as int + 32) as char else text[i])
  }

  /** Capital letters only; and what is in lower case stays. */
  lemma LowerIs(text: string)
    ensures Lower("USD") == Lower("UsD") == "usd"
    ensures (forall i :: 0 <= i < |text| ==> !('A' <= text[i] <= 'Z')) <==> Lower(text) == text
  {
    assert Lower("USD") == "usd" && Lower("UsD") == "usd";
    forall i | 0 <= i < |text| && 'A' <= text[i] <= 'Z' ensures Lower(text)[i] != text[i] { }
  }

  lemma LowerTwice(text: string)
    ensures Lower(Lower(text)) == Lower(text)
  {
  }

  /** A capture is posted in the currency as stored; releases and refunds in its lower-case form. */
  function PostedCurrency(e: Event): string
  {
    if e.Captured? then e.bill.currency else Lower(e.bill.currency)
  }

  /** The group the builders produce for an event. */
  function Entries(e: Event): seq<Entry>
    requires Postable(e)
  {
    match e
    case Captured(b) => CaptureEntries(b.order, b.seller, b.total, b.fee, b.currency)
    case Released(b) => ReleaseEntries(b.order, b.seller, Payable(b), Lower(b.currency))
    case Refunded(b, fromAvailable) =>
      RefundEntries(b.order, b.seller, b.total, b.fee, Payable(b), fromAvailable, Lower(b.currency))
  }

  predicate AllPostable(events: seq<Event>)
  {
    forall e :: e in events ==> Postable(e)
  }

  function Journal(events: seq<Event>): seq<Entry>
    requires AllPostable(events)
  {
    if events == [] then [] else Journal(events[..|events| - 1]) + Entries(events[|events| - 1])
  }

  lemma JournalStep(events: seq<Event>, e: Event)
    requires AllPostable(events) && Postable(e)
    ensures AllPostable(events + [e]) && Journal(events + [e]) == Journal(events) + Entries(e)
  {
    assert (events + [e])[..|events|] == events;
  }

  // ----- one event -----

  function Owner(kind: Kind, b: Bill): Option<int64>
  {
    if kind.SellerPending? || kind.SellerAvailable? then Some(b.seller) else None
  }

  /** The change an event makes to each kind of account. */
  function Effect(e: Event, kind: Kind): int
    requires Postable(e)
  {
    var b := e.bill;
    match e
    case Captured(_) => (match kind
      case ProviderClearing => -(b.total as int)
      case PlatformRevenue => b.fee
      case SellerPending => Payable(b)
      case _ => 0)
    case Released(_) => (match kind
      case SellerPending => -(Payable(b) as int)
      case SellerAvailable => Payable(b)
      case _ => 0)
    case Refunded(_, fromAvailable) => (match kind
      case ProviderClearing => b.total
      case PlatformRevenue => -(b.fee as int)
      case SellerPending => if fromAvailable then 0 else -(Payable(b) as int)
      case SellerAvailable => if fromAvailable then -(Payable(b) as int) else 0
      case _ => 0)
  }

  /** A way of picking entries that looks only at kind, owner, currency and order. */
  ghost predicate Sees(pick: Entry -> bool, e: Event, kind: Kind, seen: bool)
  {
    forall x: Entry ::
      x.account == Account(kind, Owner(kind, e.bill), PostedCurrency(e)) && x.order == Some(e.bill.order) ==>
        pick(x) == seen
  }

  /** The kinds of account a way of picking sees in the group of an event. */
  ghost predicate SeesKinds(pick: Entry -> bool, e: Event, kinds: set<Kind>)
  {
    forall kind :: Sees(pick, e, kind, kind in kinds)
  }

  function EffectOn(e: Event, kinds: set<Kind>): int
    requires Postable(e)
  {
    (if PlatformRevenue in kinds then Effect(e, PlatformRevenue) else 0)
    + (if SellerPending in kinds then Effect(e, SellerPending) else 0)
    + (if SellerAvailable in kinds then Effect(e, SellerAvailable) else 0)
    + (if ProviderClearing in kinds then Effect(e, ProviderClearing) else 0)
  }

  lemma LegSum(kind: Kind, direction: Direction, amount: int64, e: Event, text: string, pick: Entry -> bool,
    kinds: set<Kind>)
    requires SeesKinds(pick, e, kinds)
    ensures Sum(Leg(kind, Owner(kind, e.bill), direction, amount, PostedCurrency(e), e.bill.order, text), pick)
         == if kind in kinds
           then Signed(Leg(kind, Owner(kind, e.bill), direction, amount, PostedCurrency(e), e.bill.order, text)[0])
           else 0
  {
    var x := Leg(kind, Owner(kind, e.bill), direction, amount, PostedCurrency(e), e.bill.order, text)[0];
    assert Sees(pick, e, kind, kind in kinds);
    SumLeg(x, pick);
  }

  /** The posted group changes the accounts it is meant to change, by the amounts it is meant to. */
  lemma EventSum(e: Event, pick: Entry -> bool, kinds: set<Kind>)
    requires Postable(e) && SeesKinds(pick, e, kinds)
    ensures Sum(Entries(e), pick) == EffectOn(e, kinds)
  {
    match e
    case Captured(b) => CaptureSum(e, pick, kinds);
    case Released(b) => ReleaseSum(e, pick, kinds);
    case Refunded(b, fromAvailable) => RefundSum(e, pick, kinds);
  }

  lemma CaptureSum(e: Event, pick: Entry -> bool, kinds: set<Kind>)
    requires e.Captured? && Postable(e) && SeesKinds(pick, e, kinds)
    ensures Sum(Entries(e), pick) == EffectOn(e, kinds)
  {
    var b, currency := e.bill, PostedCurrency(e);
    hide SeesKinds, Sum;
    var clearing := Leg(ProviderClearing, None, Debit, b.total, currency, b.order, "payment captured");
    var revenue := if b.fee > 0 then Leg(PlatformRevenue, None, Credit, b.fee, currency, b.order, "platform fee")
      else [];
    var pending := if b.total - b.fee > 0
      then Leg(SellerPending, Some(b.seller), Credit, b.total - b.fee, currency,
        b.order, "seller payable, pending acceptance") else [];
    LegSum(ProviderClearing, Debit, b.total, e, "payment captured", pick, kinds);
    SumLeg(clearing[0], pick);
    if b.fee > 0 { LegSum(PlatformRevenue, Credit, b.fee, e, "platform fee", pick, kinds); }
    if b.total - b.fee > 0 {
      LegSum(SellerPending, Credit, b.total - b.fee, e, "seller payable, pending acceptance", pick, kinds);
    }
    SumConcat(clearing, revenue, pick);
    SumConcat(clearing + revenue, pending, pick);
    assert Entries(e) == clearing + revenue + pending;
  }

  lemma ReleaseSum(e: Event, pick: Entry -> bool, kinds: set<Kind>)
    requires e.Released? && Postable(e) && SeesKinds(pick, e, kinds)
    ensures Sum(Entries(e), pick) == EffectOn(e, kinds)
  {
    var b, currency := e.bill, PostedCurrency(e);
    hide SeesKinds, Sum;
    LegSum(SellerPending, Debit, Payable(b), e, "seller earnings released", pick, kinds);
    LegSum(SellerAvailable, Credit, Payable(b), e, "seller earnings available", pick, kinds);
    SumConcat(Leg(SellerPending, Some(b.seller), Debit, Payable(b), currency, b.order, "seller earnings released"),
      Leg(SellerAvailable, Some(b.seller), Credit, Payable(b), currency, b.order, "seller earnings available"), pick);
  }

  lemma RefundSum(e: Event, pick: Entry -> bool, kinds: set<Kind>)
    requires e.Refunded? && Postable(e) && SeesKinds(pick, e, kinds)
    ensures Sum(Entries(e), pick) == EffectOn(e, kinds)
  {
    var b, currency := e.bill, PostedCurrency(e);
    hide SeesKinds, Sum, Wrap;
    var from := if e.fromAvailable then SellerAvailable else SellerPending;
    SplitGuard(b.total, b.fee, Payable(b));
    var issued := Leg(Refunds, None, Debit, b.total, currency, b.order, "refund issued");
    var routed := Leg(ProviderClearing, None, Credit, b.total, currency, b.order, "refund routed to buyer");
    var revenue := if b.fee > 0
      then Leg(PlatformRevenue, None, Debit, b.fee, currency, b.order, "platform fee refunded") else [];
    var share := if Payable(b) > 0
      then Leg(from, Some(b.seller), Debit, Payable(b), currency, b.order, "seller payable refunded") else [];
    var funded := Leg(Refunds, None, Credit, Wrap(b.fee + Payable(b)), currency,
      b.order, "refund funded from fee/payable shares");
    LegSum(Refunds, Debit, b.total, e, "refund issued", pick, kinds);
    LegSum(ProviderClearing, Credit, b.total, e, "refund routed to buyer", pick, kinds);
    SumLeg(issued[0], pick);
    if b.fee > 0 { LegSum(PlatformRevenue, Debit, b.fee, e, "platform fee refunded", pick, kinds); }
    if Payable(b) > 0 { LegSum(from, Debit, Payable(b), e, "seller payable refunded", pick, kinds); }
    LegSum(Refunds, Credit, Wrap(b.fee + Payable(b)), e, "refund funded from fee/payable shares", pick, kinds);
    SumConcat(issued, routed, pick);
    SumConcat(issued + routed, revenue, pick);
    SumConcat(issued + routed + revenue, share, pick);
    SumConcat(issued + routed + revenue + share, funded, pick);
    assert Entries(e) == issued + routed + revenue + share + funded;
  }

  // ----- conservation -----

  /** Over any run of events, every currency sums to zero over all accounts. */
  lemma {:induction false} CurrenciesSumToZero(events: seq<Event>, currency: string)
    requires AllPostable(events)
    ensures Balance(Journal(events), currency) == 0
  {
    if events == [] {
    } else {
      var n := |events| - 1;
      CurrenciesSumToZero(events[..n], currency);
      GroupBalances(events[n], currency);
      hide Entries, Sum;
      SumConcat(Journal(events[..n]), Entries(events[n]), InCurrency(currency));
    }
  }

  lemma GroupBalances(e: Event, currency: string)
    requires Postable(e)
    ensures Balance(Entries(e), currency) == 0 && Acceptable(Entries(e))
  {
    hide Acceptable, Balance, Wrap;
    match e
    case Captured(b) => CaptureBalances(b.order, b.seller, b.total, b.fee, b.currency);
    case Released(b) => ReleaseBalances(b.order, b.seller, Payable(b), Lower(b.currency));
    case Refunded(b, fromAvailable) =>
      SplitGuard(b.total, b.fee, Payable(b));
      RefundBalances(b.order, b.seller, b.total, b.fee, Payable(b), fromAvailable, Lower(b.currency));
  }

  /** Account balances added up over a set of accounts. */
  ghost function SumOver(entries: seq<Entry>, accounts: set<Account>): int
  {
    if accounts == {} then 0
    else
      var a :| a in accounts;
      Net(entries, a) + SumOver(entries, accounts - {a})
  }

  /** Adding account balances over all accounts of a currency gives that currency's total. */
  lemma {:induction false} AccountsPartitionCurrency(entries: seq<Entry>, accounts: set<Account>, currency: string)
    requires forall a :: a in accounts ==> a.currency == currency
    requires forall e :: e in entries && e.account.currency == currency ==> e.account in accounts
    ensures SumOver(entries, accounts) == Balance(entries, currency)
    decreases |entries|
  {
    if entries == [] {
      NothingPosted(accounts);
    } else {
      var n := |entries| - 1;
      AccountsPartitionCurrency(entries[..n], accounts, currency);
      OneMoreEntry(entries[..n], entries[n], accounts);
      assert entries == entries[..n] + [entries[n]] && entries[n] in entries;
      assert Balance(entries, currency) == Balance(entries[..n], currency)
        + if InCurrency(currency)(entries[n]) then Signed(entries[n]) else 0;
      assert InCurrency(currency)(entries[n]) == (entries[n].account.currency == currency);
    }
  }

  lemma {:induction false} NothingPosted(accounts: set<Account>)
    ensures SumOver([], accounts) == 0
  {
    if accounts != {} {
      var a :| a in accounts && SumOver([], accounts) == Net([], a) + SumOver([], accounts - {a});
      NothingPosted(accounts - {a});
      assert Net([], a) == 0;
      assert SumOver([], accounts) == 0;
    } else {
      assert SumOver([], {}) == 0;
    }
  }

  lemma {:induction false} OneMoreEntry(entries: seq<Entry>, e: Entry, accounts: set<Account>)
    ensures SumOver(entries + [e], accounts) == SumOver(entries, accounts)
      + if e.account in accounts then Signed(e) else 0
    decreases |accounts|
  {
    if accounts != {} {
      var a :| a in accounts
        && SumOver(entries + [e], accounts) == Net(entries + [e], a) + SumOver(entries + [e], accounts - {a});
      OneMoreEntry(entries, e, accounts - {a});
      SumLeg(e, OnAccount(a));
      SumConcat(entries, [e], OnAccount(a));
      RemoveAccount(entries, accounts, a);
      assert OnAccount(a)(e) == (e.account == a);
      assert Net(entries + [e], a) == Net(entries, a) + if e.account == a then Signed(e) else 0;
      assert SumOver(entries, accounts) == Net(entries, a) + SumOver(entries, accounts - {a});
      assert SumOver(entries + [e], accounts) == SumOver(entries, accounts)
        + if e.account in accounts then Signed(e) else 0;
    } else {
      assert SumOver(entries + [e], accounts) == 0;
      assert SumOver(entries, accounts) == 0;
      assert e.account !in accounts;
    }
  }

  lemma {:induction false} RemoveAccount(entries: seq<Entry>, accounts: set<Account>, a: Account)
    requires a in accounts
    ensures SumOver(entries, accounts) == Net(entries, a) + SumOver(entries, accounts - {a})
    decreases |accounts|
  {
    var b :| b in accounts && SumOver(entries, accounts) == Net(entries, b) + SumOver(entries, accounts - {b});
    if a != b {
      RemoveAccount(entries, accounts - {b}, a);
      RemoveAccount(entries, accounts - {a}, b);
      assert accounts - {a} - {b} == accounts - {b} - {a};
    }
  }

  // ----- one order over a run -----

  function OfOrder(kind: Kind, order: int64): Entry -> bool
  {
    (e: Entry) => e.account.kind == kind && e.order == Some(order)
  }

  /** What an order's postings leave on the accounts of one kind. */
  function OrderNet(entries: seq<Entry>, kind: Kind, order: int64): int
  {
    Sum(entries, OfOrder(kind, order))
  }

  datatype Tag = Capture | Release | Refund

  function TagOf(e: Event): Tag
  {
    match e
    case Captured(_) => Capture
    case Released(_) => Release
    case Refunded(_, _) => Refund
  }

  /** How often an event has been posted for an order. */
  function Count(events: seq<Event>, order: int64, tag: Tag): nat
  {
    if events == [] then 0
    else
      var e := events[|events| - 1];
      Count(events[..|events| - 1], order, tag) + if e.bill.order == order && TagOf(e) == tag then 1 else 0
  }

  lemma CountStep(events: seq<Event>, e: Event, order: int64, tag: Tag)
    ensures Count(events + [e], order, tag) == Count(events, order, tag)
      + if e.bill.order == order && TagOf(e) == tag then 1 else 0
  {
    assert (events + [e])[..|events|] == events;
  }

  /** Every event of the order was posted on the same terms. */
  predicate OnTerms(events: seq<Event>, b: Bill)
  {
    forall e :: e in events && e.bill.order == b.order ==> e.bill == b
  }

  /** Captures less refunds: how often the order's money is still held. */
  function Kept(events: seq<Event>, order: int64): int
  {
    Count(events, order, Capture) - Count(events, order, Refund)
  }

  /** The books of one order, in terms of how often it was captured, released and refunded. */
  lemma {:induction false} OrderBalances(events: seq<Event>, b: Bill)
    requires AllPostable(events) && OnTerms(events, b) && Billable(b)
    ensures var kept := Kept(events, b.order); var journal := Journal(events);
      && OrderNet(journal, SellerPending, b.order) + OrderNet(journal, SellerAvailable,
        b.order) == (b.total - b.fee) * kept
      && OrderNet(journal, PlatformRevenue, b.order) == b.fee * kept
      && OrderNet(journal, ProviderClearing, b.order) == -b.total * kept
      && OrderNet(journal, Refunds, b.order) == 0
  {
    hide *;
    if events == [] {
      NoEvents(b);
    } else {
      var before, e := events[..|events| - 1], events[|events| - 1];
      assert events == before + [e];
      LastEvent(before, e, b);
      OrderBalances(before, b);
      OrderKindStep(before, e, b, SellerPending);
      OrderKindStep(before, e, b, SellerAvailable);
      OrderKindStep(before, e, b, PlatformRevenue);
      OrderKindStep(before, e, b, ProviderClearing);
      OrderKindStep(before, e, b, Refunds);
      KeptStep(before, e, b);
    }
  }

  lemma NoEvents(b: Bill)
    ensures Kept([], b.order) == 0 && AllPostable([]) && forall kind :: OrderNet(Journal([]), kind, b.order) == 0
  {
  }

  lemma LastEvent(before: seq<Event>, e: Event, b: Bill)
    requires AllPostable(before + [e]) && OnTerms(before + [e], b)
    ensures AllPostable(before) && OnTerms(before, b) && Postable(e) && (e.bill.order == b.order ==> e.bill == b)
  {
    hide Postable;
    assert e in before + [e];
    forall x | x in before ensures x in before + [e] { }
  }

  /** The change in an order's books on one kind of account, as a multiple of its terms. */
  function Change(e: Event, b: Bill): int
  {
    if e.bill.order != b.order then 0 else match e case Captured(_) => 1 case Released(_) => 0 case Refunded(_, _) => -1
  }

  lemma KeptStep(before: seq<Event>, e: Event, b: Bill)
    requires Billable(b) && Postable(e) && (e.bill.order == b.order ==> e.bill == b)
    ensures var kept, next := Kept(before, b.order), Kept(before + [e], b.order);
      && next == kept + Change(e, b)
      && (b.total - b.fee) * next == (b.total - b.fee) * kept + EffectIf(e, b, SellerPending) + EffectIf(e, b,
        SellerAvailable)
      && b.fee * next == b.fee * kept + EffectIf(e, b, PlatformRevenue)
      && -b.total * next == -b.total * kept + EffectIf(e, b, ProviderClearing)
      && EffectIf(e, b, Refunds) == 0
  {
    CountStep(before, e, b.order, Capture);
    CountStep(before, e, b.order, Refund);
    hide Count;
    var kept, change := Kept(before, b.order), Change(e, b);
    Spread(b.total - b.fee, kept, change);
    Spread(b.fee, kept, change);
    Spread(-b.total, kept, change);
  }

  lemma Spread(x: int, y: int, z: int)
    ensures x * (y + z) == x * y + x * z
  {
  }

  function EffectIf(e: Event, b: Bill, kind: Kind): int
    requires Postable(e)
  {
    if e.bill.order == b.order then Effect(e, kind) else 0
  }

  lemma OrderKindStep(before: seq<Event>, e: Event, b: Bill, kind: Kind)
    requires AllPostable(before) && Postable(e) && AllPostable(before + [e])
    ensures OrderNet(Journal(before + [e]), kind, b.order)
      == OrderNet(Journal(before), kind, b.order) + EffectIf(e, b, kind)
  {
    var kinds: set<Kind> := if e.bill.order == b.order then {kind} else {};
    assert SeesKinds(OfOrder(kind, b.order), e, kinds);
    EventSum(e, OfOrder(kind, b.order), kinds);
    assert EffectOn(e, kinds) == EffectIf(e, b, kind);
    JournalStep(before, e);
    hide Journal, Sum, Entries;
    SumConcat(Journal(before), Entries(e), OfOrder(kind, b.order));
  }

  // ----- pending and available -----

  /** How often a refund of the order was drawn from the available account, or from the pending one. */
  function Drawn(events: seq<Event>, order: int64, fromAvailable: bool): nat
  {
    if events == [] then 0
    else
      var e := events[|events| - 1];
      Drawn(events[..|events| - 1], order, fromAvailable) + DrawnBy(e, order, fromAvailable)
  }

  function DrawnBy(e: Event, order: int64, fromAvailable: bool): nat
  {
    if e.bill.order == order && e.Refunded? && e.fromAvailable == fromAvailable then 1 else 0
  }

  lemma DrawnStep(events: seq<Event>, e: Event, order: int64, fromAvailable: bool)
    ensures Drawn(events + [e], order, fromAvailable)
      == Drawn(events, order, fromAvailable) + DrawnBy(e, order, fromAvailable)
  {
    assert (events + [e])[..|events|] == events;
  }

  /** Every refund is drawn from one of the two. */
  lemma {:induction false} DrawnAreRefunds(events: seq<Event>, order: int64)
    ensures Drawn(events, order, true) + Drawn(events, order, false) == Count(events, order, Refund)
  {
    if events != [] {
      DrawnAreRefunds(events[..|events| - 1], order);
    }
  }

  /** What is left pending, in shares of the seller: captures less releases and refunds drawn from there. */
  function PendingShares(events: seq<Event>, order: int64): int
  {
    Count(events, order, Capture) - Count(events, order, Release) - Drawn(events, order, false)
  }

  /** What is left available: releases less refunds drawn from there. */
  function AvailableShares(events: seq<Event>, order: int64): int
  {
    Count(events, order, Release) - Drawn(events, order, true)
  }

  /** The seller's two accounts, each on its own, over any run. */
  lemma {:induction false} SellerBalances(events: seq<Event>, b: Bill)
    requires AllPostable(events) && OnTerms(events, b) && Billable(b)
    ensures OrderNet(Journal(events), SellerPending, b.order) == (b.total - b.fee) * PendingShares(events, b.order)
    ensures OrderNet(Journal(events), SellerAvailable, b.order) == (b.total - b.fee) * AvailableShares(events, b.order)
    ensures OrderNet(Journal(events), Reserves, b.order) == 0
  {
    hide *;
    if events == [] {
      NoEvents(b);
      NoShares(b);
    } else {
      var before, e := events[..|events| - 1], events[|events| - 1];
      assert events == before + [e];
      LastEvent(before, e, b);
      SellerBalances(before, b);
      OrderKindStep(before, e, b, SellerPending);
      OrderKindStep(before, e, b, SellerAvailable);
      OrderKindStep(before, e, b, Reserves);
      SharesStep(before, e, b);
    }
  }

  lemma NoShares(b: Bill)
    ensures (b.total - b.fee) * PendingShares([], b.order) == (b.total - b.fee) * AvailableShares([], b.order) == 0
  {
  }

  lemma SharesStep(before: seq<Event>, e: Event, b: Bill)
    requires Billable(b) && Postable(e) && (e.bill.order == b.order ==> e.bill == b)
    ensures (b.total - b.fee) * PendingShares(before + [e], b.order)
         == (b.total - b.fee) * PendingShares(before, b.order) + EffectIf(e, b, SellerPending)
    ensures (b.total - b.fee) * AvailableShares(before + [e], b.order)
         == (b.total - b.fee) * AvailableShares(before, b.order) + EffectIf(e, b, SellerAvailable)
    ensures EffectIf(e, b, Reserves) == 0
  {
    CountStep(before, e, b.order, Capture);
    CountStep(before, e, b.order, Release);
    DrawnStep(before, e, b.order, true);
    DrawnStep(before, e, b.order, false);
    hide Count, Drawn;
    var p, a := PendingShares(before, b.order), AvailableShares(before, b.order);
    Spread(b.total - b.fee, p, PendingShares(before + [e], b.order) - p);
    Spread(b.total - b.fee, a, AvailableShares(before + [e], b.order) - a);
  }

  // ----- when a refund undoes a capture -----

  function PostingOn(account: Account, order: int64): Entry -> bool
  {
    (e: Entry) => e.account == account && e.order == Some(order)
  }

  /** What an order's postings leave on one account. */
  function OrderOn(entries: seq<Entry>, account: Account, order: int64): int
  {
    Sum(entries, PostingOn(account, order))
  }

  predicate SameUpToCase(a: Account, b: Account)
  {
    a.kind == b.kind && a.owner == b.owner && Lower(a.currency) == Lower(b.currency)
  }

  function PostingUpToCase(account: Account, order: int64): Entry -> bool
  {
    (e: Entry) => SameUpToCase(e.account, account) && e.order == Some(order)
  }

  /** The same, taking currencies up to letter case. */
  function OrderOnUpToCase(entries: seq<Entry>, account: Account, order: int64): int
  {
    Sum(entries, PostingUpToCase(account, order))
  }

  /** The account an order uses for a kind, in a currency. */
  function OrderAccount(b: Bill, kind: Kind, currency: string): Account
  {
    Account(kind, Owner(kind, b), currency)
  }

  lemma UpToCaseEvent(e: Event, account: Account, b: Bill)
    requires Postable(e) && (e.bill.order == b.order ==> e.bill == b)
    ensures OrderOnUpToCase(Entries(e), account, b.order)
         == if SameUpToCase(OrderAccount(b, account.kind, b.currency), account) then EffectIf(e, b, account.kind) else 0
  {
    var mine := e.bill.order == b.order && SameUpToCase(OrderAccount(b, account.kind, b.currency), account);
    var kinds: set<Kind> := if mine then {account.kind} else {};
    LowerTwice(b.currency);
    assert SeesKinds(PostingUpToCase(account, b.order), e, kinds) by {
      hide Lower, Owner;
      forall kind: Kind ensures Sees(PostingUpToCase(account, b.order), e, kind, kind in kinds) { }
    }
    EventSum(e, PostingUpToCase(account, b.order), kinds);
    hide Sum, Entries, SeesKinds, Effect, Lower;
    SingleEffect(e, account.kind);
  }

  lemma ExactEvent(e: Event, account: Account, b: Bill)
    requires Postable(e) && (e.bill.order == b.order ==> e.bill == b)
    ensures OrderOn(Entries(e), account, b.order)
         == if account == OrderAccount(b, account.kind, PostedCurrency(e)) then EffectIf(e, b, account.kind) else 0
  {
    var mine := e.bill.order == b.order && account == OrderAccount(b, account.kind, PostedCurrency(e));
    var kinds: set<Kind> := if mine then {account.kind} else {};
    assert SeesKinds(PostingOn(account, b.order), e, kinds) by {
      hide Owner, PostedCurrency;
      forall kind: Kind ensures Sees(PostingOn(account, b.order), e, kind, kind in kinds) { }
    }
    EventSum(e, PostingOn(account, b.order), kinds);
    hide Sum, Entries, SeesKinds, Effect, PostedCurrency;
    SingleEffect(e, account.kind);
  }

  lemma SingleEffect(e: Event, kind: Kind)
    requires Postable(e)
    ensures EffectOn(e, {kind}) == Effect(e, kind) && EffectOn(e, {}) == 0
  {
  }

  lemma JournalSum(before: seq<Event>, e: Event, pick: Entry -> bool)
    requires AllPostable(before) && Postable(e) && AllPostable(before + [e])
    ensures Sum(Journal(before + [e]), pick) == Sum(Journal(before), pick) + Sum(Entries(e), pick)
  {
    JournalStep(before, e);
    hide Journal, Sum, Entries;
    SumConcat(Journal(before), Entries(e), pick);
  }

  /** Up to letter case, an order's postings are on its own account of each kind, and nowhere else. */
  lemma {:induction false} PostingsByKind(events: seq<Event>, b: Bill, account: Account)
    requires AllPostable(events) && OnTerms(events, b)
    ensures OrderOnUpToCase(Journal(events), account, b.order)
         == if SameUpToCase(OrderAccount(b, account.kind, b.currency), account)
           then OrderNet(Journal(events), account.kind, b.order) else 0
  {
    hide Lower, SameUpToCase, OnTerms, Postable, Effect, Owner;
    if events != [] {
      var before, e := events[..|events| - 1], events[|events| - 1];
      assert events == before + [e];
      LastEvent(before, e, b);
      PostingsByKind(before, b, account);
      UpToCaseEvent(e, account, b);
      OrderKindStep(before, e, b, account.kind);
      JournalSum(before, e, PostingUpToCase(account, b.order));
      hide Journal, Sum, Entries, AllPostable;
    }
  }

  /** To the letter the same holds when the currency is stored in lower case. */
  lemma {:induction false} PostingsToTheLetter(events: seq<Event>, b: Bill, account: Account)
    requires AllPostable(events) && OnTerms(events, b) && Lower(b.currency) == b.currency
    ensures OrderOn(Journal(events), account, b.order)
         == if account == OrderAccount(b, account.kind, b.currency)
           then OrderNet(Journal(events), account.kind, b.order) else 0
  {
    hide Lower, OnTerms, Postable, Owner, Effect;
    if events != [] {
      var before, e := events[..|events| - 1], events[|events| - 1];
      assert events == before + [e];
      LastEvent(before, e, b);
      PostingsToTheLetter(before, b, account);
      ExactEvent(e, account, b);
      OrderKindStep(before, e, b, account.kind);
      JournalSum(before, e, PostingOn(account, b.order));
      hide Journal, Sum, Entries, AllPostable;
    }
  }

  /** Otherwise only the captures stand in the currency as stored. */
  lemma {:induction false} CapturesToTheLetter(events: seq<Event>, b: Bill)
    requires AllPostable(events) && OnTerms(events, b) && Lower(b.currency) != b.currency
    ensures OrderOn(Journal(events), OrderAccount(b, ProviderClearing, b.currency), b.order)
      == -(b.total as int) * Count(events, b.order, Capture)
  {
    hide *;
    if events == [] {
      NoClearing(b);
    } else {
      var before, e := events[..|events| - 1], events[|events| - 1];
      assert events == before + [e];
      LastEvent(before, e, b);
      CapturesToTheLetter(before, b);
      ClearingStep(e, b);
      JournalSum(before, e, PostingOn(OrderAccount(b, ProviderClearing, b.currency), b.order));
      ClearingSum(Journal(before), Journal(events), Entries(e), b);
      CountStep(before, e, b.order, Capture);
      Spread(-(b.total as int), Count(before, b.order, Capture),
        Count(events, b.order, Capture) - Count(before, b.order, Capture));
    }
  }

  lemma NoClearing(b: Bill)
    ensures OrderOn(Journal([]), OrderAccount(b, ProviderClearing, b.currency), b.order)
      == -(b.total as int) * Count([], b.order, Capture)
  {
  }

  lemma ClearingStep(e: Event, b: Bill)
    requires Postable(e) && (e.bill.order == b.order ==> e.bill == b) && Lower(b.currency) != b.currency
    ensures OrderOn(Entries(e), OrderAccount(b, ProviderClearing, b.currency), b.order)
         == -(b.total as int) * if e.bill.order == b.order && TagOf(e) == Capture then 1 else 0
  {
    hide Lower, Entries, OrderOn;
    ExactEvent(e, OrderAccount(b, ProviderClearing, b.currency), b);
  }

  lemma ClearingSum(before: seq<Entry>, after: seq<Entry>, group: seq<Entry>, b: Bill)
    requires var pick := PostingOn(OrderAccount(b, ProviderClearing, b.currency), b.order);
      Sum(after, pick) == Sum(before, pick) + Sum(group, pick)
    ensures var clearing := OrderAccount(b, ProviderClearing, b.currency);
      OrderOn(after, clearing, b.order) == OrderOn(before, clearing, b.order) + OrderOn(group, clearing, b.order)
  {
    hide Sum;
  }

  /** The refund was drawn from where the money was: from the available account exactly as often as the seller's share
      was released. */
  predicate DrawnWhereHeld(events: seq<Event>, b: Bill)
  {
    b.total - b.fee == 0 || Count(events, b.order, Release) == Drawn(events, b.order, true)
  }

  /** What one capture and one refund leave on each kind of account. */
  lemma KindsAfterRefund(events: seq<Event>, b: Bill, kind: Kind)
    requires AllPostable(events) && OnTerms(events, b) && Billable(b)
    requires Count(events, b.order, Capture) == 1 && Count(events, b.order, Refund) == 1
    ensures DrawnWhereHeld(events, b) ==> OrderNet(Journal(events), kind, b.order) == 0
    ensures !DrawnWhereHeld(events, b) ==> OrderNet(Journal(events), SellerPending, b.order) != 0
  {
    hide *;
    OrderBalances(events, b);
    SellerBalances(events, b);
    SharesAfterRefund(events, b);
    match kind
    case SellerPending =>
    case SellerAvailable =>
    case PlatformRevenue => NoProduct(b.fee, Kept(events, b.order));
    case ProviderClearing => NoProduct(-(b.total as int), Kept(events, b.order));
    case Refunds =>
    case Reserves =>
  }

  lemma SharesAfterRefund(events: seq<Event>, b: Bill)
    requires Count(events, b.order, Capture) == 1 && Count(events, b.order, Refund) == 1
    ensures Kept(events, b.order) == 0
    ensures (b.total - b.fee) * PendingShares(events, b.order) == 0 <==> DrawnWhereHeld(events, b)
    ensures (b.total - b.fee) * AvailableShares(events, b.order) == 0 <==> DrawnWhereHeld(events, b)
  {
    DrawnAreRefunds(events, b.order);
    hide Count, Drawn;
    NoProduct(b.total - b.fee, PendingShares(events, b.order));
    NoProduct(b.total - b.fee, AvailableShares(events, b.order));
  }

  lemma NoProduct(x: int, y: int)
    ensures x * y == 0 <==> x == 0 || y == 0
  {
  }

  /** With one capture and one refund in any run, and any releases, the order leaves nothing on any account, up to the
      letter case of currencies, if and only if the refund was drawn from where the seller's share was. */
  lemma RefundRestoresUpToCase(events: seq<Event>, b: Bill)
    requires AllPostable(events) && OnTerms(events, b) && Billable(b)
    requires Count(events, b.order, Capture) == 1 && Count(events, b.order, Refund) == 1
    ensures (forall account :: OrderOnUpToCase(Journal(events), account, b.order) == 0) <==> DrawnWhereHeld(events, b)
  {
    hide *;
    forall account: Account
      ensures DrawnWhereHeld(events, b) ==> OrderOnUpToCase(Journal(events), account, b.order) == 0
    {
      PostingsByKind(events, b, account);
      KindsAfterRefund(events, b, account.kind);
    }
    if !DrawnWhereHeld(events, b) {
      var pending := OrderAccount(b, SellerPending, b.currency);
      OwnAccount(b, SellerPending);
      PostingsByKind(events, b, pending);
      KindsAfterRefund(events, b, SellerPending);
      assert OrderOnUpToCase(Journal(events), pending, b.order) != 0;
    }
  }

  lemma OwnAccount(b: Bill, kind: Kind)
    ensures OrderAccount(b, kind, b.currency).kind == kind
    ensures SameUpToCase(OrderAccount(b, kind, b.currency), OrderAccount(b, kind, b.currency))
  {
  }

  /** To the letter, if and only if moreover the order's currency is stored in lower case. */
  lemma RefundRestoresExactly(events: seq<Event>, b: Bill)
    requires AllPostable(events) && OnTerms(events, b) && Billable(b)
    requires Count(events, b.order, Capture) == 1 && Count(events, b.order, Refund) == 1
    ensures (forall account :: OrderOn(Journal(events), account, b.order) == 0)
      <==> Lower(b.currency) == b.currency && DrawnWhereHeld(events, b)
  {
    hide *;
    if Lower(b.currency) != b.currency {
      var clearing := OrderAccount(b, ProviderClearing, b.currency);
      CapturesToTheLetter(events, b);
      PositiveTotal(b);
      assert OrderOn(Journal(events), clearing, b.order) != 0;
    } else {
      forall account: Account
        ensures DrawnWhereHeld(events, b) ==> OrderOn(Journal(events), account, b.order) == 0
      {
        PostingsToTheLetter(events, b, account);
        KindsAfterRefund(events, b, account.kind);
      }
      var pending := OrderAccount(b, SellerPending, b.currency);
      OwnAccount(b, SellerPending);
      PostingsToTheLetter(events, b, pending);
      KindsAfterRefund(events, b, SellerPending);
      assert !DrawnWhereHeld(events, b) ==> OrderOn(Journal(events), pending, b.order) != 0;
    }
  }

  lemma PositiveTotal(b: Bill)
    requires Billable(b)
    ensures b.total > 0
  {
  }
}
