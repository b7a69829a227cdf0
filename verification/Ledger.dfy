/** Double-entry postings: building balanced groups, validating them, and what they do to account balances. */
module Ledger {
  import opened Results
  import opened Int64

  datatype Kind = PlatformRevenue | SellerPending | SellerAvailable | Refunds | Reserves | ProviderClearing

  datatype Direction = Debit | Credit | Unknown(text: string)

  datatype Account = Account(kind: Kind, owner: Option<int64>, currency: string)

  datatype Entry = Entry(account: Account, direction: Direction, amount: int64, order: Option<int64>,
    description: string)

  datatype Rejection =
    | EmptyGroup
    | NonPositiveEntry(amount: int64)
    | BadDirection(text: string)
    | OffBalance(currency: string, off: int64)
    | NonPositiveAmount(amount: int64)
    | BadFee(fee: int64)
    | BadSplit
    | NoReason

  // ----- validation -----

  function Signed(e: Entry): int
  {
    var amount: int := e.amount;
    if e.direction.Credit? then amount else if e.direction.Debit? then -amount else 0
  }

  /** Credits minus debits over the entries that are picked out. */
  function Sum(entries: seq<Entry>, pick: Entry -> bool): int
  {
    if entries == [] then 0
    else
      var e := entries[|entries| - 1];
      Sum(entries[..|entries| - 1], pick) + if pick(e) then Signed(e) else 0
  }

  function InCurrency(currency: string): Entry -> bool
  {
    (e: Entry) => e.account.currency == currency
  }

  function OnAccount(account: Account): Entry -> bool
  {
    (e: Entry) => e.account == account
  }

  function Any(): Entry -> bool
  {
    (_: Entry) => true
  }

  function Balance(entries: seq<Entry>, currency: string): int
  {
    Sum(entries, InCurrency(currency))
  }

  /** The running balance of one account, as the balance queries report it. */
  function Net(entries: seq<Entry>, account: Account): int
  {
    Sum(entries, OnAccount(account))
  }

  function Total(entries: seq<Entry>): int
  {
    Sum(entries, Any())
  }

  lemma {:induction false} SumConcat(a: seq<Entry>, b: seq<Entry>, pick: Entry -> bool)
    ensures Sum(a + b, pick) == Sum(a, pick) + Sum(b, pick)
    decreases |b|
  {
    if b == [] {
      assert a + b == a;
    } else {
      var n := |b| - 1;
      SumConcat(a, b[..n], pick);
      assert (a + b)[..|a + b| - 1] == a + b[..n];
    }
  }

  lemma SumLeg(e: Entry, pick: Entry -> bool)
    ensures Sum([e], pick) == (if pick(e) then Signed(e) else 0)
    ensures Sum([], pick) == 0
  {
    assert [e][..0] == [];
  }

  predicate WellFormed(e: Entry)
  {
    e.amount > 0 && !e.direction.Unknown?
  }

  /** What the check accepts: 64-bit totals that come to zero in every currency. */
  ghost predicate Acceptable(entries: seq<Entry>)
  {
    && entries != []
    && (forall e :: e in entries ==> WellFormed(e))
    && (forall currency :: Wrap(Balance(entries, currency)) == 0)
  }

  ghost predicate Balanced(entries: seq<Entry>)
  {
    forall currency :: Balance(entries, currency) == 0
  }

  lemma BalanceStep(entries: seq<Entry>, i: nat, currency: string)
    requires i < |entries|
    ensures Balance(entries[..i + 1], currency)
         == Balance(entries[..i], currency) + if entries[i].account.currency == currency then Signed(entries[i]) else 0
  {
    assert entries[..i + 1][..i] == entries[..i];
  }

  /** Running 64-bit totals of the first n entries. */
  ghost predicate Tallied(balances: map<string, int64>, entries: seq<Entry>, n: nat)
    requires n <= |entries|
  {
    forall currency :: Wrap(Balance(entries[..n], currency)) == (if currency in balances then balances[currency] else 0)
  }

  lemma TallyStep(balances: map<string, int64>, entries: seq<Entry>, i: nat)
    requires i < |entries| && Tallied(balances, entries, i)
    ensures var e := entries[i];
      var before: int64 := if e.account.currency in balances then balances[e.account.currency] else 0;
      Tallied(balances[e.account.currency := Wrap(before + Signed(e))], entries, i + 1)
  {
    var e := entries[i];
    var before: int64 := if e.account.currency in balances then balances[e.account.currency] else 0;
    var after := balances[e.account.currency := Wrap(before + Signed(e))];
    forall currency: string
      ensures Wrap(Balance(entries[..i + 1], currency)) == (if currency in after then after[currency] else 0)
    {
      BalanceStep(entries, i, currency);
      assert Wrap(Balance(entries[..i], currency)) == (if currency in balances then balances[currency] else 0);
      WrapTwice(Balance(entries[..i], currency), Signed(e));
      hide Balance, Wrap, Signed;
    }
  }

  method Validate(entries: seq<Entry>) returns (r: Option<Rejection>)
    ensures r.None? <==> Acceptable(entries)
  {
    hide Wrap, Balance, Tallied;
    if |entries| == 0 {
      return Some(EmptyGroup);
    }
    var balances: map<string, int64> := map[];
    assert Tallied(balances, entries, 0) by { NothingTallied(entries); }
    for i := 0 to |entries|
      invariant forall e :: e in entries[..i] ==> WellFormed(e)
      invariant Tallied(balances, entries, i)
    {
      var e := entries[i];
      assert e in entries;
      if e.amount <= 0 {
        return Some(NonPositiveEntry(e.amount));
      }
      TallyStep(balances, entries, i);
      var before: int64 := if e.account.currency in balances then balances[e.account.currency] else 0;
      match e.direction
      case Debit => balances := balances[e.account.currency := Wrap(before - e.amount)];
      case Credit => balances := balances[e.account.currency := Wrap(before + e.amount)];
      case Unknown(text) => return Some(BadDirection(text));
    }
    assert entries[..|entries|] == entries;
    r := CheckZero(balances);
    TalliedMeansAcceptable(balances, entries);
  }

  lemma NothingTallied(entries: seq<Entry>)
    ensures Tallied(map[], entries, 0)
  {
  }

  lemma TalliedMeansAcceptable(balances: map<string, int64>, entries: seq<Entry>)
    requires Tallied(balances, entries, |entries|) && entries != [] && forall e :: e in entries ==> WellFormed(e)
    ensures Acceptable(entries) <==> forall currency :: currency in balances ==> balances[currency] == 0
  {
    assert entries[..|entries|] == entries;
    hide Balance, Wrap;
    if Acceptable(entries) {
      forall currency | currency in balances
        ensures balances[currency] == 0
      {
        assert Wrap(Balance(entries, currency)) == 0;
      }
    }
  }

  /** Any currency left over, in no particular order. */
  method CheckZero(balances: map<string, int64>) returns (r: Option<Rejection>)
    ensures r.None? <==> forall currency :: currency in balances ==> balances[currency] == 0
    ensures r.Some? ==>
      r.value.OffBalance? && r.value.currency in balances && balances[r.value.currency] == r.value.off != 0
  {
    var left := balances.Keys;
    while left != {}
      invariant left <= balances.Keys
      invariant forall currency :: currency in balances && currency !in left ==> balances[currency] == 0
      decreases |left|
    {
      var currency :| currency in left;
      if balances[currency] != 0 {
        return Some(OffBalance(currency, balances[currency]));
      }
      left := left - {currency};
    }
    r := None;
  }

  /** All amounts of a currency, whichever way they go. */
  function Turnover(entries: seq<Entry>, currency: string): int
  {
    if entries == [] then 0
    else
      var e := entries[|entries| - 1];
      Turnover(entries[..|entries| - 1], currency) + if e.account.currency == currency then e.amount else 0
  }

  lemma {:induction false} BalanceWithinTurnover(entries: seq<Entry>, currency: string)
    requires forall e :: e in entries ==> WellFormed(e)
    ensures -Turnover(entries, currency) <= Balance(entries, currency) <= Turnover(entries, currency)
  {
    if entries != [] {
      var n := |entries| - 1;
      assert entries[n] in entries;
      BalanceWithinTurnover(entries[..n], currency);
    }
  }

  /** A group of well-formed entries whose amounts add up to less than 2^64 in each currency is accepted if and only
      if it balances; in general, one that is accepted is off by a multiple of 2^64. */
  lemma AcceptedBalance(entries: seq<Entry>)
    requires entries != [] && forall e :: e in entries ==> WellFormed(e)
    ensures (forall currency :: Turnover(entries, currency) < SPAN) ==> (Acceptable(entries) <==> Balanced(entries))
    ensures Acceptable(entries) <==> forall currency :: Balance(entries, currency) % SPAN == 0
  {
    hide Wrap, Balance, Turnover, WellFormed;
    forall currency: string
      ensures Wrap(Balance(entries, currency)) == 0 <==> Balance(entries, currency) % SPAN == 0
      ensures Turnover(entries, currency) < SPAN ==>
        (Wrap(Balance(entries, currency)) == 0 <==> Balance(entries, currency) == 0)
    {
      WrapZero(Balance(entries, currency));
      BalanceWithinTurnover(entries, currency);
    }
  }

  /** At 2^64 that ends: three credits and no debit, adding up to just that, are accepted. */
  lemma WrapHidesImbalance(account: Account) returns (entries: seq<Entry>)
    ensures Acceptable(entries) && !Balanced(entries)
    ensures Balance(entries, account.currency) == Turnover(entries, account.currency) == SPAN
  {
    var large, small := Entry(account, Credit, MAX, None, ""), Entry(account, Credit, 2, None, "");
    entries := [large] + [large] + [small];
    SumLeg(large, Any());
    SumLeg(small, Any());
    SumConcat([large], [large], Any());
    SumConcat([large] + [large], [small], Any());
    TotalInCurrency(entries, account.currency);
    ThreeAmounts(large, large, small);
    hide Total, Sum, Balance, Turnover;
    forall currency: string ensures Wrap(Balance(entries, currency)) == 0 { WrapZero(Balance(entries, currency)); }
    assert Balance(entries, account.currency) == SPAN;
  }

  lemma ThreeAmounts(x: Entry, y: Entry, z: Entry)
    requires x.account.currency == y.account.currency == z.account.currency
    ensures Turnover([x] + [y] + [z], x.account.currency) == x.amount + y.amount + z.amount
  {
    TurnoverStep([], x, x.account.currency);
    TurnoverStep([x], y, x.account.currency);
    TurnoverStep([x] + [y], z, x.account.currency);
    assert [] + [x] == [x];
  }

  lemma TurnoverStep(entries: seq<Entry>, e: Entry, currency: string)
    ensures Turnover(entries + [e], currency)
         == Turnover(entries, currency) + if e.account.currency == currency then e.amount else 0
  {
    assert (entries + [e])[..|entries|] == entries;
  }

  // ----- the business events -----

  /** The money terms of one order. */
  datatype Bill = Bill(order: int64, seller: int64, total: int64, fee: int64, currency: string)

  datatype Event =
    | Captured(bill: Bill)
    | Released(bill: Bill)
    | Refunded(bill: Bill, fromAvailable: bool)

  predicate Billable(b: Bill)
  {
    b.total > 0 && 0 <= b.fee <= b.total
  }

  /** The seller's share, in 64 bits. */
  function Payable(b: Bill): (p: int64)
    ensures Billable(b) ==> p == b.total - b.fee
  {
    Wrap(b.total - b.fee)
  }

  /** The builders accept the event. */
  predicate Postable(e: Event)
  {
    match e
    case Captured(b) => Billable(b)
    case Released(b) => Payable(b) > 0
    case Refunded(b, _) => Billable(b)
  }

  function Leg(kind: Kind, owner: Option<int64>, direction: Direction, amount: int64, currency: string, order: int64,
    text: string): seq<Entry>
  {
    [Entry(Account(kind, owner, currency), direction, amount, Some(order), text)]
  }

  function CaptureEntries(order: int64, seller: int64, gross: int64, fee: int64, currency: string): seq<Entry>
    requires gross > 0 && 0 <= fee <= gross
  {
    Leg(ProviderClearing, None, Debit, gross, currency, order, "payment captured")
    + (if fee > 0 then Leg(PlatformRevenue, None, Credit, fee, currency, order, "platform fee") else [])
    + (if gross - fee > 0
      then Leg(SellerPending, Some(seller), Credit, gross - fee, currency,
        order, "seller payable, pending acceptance") else [])
  }

  function ReleaseEntries(order: int64, seller: int64, amount: int64, currency: string): seq<Entry>
    requires amount > 0
  {
    Leg(SellerPending, Some(seller), Debit, amount, currency, order, "seller earnings released")
    + Leg(SellerAvailable, Some(seller), Credit, amount, currency, order, "seller earnings available")
  }

  function RefundEntries(order: int64, seller: int64, amount: int64, fee: int64, payable: int64, fromAvailable: bool,
    currency: string): seq<Entry>
  {
    Leg(Refunds, None, Debit, amount, currency, order, "refund issued")
    + Leg(ProviderClearing, None, Credit, amount, currency, order, "refund routed to buyer")
    + (if fee > 0 then Leg(PlatformRevenue, None, Debit, fee, currency, order, "platform fee refunded") else [])
    + (if payable > 0
      then Leg(if fromAvailable then SellerAvailable
        else SellerPending, Some(seller), Debit, payable, currency, order, "seller payable refunded") else [])
    + Leg(Refunds, None, Credit, Wrap(fee + payable), currency, order, "refund funded from fee/payable shares")
  }

  /** A built group together with the verdict on it. */
  function Checked(entries: seq<Entry>, problem: Option<Rejection>): Result<seq<Entry>, Rejection>
  {
    match problem
    case None => Ok(entries)
    case Some(rejection) => Err(rejection)
  }

  method PaymentCaptured(order: int64, seller: int64, gross: int64, fee: int64, currency: string)
    returns (r: Result<seq<Entry>, Rejection>)
    ensures r.Ok? <==> gross > 0 && 0 <= fee <= gross
    ensures r.Ok? ==>
      r.value == CaptureEntries(order, seller, gross, fee, currency) && Acceptable(r.value) && Balanced(r.value)
    ensures r.Ok? ==> forall a ::
      Net(r.value, a) == (if a == Account(SellerPending, Some(seller), currency) then gross - fee else 0)
        + (if a == Account(PlatformRevenue, None, currency) then fee else 0)
        - (if a == Account(ProviderClearing, None, currency) then gross else 0)
  {
    if gross <= 0 {
      return Err(NonPositiveAmount(gross));
    }
    if fee < 0 || fee > gross {
      return Err(BadFee(fee));
    }
    var payable: int64 := gross - fee;
    var entries := [Entry(Account(ProviderClearing, None, currency), Debit, gross, Some(order), "payment captured")];
    if fee > 0 {
      entries := entries + [Entry(Account(PlatformRevenue, None, currency), Credit, fee, Some(order), "platform fee")];
    }
    if payable > 0 {
      entries := entries
        + [Entry(Account(SellerPending, Some(seller), currency), Credit, payable,
          Some(order), "seller payable, pending acceptance")];
    }
    hide Balance, Wrap, Acceptable, Balanced, Net;
    assert entries == CaptureEntries(order, seller, gross, fee, currency);
    CaptureBalances(order, seller, gross, fee, currency);
    CaptureNet(order, seller, gross, fee, currency);
    var problem := Validate(entries);
    r := Checked(entries, problem);
  }

  method EarningsReleased(order: int64, seller: int64, amount: int64, currency: string)
    returns (r: Result<seq<Entry>, Rejection>)
    ensures r.Ok? <==> amount > 0
    ensures r.Ok? ==>
      r.value == ReleaseEntries(order, seller, amount, currency) && Acceptable(r.value) && Balanced(r.value)
    ensures r.Ok? ==> forall a ::
      Net(r.value, a) == (if a == Account(SellerAvailable, Some(seller), currency) then amount else 0)
        - (if a == Account(SellerPending, Some(seller), currency) then amount else 0)
  {
    if amount <= 0 {
      return Err(NonPositiveAmount(amount));
    }
    var entries := [
      Entry(Account(SellerPending, Some(seller), currency), Debit, amount, Some(order), "seller earnings released"),
      Entry(Account(SellerAvailable, Some(seller), currency), Credit, amount,
        Some(order), "seller earnings available")];
    hide Balance, Wrap, Acceptable, Balanced, Net;
    assert entries == ReleaseEntries(order, seller, amount, currency);
    ReleaseBalances(order, seller, amount, currency);
    PairBalances(entries[0], entries[1]);
    var problem := Validate(entries);
    r := Checked(entries, problem);
  }

  /** The guard adds the shares in 64 bits; only a split into two non-negative shares gets through to the ledger. */
  method RefundIssued(order: int64, seller: int64, amount: int64, fee: int64, payable: int64, fromAvailable: bool,
    currency: string)
    returns (r: Result<seq<Entry>, Rejection>)
    ensures r.Ok? <==> amount > 0 && fee >= 0 && payable >= 0 && fee + payable == amount
    ensures r.Ok? ==> r.value == RefundEntries(order, seller, amount, fee, payable, fromAvailable, currency)
    ensures r.Ok? ==> Acceptable(r.value) && Balanced(r.value)
    ensures r.Ok? ==> forall a ::
      Net(r.value, a) == (if a == Account(ProviderClearing, None, currency) then amount else 0)
        - (if a == Account(PlatformRevenue, None, currency) then fee else 0)
        - (if a == Account(if fromAvailable then SellerAvailable else SellerPending, Some(seller), currency)
          then payable else 0)
    ensures r.Ok? ==>
      var last := |r.value| - 1;
      r.value[0].account == r.value[last].account == Account(Refunds, None, currency)
        && r.value[0].amount == r.value[last].amount == amount && r.value[0].direction == Debit
  {
    SplitGuard(amount, fee, payable);
    if amount <= 0 {
      return Err(NonPositiveAmount(amount));
    }
    if Wrap(fee + payable) != amount {
      return Err(BadSplit);
    }
    var entries := [
      Entry(Account(Refunds, None, currency), Debit, amount, Some(order), "refund issued"),
      Entry(Account(ProviderClearing, None, currency), Credit, amount, Some(order), "refund routed to buyer")];
    if fee > 0 {
      entries := entries
        + [Entry(Account(PlatformRevenue, None, currency), Debit, fee, Some(order), "platform fee refunded")];
    }
    if payable > 0 {
      var sellerAccount := SellerPending;
      if fromAvailable {
        sellerAccount := SellerAvailable;
      }
      entries := entries
        + [Entry(Account(sellerAccount, Some(seller), currency), Debit, payable,
          Some(order), "seller payable refunded")];
    }
    entries := entries
      + [Entry(Account(Refunds, None, currency), Credit, Wrap(fee + payable),
        Some(order), "refund funded from fee/payable shares")];
    hide Balance, Wrap, Acceptable, Balanced, Net;
    assert entries == RefundEntries(order, seller, amount, fee, payable, fromAvailable, currency);
    RefundBalances(order, seller, amount, fee, payable, fromAvailable, currency);
    if fee >= 0 && payable >= 0 { RefundNet(order, seller, amount, fee, payable, fromAvailable, currency); }
    var problem := Validate(entries);
    r := Checked(entries, problem);
  }

  method ManualAdjustment(fromKind: Kind, fromOwner: Option<int64>, toKind: Kind, toOwner: Option<int64>,
      amount: int64, currency: string, order: Option<int64>, reason: string) returns (r: Result<seq<Entry>, Rejection>)
    ensures r.Ok? <==> amount > 0 && reason != ""
    ensures r.Ok? ==> Acceptable(r.value) && Balanced(r.value)
    ensures r.Ok? ==> forall a ::
      Net(r.value, a)
        == (if a == Account(toKind, toOwner, currency) then amount
          else 0) - (if a == Account(fromKind, fromOwner, currency) then amount else 0)
  {
    if amount <= 0 {
      return Err(NonPositiveAmount(amount));
    }
    if reason == "" {
      return Err(NoReason);
    }
    var desc := "manual adjustment: " + reason;
    var from := Entry(Account(fromKind, fromOwner, currency), Debit, amount, order, desc);
    var to := Entry(Account(toKind, toOwner, currency), Credit, amount, order, desc);
    PairBalances(from, to);
    hide Balance, Wrap, Acceptable, Balanced, Net;
    var problem := Validate([from, to]);
    r := Checked([from, to], problem);
  }

  lemma PairBalances(from: Entry, to: Entry)
    requires WellFormed(from) && WellFormed(to) && from.direction == Debit && to.direction == Credit
    requires from.amount == to.amount && from.account.currency == to.account.currency
    ensures Acceptable([from, to]) && Balanced([from, to])
    ensures forall a ::
      Net([from, to], a) == (if a == to.account then to.amount else 0) - (if a == from.account then from.amount else 0)
  {
    assert [from, to] == [from] + [to];
    SumLeg(from, Any());
    SumLeg(to, Any());
    SumConcat([from], [to], Any());
    forall a: Account
      ensures Net([from, to], a)
        == (if a == to.account then to.amount else 0) - (if a == from.account then from.amount else 0)
    {
      SumLeg(from, OnAccount(a));
      SumLeg(to, OnAccount(a));
      SumConcat([from], [to], OnAccount(a));
    }
    hide Total, Net, Sum, Acceptable, Balanced;
    GroupInOneCurrency([from, to], from.account.currency);
  }

  /** A group in one currency balances when its legs add up to zero, and is refused when a nonzero total fits in 64
      bits. */
  lemma GroupInOneCurrency(entries: seq<Entry>, currency: string)
    requires entries != [] && forall e :: e in entries ==> WellFormed(e) && e.account.currency == currency
    ensures Total(entries) == 0 ==> Acceptable(entries) && Balanced(entries)
    ensures MIN <= Total(entries) <= MAX && Total(entries) != 0 ==> !Acceptable(entries)
  {
    TotalInCurrency(entries, currency);
    hide Total, Sum, Balance;
    if MIN <= Total(entries) <= MAX {
      WrapInRange(Balance(entries, currency));
    }
  }

  lemma {:induction false} TotalInCurrency(entries: seq<Entry>, currency: string)
    requires forall e :: e in entries ==> e.account.currency == currency
    ensures forall c :: Balance(entries, c) == if c == currency then Total(entries) else 0
  {
    if entries != [] {
      var rest, last := entries[..|entries| - 1], entries[|entries| - 1];
      TotalInCurrency(rest, currency);
      forall c: string ensures Balance(entries, c) == (if c == currency then Total(entries) else 0) {
        assert Balance(rest, c) == (if c == currency then Total(rest) else 0);
        assert InCurrency(c)(last) == (c == currency) && Any()(last);
      }
    }
  }

  lemma CaptureBalances(order: int64, seller: int64, gross: int64, fee: int64, currency: string)
    requires gross > 0 && 0 <= fee <= gross
    ensures Acceptable(CaptureEntries(order, seller, gross, fee, currency))
      && Balanced(CaptureEntries(order, seller, gross, fee, currency))
  {
    var clearing := Leg(ProviderClearing, None, Debit, gross, currency, order, "payment captured");
    var revenue := if fee > 0 then Leg(PlatformRevenue, None, Credit, fee, currency, order, "platform fee") else [];
    var pending := if gross - fee > 0
      then Leg(SellerPending, Some(seller), Credit, gross - fee, currency,
        order, "seller payable, pending acceptance") else [];
    assert CaptureEntries(order, seller, gross, fee, currency) == clearing + revenue + pending;
    SumLeg(clearing[0], Any());
    if fee > 0 { SumLeg(revenue[0], Any()); }
    if gross - fee > 0 { SumLeg(pending[0], Any()); }
    SumConcat(clearing, revenue, Any());
    SumConcat(clearing + revenue, pending, Any());
    hide Total, Sum, Acceptable, Balanced, CaptureEntries;
    GroupInOneCurrency(clearing + revenue + pending, currency);
  }

  /** What a capture does to each account: the seller is owed the rest, the platform keeps the fee, and the provider
      holds the gross. */
  lemma CaptureNet(order: int64, seller: int64, gross: int64, fee: int64, currency: string)
    requires gross > 0 && 0 <= fee <= gross
    ensures forall a ::
      Net(CaptureEntries(order, seller, gross, fee, currency), a)
        == (if a == Account(SellerPending, Some(seller), currency) then gross - fee else 0)
           + (if a == Account(PlatformRevenue, None, currency) then fee else 0)
           - (if a == Account(ProviderClearing, None, currency) then gross else 0)
  {
    var clearing := Leg(ProviderClearing, None, Debit, gross, currency, order, "payment captured");
    var revenue := if fee > 0 then Leg(PlatformRevenue, None, Credit, fee, currency, order, "platform fee") else [];
    var pending := if gross - fee > 0
      then Leg(SellerPending, Some(seller), Credit, gross - fee, currency,
        order, "seller payable, pending acceptance") else [];
    assert CaptureEntries(order, seller, gross, fee, currency) == clearing + revenue + pending;
    hide CaptureEntries;
    forall a: Account
      ensures Net(clearing + revenue + pending, a)
        == (if a == Account(SellerPending, Some(seller), currency) then gross - fee else 0)
           + (if a == Account(PlatformRevenue, None, currency) then fee else 0)
           - (if a == Account(ProviderClearing, None, currency) then gross else 0)
    {
      OneLegSum(clearing, OnAccount(a));
      OneLegSum(revenue, OnAccount(a));
      OneLegSum(pending, OnAccount(a));
      SumConcat(clearing, revenue, OnAccount(a));
      SumConcat(clearing + revenue, pending, OnAccount(a));
      hide Sum;
    }
  }

  lemma OneLegSum(leg: seq<Entry>, pick: Entry -> bool)
    requires |leg| <= 1
    ensures Sum(leg, pick) == if leg != [] && pick(leg[0]) then Signed(leg[0]) else 0
  {
  }

  /** A refund takes both shares back and pays the buyer through the provider. */
  lemma RefundNet(order: int64, seller: int64, amount: int64, fee: int64, payable: int64, fromAvailable: bool,
    currency: string)
    requires amount > 0 && fee >= 0 && payable >= 0 && Wrap(fee + payable) == amount
    ensures forall a ::
      Net(RefundEntries(order, seller, amount, fee, payable, fromAvailable, currency), a)
        == (if a == Account(ProviderClearing, None, currency) then amount else 0)
           - (if a == Account(PlatformRevenue, None, currency) then fee else 0)
           - (if a == Account(if fromAvailable then SellerAvailable else SellerPending, Some(seller), currency)
             then payable else 0)
  {
    var issued := Leg(Refunds, None, Debit, amount, currency, order, "refund issued");
    var routed := Leg(ProviderClearing, None, Credit, amount, currency, order, "refund routed to buyer");
    var revenue := if fee > 0 then Leg(PlatformRevenue, None, Debit, fee, currency, order, "platform fee refunded")
      else [];
    var share := if payable > 0
      then Leg(if fromAvailable then SellerAvailable
        else SellerPending, Some(seller), Debit, payable, currency, order, "seller payable refunded") else [];
    var funded := Leg(Refunds, None, Credit, Wrap(fee + payable), currency,
      order, "refund funded from fee/payable shares");
    assert RefundEntries(order, seller, amount, fee, payable, fromAvailable, currency)
      == issued + routed + revenue + share + funded;
    hide RefundEntries, Wrap;
    forall a: Account
      ensures Net(issued + routed + revenue + share + funded, a)
        == (if a == Account(ProviderClearing, None, currency) then amount else 0)
           - (if a == Account(PlatformRevenue, None, currency) then fee else 0)
           - (if a == Account(if fromAvailable then SellerAvailable else SellerPending, Some(seller), currency)
             then payable else 0)
    {
      FiveLegs(issued, routed, revenue, share, funded, OnAccount(a));
      OneLegSum(issued, OnAccount(a));
      OneLegSum(routed, OnAccount(a));
      OneLegSum(revenue, OnAccount(a));
      OneLegSum(share, OnAccount(a));
      OneLegSum(funded, OnAccount(a));
      hide Sum;
    }
  }

  lemma FiveLegs(v: seq<Entry>, w: seq<Entry>, x: seq<Entry>, y: seq<Entry>, z: seq<Entry>, pick: Entry -> bool)
    ensures Sum(v + w + x + y + z, pick) == Sum(v, pick) + Sum(w, pick) + Sum(x, pick) + Sum(y, pick) + Sum(z, pick)
  {
    hide Sum;
    SumConcat(v, w, pick);
    SumConcat(v + w, x, pick);
    SumConcat(v + w + x, y, pick);
    SumConcat(v + w + x + y, z, pick);
  }

  lemma ReleaseBalances(order: int64, seller: int64, amount: int64, currency: string)
    requires amount > 0
    ensures Acceptable(ReleaseEntries(order, seller, amount, currency))
      && Balanced(ReleaseEntries(order, seller, amount, currency))
  {
    var pending := Leg(SellerPending, Some(seller), Debit, amount, currency, order, "seller earnings released");
    var available := Leg(SellerAvailable, Some(seller), Credit, amount, currency, order, "seller earnings available");
    SumLeg(pending[0], Any());
    SumLeg(available[0], Any());
    SumConcat(pending, available, Any());
    hide Total, Sum, Acceptable, Balanced;
    GroupInOneCurrency(pending + available, currency);
  }

  lemma SplitGuard(amount: int64, fee: int64, payable: int64)
    ensures fee >= 0 && payable >= 0 && amount > 0 && Wrap(fee + payable) == amount ==> fee + payable == amount
    ensures fee + payable == amount ==> Wrap(fee + payable) == amount
  {
    var turns := WrapExplicit(fee + payable);
  }

  lemma RefundBalances(order: int64, seller: int64, amount: int64, fee: int64, payable: int64, fromAvailable: bool,
    currency: string)
    requires amount > 0 && Wrap(fee + payable) == amount
    ensures var entries := RefundEntries(order, seller, amount, fee, payable, fromAvailable, currency);
      (if fee >= 0 && payable >= 0 then Acceptable(entries) && Balanced(entries) else !Acceptable(entries))
  {
    var entries := RefundEntries(order, seller, amount, fee, payable, fromAvailable, currency);
    RefundTotal(order, seller, amount, fee, payable, fromAvailable, currency);
    RefundLegs(order, seller, amount, fee, payable, fromAvailable, currency);
    hide Total, Sum, Acceptable, Balanced, RefundEntries, Wrap;
    SplitCases(amount, fee, payable);
    GroupInOneCurrency(entries, currency);
  }

  lemma SplitCases(amount: int64, fee: int64, payable: int64)
    requires amount > 0 && Wrap(fee + payable) == amount
    ensures var off: int := amount - (if fee > 0 then fee else 0) - (if payable > 0 then payable else 0);
      MIN <= off <= MAX && (off == 0 <==> fee >= 0 && payable >= 0)
  {
    var turns := WrapExplicit(fee + payable);
  }

  lemma RefundLegs(order: int64, seller: int64, amount: int64, fee: int64, payable: int64, fromAvailable: bool,
    currency: string)
    requires amount > 0 && Wrap(fee + payable) == amount
    ensures var entries := RefundEntries(order, seller, amount, fee, payable, fromAvailable, currency);
      entries != [] && forall e :: e in entries ==> WellFormed(e) && e.account.currency == currency
  {
  }

  lemma RefundTotal(order: int64, seller: int64, amount: int64, fee: int64, payable: int64, fromAvailable: bool,
    currency: string)
    requires amount > 0 && Wrap(fee + payable) == amount
    ensures Total(RefundEntries(order, seller, amount, fee, payable, fromAvailable, currency))
         == amount - (if fee > 0 then fee else 0) - (if payable > 0 then payable else 0)
  {
    var issued := Leg(Refunds, None, Debit, amount, currency, order, "refund issued");
    var routed := Leg(ProviderClearing, None, Credit, amount, currency, order, "refund routed to buyer");
    var revenue := if fee > 0 then Leg(PlatformRevenue, None, Debit, fee, currency, order, "platform fee refunded")
      else [];
    var share := if payable > 0
      then Leg(if fromAvailable then SellerAvailable
        else SellerPending, Some(seller), Debit, payable, currency, order, "seller payable refunded") else [];
    var funded := Leg(Refunds, None, Credit, Wrap(fee + payable), currency,
      order, "refund funded from fee/payable shares");
    SumLeg(issued[0], Any());
    SumLeg(routed[0], Any());
    SumLeg(funded[0], Any());
    if fee > 0 { SumLeg(revenue[0], Any()); }
    if payable > 0 { SumLeg(share[0], Any()); }
    assert RefundEntries(order, seller, amount, fee, payable, fromAvailable, currency)
      == issued + routed + revenue + share + funded;
    hide Total, Sum, Wrap, RefundEntries;
    SumConcat(issued, routed, Any());
    SumConcat(issued + routed, revenue, Any());
    SumConcat(issued + routed + revenue, share, Any());
    SumConcat(issued + routed + revenue + share, funded, Any());
  }
}
