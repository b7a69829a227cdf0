/** Direct stablecoin payments: the provider reference, the unit conversion, and the status read off the chain. */
module Evm {
  import opened Results
  import opened Int64
  import opened Decimal
  import opened Payments
  import M = Money

  // ----- the provider reference -----

  datatype Ref = Ref(order: int64, asset: string, startBlock: int64, units: int)

  function PrintRef(r: Ref): string
  {
    ShowInt(r.order) + ":" + r.asset + ":" + ShowInt(r.startBlock) + ":" + ShowInt(r.units)
  }

  /** Four fields; a further colon belongs to the last one. */
  function ParseRef(text: string): Option<Ref>
  {
    var first := M.Cut(text, ':');
    var second := M.Cut(first.1, ':');
    var third := M.Cut(second.1, ':');
    if !first.2 || !second.2 || !third.2 then None
    else
      var order, start, units := ParseInt(first.0, M.LIMIT), ParseInt(third.0, M.LIMIT), ParseSigned(third.1);
      if order.None? || start.None? || units.None? then None
      else Some(Ref(order.value, second.0, start.value, units.value))
  }

  /** A reference parses back to its parts exactly when the asset name holds no colon. */
  lemma RefRoundTrip(r: Ref)
    ensures ParseRef(PrintRef(r)) == Some(r) <==> Free(r.asset, ':')
  {
    hide ParseInt, ParseSigned, ShowInt;
    var order, start, units := ShowInt(r.order), ShowInt(r.startBlock), ShowInt(r.units);
    var tail := start + ":" + units;
    var text := PrintRef(r);
    FieldsPrint(r, order, start, units);
    assert text == order + ":" + (r.asset + ":" + tail);
    M.CutAt(order, r.asset + ":" + tail, ':');
    if Free(r.asset, ':') {
      M.CutAt(r.asset, tail, ':');
      M.CutAt(start, units, ':');
    } else {
      assert !Free(r.asset, ':') ==> M.Cut(r.asset + ":" + tail, ':').0 != r.asset;
    }
    hide M.Cut;
  }

  /** Order, asset, block and units, in that order. */
  lemma RefOfFour()
    ensures PrintRef(Ref(4, "usdc", 7, 9)) == "4:usdc:7:9"
  {
  }

  lemma FieldsPrint(r: Ref, order: string, start: string, units: string)
    requires order == ShowInt(r.order) && start == ShowInt(r.startBlock) && units == ShowInt(r.units)
    ensures Free(order, ':') && Free(start, ':')
    ensures ParseInt(order, M.LIMIT) == Some(r.order) && ParseInt(start, M.LIMIT) == Some(r.startBlock)
      && ParseSigned(units) == Some(r.units)
  {
    hide ShowInt, ParseInt, ParseSigned;
    ShowIntFree(r.order, ':') by { assert !IsDigit(':'); }
    ShowIntFree(r.startBlock, ':') by { assert !IsDigit(':'); }
    ParseShowInt(r.order, M.LIMIT);
    ParseShowInt(r.startBlock, M.LIMIT);
    ParseShowSigned(r.units);
  }

  // ----- units -----

  /** Cents to the token's six decimals, in arbitrary precision. */
  function TokenUnits(minor: int64): int
  {
    minor * 10000
  }

  function MinorOf(units: int): int64
  {
    Wrap(units / 10000)
  }

  /** A token has a million units and a unit of currency a hundred cents; the amount survives the trip through token
      units, and units short of a cent are dropped. */
  lemma UnitsRoundTrip(minor: int64, rest: nat)
    requires rest < 10000
    ensures 100 * TokenUnits(minor) == 1000000 * minor
    ensures MinorOf(TokenUnits(minor) + rest) == minor
  {
    var units: int := minor * 10000 + rest;
    assert units / 10000 == minor;
    WrapInRange(minor);
  }

  // ----- status from the chain -----

  /** A transfer log of the token to the treasury; None stands for hex text that does not parse. */
  datatype Log = Log(amount: Option<int>, block: Option<int>, tx: string)

  datatype Observation = Observation(status: PaymentStatus, chargeRef: string)

  predicate Matches(l: Log, expected: int)
  {
    l.amount == Some(expected) && l.block.Some?
  }

  function ConfirmationStatus(head: int, block: int, required: int): PaymentStatus
  {
    if head - block + 1 >= required then Succeeded else Processing
  }

  /** The first matching transfer decides. */
  function Observe(logs: seq<Log>, head: int, expected: int, required: int): Observation
  {
    if logs == [] then Observation(Pending, "")
    else if Matches(logs[0], expected)
      then Observation(ConfirmationStatus(head, logs[0].block.value, required), logs[0].tx)
    else Observe(logs[1..], head, expected, required)
  }

  /** The answer is pending exactly when no log carries the expected amount to the unit under a readable block number;
      otherwise the first such log is the payment, and it has succeeded exactly when it is deep enough. */
  method Payment(logs: seq<Log>, head: int, expected: int, required: int) returns (r: Observation)
    ensures r == Observe(logs, head, expected, required)
    ensures r.status == Pending <==> forall i ::
      0 <= i < |logs| ==> logs[i].amount != Some(expected) || logs[i].block.None?
    ensures r.status == Pending ==> r.chargeRef == ""
    ensures r.status != Pending ==>
      exists i :: 0 <= i < |logs| && logs[i].amount == Some(expected) && logs[i].block.Some?
        && r.chargeRef == logs[i].tx
        && r.status == (if head - logs[i].block.value + 1 >= required then Succeeded else Processing)
        && forall j :: 0 <= j < i ==> logs[j].amount != Some(expected) || logs[j].block.None?
  {
    assert logs[0..] == logs;
    for i := 0 to |logs|
      invariant Observe(logs, head, expected, required) == Observe(logs[i..], head, expected, required)
      invariant forall j :: 0 <= j < i ==> logs[j].amount != Some(expected) || logs[j].block.None?
    {
      var l := logs[i];
      assert logs[i..][0] == l && logs[i..][1..] == logs[i + 1..];
      if l.amount.None? {
        continue;
      }
      if l.amount.value != expected {
        continue;
      }
      if l.block.None? {
        continue;
      }
      var confirmations := head - l.block.value + 1;
      var status := if confirmations >= required then Succeeded else Processing;
      return Observation(status, l.tx);
    }
    r := Observation(Pending, "");
  }

  function Rank(s: PaymentStatus): nat
  {
    match s
    case Pending => 0
    case Processing => 1
    case _ => 2
  }

  /** On a chain that only grows, the status never goes back, every change is one the payment table allows,
      and the transfer first taken for the payment stays the one. */
  lemma {:induction false} StatusNeverRegresses(logs: seq<Log>, more: seq<Log>, head: int, head': int, expected: int,
    required: int)
    requires head <= head'
    ensures var before, after := Observe(logs, head, expected, required),
      Observe(logs + more, head', expected, required);
      && Rank(before.status) <= Rank(after.status)
      && (before.status == after.status || CanTransitionPayment(before.status, after.status))
      && (before.status != Pending ==> after.chargeRef == before.chargeRef)
    decreases |logs|
  {
    if logs == [] {
      assert logs + more == more;
      ObservedStatuses(more, head', expected, required);
    } else if !Matches(logs[0], expected) {
      StatusNeverRegresses(logs[1..], more, head, head', expected, required);
      assert (logs + more)[1..] == logs[1..] + more;
    }
  }

  /** Nothing else is ever reported: without such a transfer the payment is pending. */
  lemma {:induction false} PendingWithoutTransfer(logs: seq<Log>, head: int, expected: int, required: int)
    ensures Observe(logs, head, expected, required) == Observation(Pending, "")
      <==> forall i :: 0 <= i < |logs| ==> logs[i].amount != Some(expected) || logs[i].block.None?
  {
    ObservedStatuses(logs, head, expected, required);
    if Observe(logs, head, expected, required).status == Pending { OnlyPendingIsEmpty(logs, head, expected, required); }
  }

  lemma {:induction false} OnlyPendingIsEmpty(logs: seq<Log>, head: int, expected: int, required: int)
    requires Observe(logs, head, expected, required).status == Pending
    ensures Observe(logs, head, expected, required).chargeRef == ""
  {
    if logs != [] { OnlyPendingIsEmpty(logs[1..], head, expected, required); }
  }

  lemma {:induction false} ObservedStatuses(logs: seq<Log>, head: int, expected: int, required: int)
    ensures Observe(logs, head, expected, required).status in {Pending, Processing, Succeeded}
    ensures Observe(logs, head, expected, required).status == Pending <==> forall i ::
      0 <= i < |logs| ==> !Matches(logs[i], expected)
  {
    if logs != [] && !Matches(logs[0], expected) {
      ObservedStatuses(logs[1..], head, expected, required);
      assert forall i :: 0 < i < |logs| ==> logs[i] == logs[1..][i - 1];
    }
  }

  /** The first transfer of exactly the expected amount whose block number can be read is the payment: it is reported,
      and as succeeded exactly when it is deep enough. */
  lemma {:induction false} SucceededWhenDeep(logs: seq<Log>, i: nat, head: int, expected: int, required: int)
    requires i < |logs| && logs[i].amount == Some(expected) && logs[i].block.Some?
    requires forall j :: 0 <= j < i ==> logs[j].amount != Some(expected) || logs[j].block.None?
    ensures Observe(logs, head, expected, required).status == Succeeded <==> head - logs[i].block.value + 1 >= required
    ensures Observe(logs, head, expected, required).chargeRef == logs[i].tx
    decreases i
  {
    if i > 0 {
      assert logs[1..][i - 1] == logs[i] && forall j :: 0 <= j < i - 1 ==> logs[1..][j] == logs[j + 1];
      SucceededWhenDeep(logs[1..], i - 1, head, expected, required);
    }
  }

  /** A reorganisation that drops the transfer does take the status back. */
  lemma ReorganisationRegresses(tx: string, expected: int)
    ensures Observe([Log(Some(expected), Some(5), tx)], 5, expected, 1).status == Succeeded
    ensures Observe([], 6, expected, 1).status == Pending && !CanTransitionPayment(Succeeded, Pending)
  {
  }
}
