/** The payment intent lifecycle and the keys that make money-changing requests repeatable. */
module Payments {
  import opened Decimal

  datatype PaymentStatus = Pending | Processing | Succeeded | Failed | Canceled | Expired

  function PaymentTransitions(from: PaymentStatus): seq<PaymentStatus>
  {
    match from
    case Pending => [Processing, Succeeded, Failed, Canceled, Expired]
    case Processing => [Succeeded, Failed]
    case _ => []
  }

  predicate CanTransitionPayment(from: PaymentStatus, to: PaymentStatus)
  {
    from != to && to in PaymentTransitions(from)
  }

  /** A payment is processed only once, succeeds or fails only while it is open, and lapses only before it is
      processed. */
  lemma PaymentEnteredFrom(from: PaymentStatus, to: PaymentStatus)
    ensures to == Pending ==> !CanTransitionPayment(from, to)
    ensures to == Processing || to == Canceled || to == Expired ==>
      (CanTransitionPayment(from, to) <==> from == Pending)
    ensures to == Succeeded || to == Failed ==> (CanTransitionPayment(from, to) <==> from in {Pending, Processing})
  {
  }

  /** A finished payment never changes again. */
  predicate Final(s: PaymentStatus)
  {
    !s.Pending? && !s.Processing?
  }

  function IdempotencyKey(scope: string, entity: int, attempt: int): string
  {
    scope + ":" + ShowInt(entity) + ":" + ShowInt(attempt)
  }

  lemma KeyOfSeven()
    ensures IdempotencyKey("checkout", 7, 0) == "checkout:7:0"
  {
  }

  /** Different requests have different keys, whatever the scope text. */
  lemma IdempotencyKeyInjective(scope: string, entity: int, attempt: int, scope': string, entity': int, attempt': int)
    requires IdempotencyKey(scope, entity, attempt) == IdempotencyKey(scope', entity', attempt')
    ensures scope == scope' && entity == entity' && attempt == attempt'
  {
    ShowIntFree(entity, ':');
    ShowIntFree(attempt, ':');
    ShowIntFree(entity', ':');
    ShowIntFree(attempt', ':');
    SplitAtLast(scope + ":" + ShowInt(entity), ShowInt(attempt), scope' + ":" + ShowInt(entity'),
      ShowInt(attempt'), ':');
    SplitAtLast(scope, ShowInt(entity), scope', ShowInt(entity'), ':');
    ShowIntInjective(entity, entity');
    ShowIntInjective(attempt, attempt');
  }
}
