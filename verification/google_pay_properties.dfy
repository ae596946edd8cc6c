/**
  Properties of the Google Pay adapter that relate several calls: the correlation between a
  started request and its result, the re-entrancy guard seen from the result, what a result
  after `reset` does, and the invariant every sequence of calls keeps on the tracking state.
*/
module GooglePayProperties {
  import opened Optional
  import opened GooglePayIntegration

  /**
    The tracking fields the adapter's own calls can produce: the id and the flag are recorded
    and cleared together, and a waiting adapter always has them.
  */
  predicate Consistent(s: TrackingState)
  {
    && (s.paymentOptionId.Some? <==> s.recurringPaymentsPossible.Some?)
    && (s.waitingForResult ==> s.paymentOptionId.Some?)
  }

  /** One call into the adapter, with the inputs the surrounding SDK supplies. */
  datatype Call =
    | Start(loaded: seq<PaymentOption>, shopId: string, paymentOptionId: int, recurringPaymentsPossible: bool)
    | Handle(requestCode: int, resultCode: int, data: Option<ResultData>)
    | ResetCall

  /** The tracking state after one call, whether it returned or threw. */
  function After(s: TrackingState, call: Call): TrackingState
  {
    match call
    case Start(loaded, shopId, id, recurring) => StartTokenization(s, loaded, shopId, id, recurring).state
    case Handle(requestCode, resultCode, data) => HandleTokenization(s, requestCode, resultCode, data).state
    case ResetCall => Reset(s)
  }

  /** The tracking state after a sequence of calls, in order. */
  function AfterAll(s: TrackingState, calls: seq<Call>): TrackingState
    decreases |calls|
  {
    if |calls| == 0 then s else AfterAll(After(s, calls[0]), calls[1..])
  }

  /** A freshly constructed adapter is consistent. */
  lemma InitialConsistent()
    ensures Consistent(Initial)
  {
  }

  /** Every call keeps the adapter consistent. */
  lemma CallPreservesConsistent(s: TrackingState, call: Call)
    requires Consistent(s)
    ensures Consistent(After(s, call))
  {
  }

  /** Every sequence of calls from a consistent state, in particular from a fresh adapter, ends consistent. */
  lemma {:induction false} CallsPreserveConsistent(s: TrackingState, calls: seq<Call>)
    requires Consistent(s)
    ensures Consistent(AfterAll(s, calls))
    decreases |calls|
  {
    if |calls| > 0 {
      CallPreservesConsistent(s, calls[0]);
      CallsPreserveConsistent(After(s, calls[0]), calls[1..]);
    }
  }

  /**
    A result for this adapter never fails on the recorded flag once the id was found: in a
    consistent state the flag is present exactly when the id is.
  */
  lemma ConsistentNeverMissesFlag(s: TrackingState, requestCode: int, resultCode: int, data: Option<ResultData>)
    requires Consistent(s)
    ensures HandleTokenization(s, requestCode, resultCode, data).outcome != Thrown(MissingRecurringFlag)
  {
  }

  /**
    Correlation: a request started on an idle adapter for a loaded option, answered by an OK
    result carrying a token, yields a success with exactly the id and flag given to the start,
    and leaves the adapter idle with that context still recorded.
  */
  lemma StartThenSuccess(
    s: TrackingState, loaded: seq<PaymentOption>, shopId: string, id: int, recurring: bool,
    token: string, transactionId: string)
    requires !s.waitingForResult
    requires exists i :: 0 <= i < |loaded| && loaded[i].id == id
    ensures var started := StartTokenization(s, loaded, shopId, id, recurring);
      var handled := HandleTokenization(started.state, GooglePayRequestCode, ResultOk,
                                        Some(CompletePayload(token, transactionId)));
      && started.outcome.Returned? && started.outcome.value.Submitted?
      && handled.outcome == Returned(Success(id, recurring, GooglePayInfo(token, transactionId)))
      && handled.state == TrackingState(Some(id), Some(recurring), false)
  {
  }

  /**
    The re-entrancy guard seen from the result: a second start before the result arrives is
    ignored, so the success carries the first call's id and flag, not the second's.
  */
  lemma SecondStartDoesNotOverwrite(
    s: TrackingState, loaded: seq<PaymentOption>, shopId: string,
    id: int, recurring: bool, laterId: int, laterRecurring: bool,
    token: string, transactionId: string)
    requires !s.waitingForResult
    requires exists i :: 0 <= i < |loaded| && loaded[i].id == id
    ensures var first := StartTokenization(s, loaded, shopId, id, recurring);
      var second := StartTokenization(first.state, loaded, shopId, laterId, laterRecurring);
      var handled := HandleTokenization(second.state, GooglePayRequestCode, ResultOk,
                                        Some(CompletePayload(token, transactionId)));
      && second == Transition(first.state, Returned(Ignored))
      && handled.outcome == Returned(Success(id, recurring, GooglePayInfo(token, transactionId)))
  {
  }

  /**
    A complete OK result arriving after `reset` is not a success with missing fields: it throws
    at the recorded-id check, and the adapter is left idle with no context.
  */
  lemma SuccessAfterResetThrows(s: TrackingState, token: string, transactionId: string)
    ensures HandleTokenization(Reset(s), GooglePayRequestCode, ResultOk, Some(CompletePayload(token, transactionId)))
            == Transition(Initial, Thrown(MissingPaymentOptionId))
  {
  }

  /** A request depends on exactly the option's charge and the shop: nothing else of the option shows. */
  lemma RequestDeterminedByChargeAndShop(o1: PaymentOption, shop1: string, o2: PaymentOption, shop2: string)
    ensures BuildPaymentDataRequest(o1, shop1) == BuildPaymentDataRequest(o2, shop2)
            <==> o1.charge == o2.charge && shop1 == shop2
  {
  }

  /** At most one position is the first with a given id, so the lookup's answer is unique. */
  lemma FirstWithIdUnique(options: seq<PaymentOption>, id: int, i: int, j: int)
    requires IsFirstWithId(options, id, i) && IsFirstWithId(options, id, j)
    ensures i == j
  {
  }
}
