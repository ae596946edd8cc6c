/**
  The Google Pay adapter of the payment SDK. It checks whether Google Pay is available, asks the
  wallet to tokenize the card for a chosen payment option, and translates the activity result
  that comes back into a small result variant.

  The adapter's three mutable tracking fields are an immutable `TrackingState` here, and every
  operation is a pure function from the state before the call to a `Transition`: the state after
  the call and either the returned value or the unchecked exception that escaped. The state after
  an exception is whatever the code had already assigned before the failing check.

  The wallet client, the Android activity machinery and the blocking hand-off queue are outside
  the model: their observable effects become parameters (the loaded options, the delivered
  availability answer, the result intent's payload) or a returned effect (the request submitted).
*/
module GooglePayIntegration {
  import opened Optional

  /** The request code that marks an activity result as the answer to this adapter's request. */
  const GooglePayRequestCode: int := 0xAB1D

  /** Android's `Activity.RESULT_OK`. */
  const ResultOk: int := -1

  // ---------------------------------------------------------------- tracking state

  /** The request context recorded between a tokenization request and its result. */
  datatype TrackingState = TrackingState(
    paymentOptionId: Option<int>,
    recurringPaymentsPossible: Option<bool>,
    waitingForResult: bool)

  /** The state of a freshly constructed adapter. */
  const Initial: TrackingState := TrackingState(None, None, false)

  /** The unchecked exceptions the adapter lets escape, named by the check that throws them. */
  datatype Fault =
    | OptionNotLoaded           // `first { it.id == paymentOptionId }` finds nothing: NoSuchElementException
    | MissingResultData         // `requireNotNull(data)`: IllegalArgumentException
    | MissingPaymentData        // `checkNotNull(PaymentData.getFromIntent(..))`: IllegalStateException
    | MissingPaymentOptionId    // `checkNotNull(paymentOptionId)`: IllegalStateException
    | MissingRecurringFlag      // `checkNotNull(recurringPaymentsPossible)`: IllegalStateException
    | MissingPaymentMethodToken // `checkNotNull(it.paymentMethodToken)`: IllegalStateException

  /** How a call ended: it returned a value or an exception escaped. */
  datatype Outcome<+T> = Returned(value: T) | Thrown(fault: Fault)

  /** The adapter's state after a call, together with how the call ended. */
  datatype Transition<+T> = Transition(state: TrackingState, outcome: Outcome<T>)

  // ---------------------------------------------------------------- payment options

  /** The charge of a payment option; the amount is its plain decimal string. */
  datatype Charge = Charge(value: string, currencyCode: string)

  /** A loaded payment option, reduced to what the adapter reads of it. */
  datatype PaymentOption = PaymentOption(id: int, charge: Charge)

  /** Index `i` holds the first option of `options`, in list order, whose id is `id`. */
  predicate IsFirstWithId(options: seq<PaymentOption>, id: int, i: int)
  {
    && 0 <= i < |options|
    && options[i].id == id
    && (forall j :: 0 <= j < i ==> options[j].id != id)
  }

  /** Kotlin's `first { it.id == id }`, as the position of the option it returns. */
  function FirstIndexWithId(options: seq<PaymentOption>, id: int): (r: Option<nat>)
    ensures r.Some? ==> IsFirstWithId(options, id, r.value)
    ensures r.None? <==> forall i :: 0 <= i < |options| ==> options[i].id != id
  {
    if |options| == 0 then None
    else if options[0].id == id then Some(0)
    else match FirstIndexWithId(options[1..], id)
      case None => None
      case Some(k) => Some(k + 1)
  }

  // ---------------------------------------------------------------- the tokenization request

  /** `WalletConstants.TOTAL_PRICE_STATUS_*`. */
  datatype TotalPriceStatus = PriceNotCurrentlyKnown | PriceEstimated | PriceFinal

  /** `WalletConstants.PAYMENT_METHOD_*`. */
  datatype PaymentMethod = Card | TokenizedCard

  /** `WalletConstants.CARD_NETWORK_*`. */
  datatype CardNetwork = Amex | Discover | Jcb | Visa | Mastercard | Interac | OtherNetwork

  /** `WalletConstants.PAYMENT_METHOD_TOKENIZATION_TYPE_*`. */
  datatype TokenizationType = PaymentGateway | NetworkToken | Direct

  datatype TransactionInfo = TransactionInfo(
    totalPriceStatus: TotalPriceStatus,
    totalPrice: string,
    currencyCode: string)

  datatype CardRequirements = CardRequirements(
    allowedCardNetworks: seq<CardNetwork>,
    allowPrepaidCards: bool)

  datatype TokenizationParameters = TokenizationParameters(
    tokenizationType: TokenizationType,
    parameters: map<string, string>)

  /** The `PaymentDataRequest` submitted to the wallet's `loadPaymentData`. */
  datatype PaymentDataRequest = PaymentDataRequest(
    transactionInfo: TransactionInfo,
    allowedPaymentMethods: seq<PaymentMethod>,
    cardRequirements: CardRequirements,
    tokenizationParameters: TokenizationParameters)

  /** The gateway name the wallet encrypts the card token for. */
  const GatewayName: string := "yandexcheckout"

  /** The networks the adapter accepts cards from. */
  const AcceptedNetworks: set<CardNetwork> := {Amex, Discover, Jcb, Visa, Mastercard}

  /** The amount the request asks the wallet to charge. */
  function RequestedCharge(request: PaymentDataRequest): Charge
  {
    Charge(request.transactionInfo.totalPrice, request.transactionInfo.currencyCode)
  }

  /** The merchant a gateway-tokenizing request routes the token to, if it names one. */
  function GatewayMerchant(request: PaymentDataRequest): Option<string>
  {
    var p := request.tokenizationParameters;
    if p.tokenizationType == PaymentGateway && "gatewayMerchantId" in p.parameters
    then Some(p.parameters["gatewayMerchantId"])
    else None
  }

  /** Whether the wallet may offer a card of `network` (prepaid or not) for `request`. */
  predicate AcceptsCard(request: PaymentDataRequest, network: CardNetwork, prepaid: bool)
  {
    && TokenizedCard in request.allowedPaymentMethods
    && network in request.cardRequirements.allowedCardNetworks
    && (!prepaid || request.cardRequirements.allowPrepaidCards)
  }

  /**
    The request built for `option` in the shop `shopId`: the option's charge at a final price,
    tokenized cards only, from the five accepted networks (each listed once), never prepaid,
    tokenized by the "yandexcheckout" gateway for this shop and with no other parameters.
  */
  function BuildPaymentDataRequest(option: PaymentOption, shopId: string): (request: PaymentDataRequest)
    ensures RequestedCharge(request) == option.charge
    ensures request.transactionInfo.totalPriceStatus == PriceFinal
    ensures request.allowedPaymentMethods == [TokenizedCard]
    ensures forall n, prepaid :: AcceptsCard(request, n, prepaid) <==> n in AcceptedNetworks && !prepaid
    ensures |request.cardRequirements.allowedCardNetworks| == |AcceptedNetworks|
    ensures GatewayMerchant(request) == Some(shopId)
    ensures request.tokenizationParameters.parameters.Keys == {"gateway", "gatewayMerchantId"}
    ensures request.tokenizationParameters.parameters["gateway"] == GatewayName
  {
    PaymentDataRequest(
      TransactionInfo(PriceFinal, option.charge.value, option.charge.currencyCode),
      [TokenizedCard],
      CardRequirements([Amex, Discover, Jcb, Visa, Mastercard], false),
      TokenizationParameters(PaymentGateway, map["gateway" := GatewayName, "gatewayMerchantId" := shopId]))
  }

  // ---------------------------------------------------------------- availability

  /**
    `checkGooglePayAvailable`: `delivered` is what the one-slot queue yields within the 10-second
    wait (`None` when nothing arrived). Google Pay counts as available only on a delivered `true`.
  */
  function GooglePayAvailable(delivered: Option<bool>): (available: bool)
    ensures available <==> delivered == Some(true)
  {
    delivered.GetOr(false)
  }

  // ---------------------------------------------------------------- starting a tokenization

  /** What `startGooglePayTokenization` hands to the wallet. */
  datatype StartEffect = Ignored | Submitted(request: PaymentDataRequest)

  /**
    `startGooglePayTokenization`. While a result is awaited the call changes nothing and submits
    nothing. Otherwise it records the given id and flag first; only then does it look the option
    up, so a missing option throws with the new context already recorded and the adapter still
    not waiting. A found option (the first with that id) is turned into the request that is
    submitted, and the adapter starts waiting.
  */
  function StartTokenization(
    s: TrackingState, loaded: seq<PaymentOption>, shopId: string,
    paymentOptionId: int, recurringPaymentsPossible: bool): (t: Transition<StartEffect>)
    ensures s.waitingForResult ==> t == Transition(s, Returned(Ignored))
    ensures !s.waitingForResult ==>
      && t.state.paymentOptionId == Some(paymentOptionId)
      && t.state.recurringPaymentsPossible == Some(recurringPaymentsPossible)
      && (t.state.waitingForResult <==> t.outcome.Returned?)
    ensures t.outcome.Thrown? <==>
      !s.waitingForResult && forall i :: 0 <= i < |loaded| ==> loaded[i].id != paymentOptionId
    ensures t.outcome.Thrown? ==> t.outcome.fault == OptionNotLoaded
    ensures t.outcome == Returned(Ignored) <==> s.waitingForResult
    ensures t.outcome.Returned? && t.outcome.value.Submitted? ==>
      exists i :: IsFirstWithId(loaded, paymentOptionId, i)
        && t.outcome.value.request == BuildPaymentDataRequest(loaded[i], shopId)
  {
    if s.waitingForResult then
      Transition(s, Returned(Ignored))
    else
      var recorded := s.(paymentOptionId := Some(paymentOptionId),
                         recurringPaymentsPossible := Some(recurringPaymentsPossible));
      match FirstIndexWithId(loaded, paymentOptionId)
      case None => Transition(recorded, Thrown(OptionNotLoaded))
      case Some(i) =>
        var request := BuildPaymentDataRequest(loaded[i], shopId);
        Transition(recorded.(waitingForResult := true), Returned(Submitted(request)))
  }

  // ---------------------------------------------------------------- handling the result

  datatype PaymentMethodToken = PaymentMethodToken(token: string)

  /** What `PaymentData.getFromIntent` extracts from a result. */
  datatype PaymentData = PaymentData(
    paymentMethodToken: Option<PaymentMethodToken>,
    googleTransactionId: string)

  /** The result intent, as far as the adapter reads it. */
  datatype ResultData = ResultData(paymentData: Option<PaymentData>)

  /** The tokenized card handed on to the rest of the SDK. */
  datatype GooglePayInfo = GooglePayInfo(paymentMethodToken: string, googleTransactionId: string)

  /** `GooglePayTokenizationResult` and its three variants. */
  datatype TokenizationResult =
    | Success(paymentOptionId: int, recurringPaymentsPossible: bool, paymentOptionInfo: GooglePayInfo)
    | Canceled
    | NotHandled

  /** A result payload that carries payment data with a token. */
  function CompletePayload(token: string, googleTransactionId: string): ResultData
  {
    ResultData(Some(PaymentData(Some(PaymentMethodToken(token)), googleTransactionId)))
  }

  /**
    `handleGooglePayTokenization`. A result for another request code is not handled and changes
    nothing. A result for this adapter always ends the wait and never touches the recorded
    context. A non-OK result code is a cancellation. An OK result is a success that carries the
    recorded id and flag with the delivered token and transaction id; it throws instead when
    something is absent, checked in this order: the intent, its payment data, the recorded id,
    the recorded flag, the token.
  */
  function HandleTokenization(
    s: TrackingState, requestCode: int, resultCode: int, data: Option<ResultData>): (t: Transition<TokenizationResult>)
    ensures requestCode != GooglePayRequestCode ==> t == Transition(s, Returned(NotHandled))
    ensures requestCode == GooglePayRequestCode ==> t.state == s.(waitingForResult := false)
    ensures t.outcome == Returned(NotHandled) <==> requestCode != GooglePayRequestCode
    ensures t.outcome == Returned(Canceled) <==>
      requestCode == GooglePayRequestCode && resultCode != ResultOk
    ensures t.outcome.Returned? && t.outcome.value.Success? ==>
      var r := t.outcome.value;
      && requestCode == GooglePayRequestCode && resultCode == ResultOk
      && s.paymentOptionId == Some(r.paymentOptionId)
      && s.recurringPaymentsPossible == Some(r.recurringPaymentsPossible)
      && data == Some(CompletePayload(r.paymentOptionInfo.paymentMethodToken, r.paymentOptionInfo.googleTransactionId))
    ensures requestCode == GooglePayRequestCode && resultCode == ResultOk ==>
      && (data.None? ==> t.outcome == Thrown(MissingResultData))
      && (data.Some? && data.value.paymentData.None? ==> t.outcome == Thrown(MissingPaymentData))
      && (data.Some? && data.value.paymentData.Some? ==>
            && (s.paymentOptionId.None? ==> t.outcome == Thrown(MissingPaymentOptionId))
            && (s.paymentOptionId.Some? && s.recurringPaymentsPossible.None? ==>
                  t.outcome == Thrown(MissingRecurringFlag))
            && (s.paymentOptionId.Some? && s.recurringPaymentsPossible.Some?
                && data.value.paymentData.value.paymentMethodToken.None? ==>
                  t.outcome == Thrown(MissingPaymentMethodToken)))
    ensures requestCode == GooglePayRequestCode && resultCode == ResultOk
            && s.paymentOptionId.Some? && s.recurringPaymentsPossible.Some?
            && data.Some? && data.value.paymentData.Some?
            && data.value.paymentData.value.paymentMethodToken.Some? ==>
      var paymentData := data.value.paymentData.value;
      t.outcome == Returned(Success(s.paymentOptionId.value, s.recurringPaymentsPossible.value,
        GooglePayInfo(paymentData.paymentMethodToken.value.token, paymentData.googleTransactionId)))
    ensures t.outcome.Thrown? ==> requestCode == GooglePayRequestCode && resultCode == ResultOk
  {
    if requestCode != GooglePayRequestCode then
      Transition(s, Returned(NotHandled))
    else
      var s' := s.(waitingForResult := false);
      if resultCode != ResultOk then
        Transition(s', Returned(Canceled))
      else if data.None? then
        Transition(s', Thrown(MissingResultData))
      else if data.value.paymentData.None? then
        Transition(s', Thrown(MissingPaymentData))
      else if s.paymentOptionId.None? then
        Transition(s', Thrown(MissingPaymentOptionId))
      else if s.recurringPaymentsPossible.None? then
        Transition(s', Thrown(MissingRecurringFlag))
      else
        var paymentData := data.value.paymentData.value;
        match paymentData.paymentMethodToken
        case None => Transition(s', Thrown(MissingPaymentMethodToken))
        case Some(token) =>
          var info := GooglePayInfo(token.token, paymentData.googleTransactionId);
          Transition(s', Returned(Success(s.paymentOptionId.value, s.recurringPaymentsPossible.value, info)))
  }

  // ---------------------------------------------------------------- reset

  /** `reset`: forgets the request context and the wait, whatever the state was. */
  function Reset(s: TrackingState): (r: TrackingState)
    ensures r == Initial
  {
    TrackingState(None, None, false)
  }
}
