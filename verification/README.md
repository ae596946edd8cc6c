# Yandex Checkout Android SDK: Google Pay adapter and current-user gateway, in Dafny

This project models two small pieces of the Yandex Checkout Android SDK.

- **`SharedPreferencesCurrentUserGateway`** keeps the current user in the app's preferences.
  The user is either `Anonymous` or `Authorized(name)`. It is stored under the single key
  `"current_user_name"`. The key is absent for an anonymous user and holds the name for an
  authorized one. Module `CurrentUserGateway` models the store as `map<string, string>` and
  the getter and setter as pure functions over it. Because reading is a function of the store
  alone, it cannot change the store.
- **`GooglePayIntegration`** wraps the Google Wallet client. Module `GooglePayIntegration` models:
  - the three request-tracking fields (`paymentOptionId`, `recurringPaymentsPossible`,
    `waitingForResult`) as an immutable `TrackingState`;
  - `startGooglePayTokenization`, `handleGooglePayTokenization` and `reset` as pure
    transition functions returning a `Transition`. A `Transition` holds the state after the
    call and an `Outcome`: the returned value, or the unchecked exception that escaped
    (`Fault`, named after the failing check). The state after an exception keeps every
    assignment the code made before the failing check;
  - the lookup of the first loaded option with a given id;
  - the construction of the `PaymentDataRequest`;
  - the defaulting of the availability answer.

  Module `GooglePayProperties` proves properties that span several calls. It defines a trace of
  calls and the invariant `Consistent`, which every trace keeps: the id and the flag are
  present together, and a waiting adapter has both.

A complete OK result delivered after `reset` does not produce a `Success` with missing fields.
It throws at `checkNotNull(paymentOptionId)`, and by then `waitingForResult` has already been cleared.
`GooglePayProperties.SuccessAfterResetThrows` states this.

Constants: the request code is `0xAB1D`. `RESULT_OK` is Android's `-1`. The wallet's
enumerations (price status, payment method, card network, tokenization type) are datatypes
rather than numbers. Kotlin's `Int` is modelled as `int`; the adapter only compares such
values, so their width never matters.

## Model

| member | source | states |
|---|---|---|
| CurrentUserGateway.ReadCurrentUser | library/src/main/java/ru/yandex/money/android/sdk/impl/payment/SharedPreferencesCurrentUserGateway.kt:38-44 | the user is Anonymous exactly when "current_user_name" is absent; otherwise it is Authorized with the stored string |
| CurrentUserGateway.WriteCurrentUser | library/src/main/java/ru/yandex/money/android/sdk/impl/payment/SharedPreferencesCurrentUserGateway.kt:45-51 | reading back after a write yields exactly the user written (Anonymous removes the key, Authorized(n) stores n); no other key gains, loses or changes a value |
| CurrentUserGateway.WriteWhatWasRead | library/src/main/java/ru/yandex/money/android/sdk/impl/payment/SharedPreferencesCurrentUserGateway.kt:38-51 | writing back the user just read leaves the store unchanged |
| CurrentUserGateway.LastWriteWins | library/src/main/java/ru/yandex/money/android/sdk/impl/payment/SharedPreferencesCurrentUserGateway.kt:45-51 | after two writes the store equals the store after the second write alone |
| CurrentUserGateway.WriteIdempotent | library/src/main/java/ru/yandex/money/android/sdk/impl/payment/SharedPreferencesCurrentUserGateway.kt:45-51 | writing the same user twice equals writing it once |
| GooglePayIntegration.FirstIndexWithId | library/src/main/java/ru/yandex/money/android/sdk/impl/paymentOptionList/GooglePayIntegration.kt:98 | the lookup finds the first option in list order whose id matches, and finds nothing exactly when no option has that id |
| GooglePayIntegration.BuildPaymentDataRequest | library/src/main/java/ru/yandex/money/android/sdk/impl/paymentOptionList/GooglePayIntegration.kt:100-126 | the request charges the option's amount and currency at a final price; it accepts only tokenized cards, from Amex, Discover, JCB, Visa and Mastercard, each listed once, never prepaid; the "yandexcheckout" gateway tokenizes for the shop id and there are no other parameters |
| GooglePayIntegration.GooglePayAvailable | library/src/main/java/ru/yandex/money/android/sdk/impl/paymentOptionList/GooglePayIntegration.kt:79-83 | available exactly when a true answer was delivered; false when nothing arrived or the answer was false |
| GooglePayIntegration.StartTokenization | library/src/main/java/ru/yandex/money/android/sdk/impl/paymentOptionList/GooglePayIntegration.kt:86-140 | while waiting: no field changes and nothing is submitted; otherwise the given id and flag are recorded; if no loaded option has the id, the call throws with the adapter still not waiting; otherwise it submits the request built from the first matching option and starts waiting |
| GooglePayIntegration.HandleTokenization | library/src/main/java/ru/yandex/money/android/sdk/impl/paymentOptionList/GooglePayIntegration.kt:142-162 | another request code: NotHandled, with nothing changed; this request code: the wait ends and the context is untouched; a non-OK code gives Canceled; OK with the intent, payment data, both recorded fields and a token present gives Success with the recorded id and flag and the delivered token and transaction id, and a Success arises only that way; otherwise OK throws on the first absent item in the order intent, payment data, id, flag, token |
| GooglePayIntegration.Reset | library/src/main/java/ru/yandex/money/android/sdk/impl/paymentOptionList/GooglePayIntegration.kt:164-168 | whatever the prior state, the adapter returns to the fresh state: no id, no flag, not waiting |
| GooglePayProperties.InitialConsistent | library/src/main/java/ru/yandex/money/android/sdk/impl/paymentOptionList/GooglePayIntegration.kt:56-58 | a freshly constructed adapter (no id, no flag, not waiting) is consistent |
| GooglePayProperties.CallPreservesConsistent | library/src/main/java/ru/yandex/money/android/sdk/impl/paymentOptionList/GooglePayIntegration.kt:86-168 | each call keeps the id and flag present together, and present whenever the adapter waits |
| GooglePayProperties.CallsPreserveConsistent | library/src/main/java/ru/yandex/money/android/sdk/impl/paymentOptionList/GooglePayIntegration.kt:56-168 | every sequence of calls from a fresh or consistent adapter ends in a consistent state |
| GooglePayProperties.ConsistentNeverMissesFlag | library/src/main/java/ru/yandex/money/android/sdk/impl/paymentOptionList/GooglePayIntegration.kt:142-162 | in a consistent state a result never throws on the recorded flag |
| GooglePayProperties.StartThenSuccess | library/src/main/java/ru/yandex/money/android/sdk/impl/paymentOptionList/GooglePayIntegration.kt:86-162 | a start on an idle adapter for a loaded option, answered by a complete OK result, returns Success with exactly the started id and flag and leaves the adapter idle |
| GooglePayProperties.SecondStartDoesNotOverwrite | library/src/main/java/ru/yandex/money/android/sdk/impl/paymentOptionList/GooglePayIntegration.kt:86-162 | a second start before the result is ignored, and the success carries the first start's id and flag |
| GooglePayProperties.SuccessAfterResetThrows | library/src/main/java/ru/yandex/money/android/sdk/impl/paymentOptionList/GooglePayIntegration.kt:142-168 | a complete OK result after reset throws at the recorded-id check and leaves the adapter in the fresh state |
| GooglePayProperties.RequestDeterminedByChargeAndShop | library/src/main/java/ru/yandex/money/android/sdk/impl/paymentOptionList/GooglePayIntegration.kt:100-126 | two options give the same request exactly when they have the same charge and the same shop id |
| GooglePayProperties.FirstWithIdUnique | library/src/main/java/ru/yandex/money/android/sdk/impl/paymentOptionList/GooglePayIntegration.kt:98 | at most one position is the first with a given id |

## Left out

- The Google Wallet `PaymentsClient` calls (`isReadyToPay`, `loadPaymentData`) and their completion listeners. They are foreign and asynchronous. Their effects become a parameter (the delivered availability answer) and a returned effect (`Submitted(request)`).
- The resolvable-exception path, which launches `PendingIntentActivity` with `startActivityForResult`. It is Android UI lifecycle, and the model sees it only through later results handed to `HandleTokenization`. The `Fragment` parameter is dropped for the same reason.
- The `ArrayBlockingQueue` with its 10-second wait. This is threading and timing, so only the delivered value survives, as an `Option<bool>`. A failed wallet call or a null answer never reaches the queue and reads as `None`.
- The content of the `IsReadyToPayRequest` (card and tokenized card). The wallet alone interprets it, and only its answer matters here.
- `Log.d` and `AutoResolveHelper.getStatusFromIntent` on the cancel path. They are diagnostics only.
- `PaymentData.getFromIntent`. It is a foreign parser, so the intent is an `Option<ResultData>` whose payment data is an optional token plus a transaction id.
- The `BigDecimal.toPlainString` and `Currency.currencyCode` formatting. They are opaque strings carried by the option's `Charge`.
- The constructor's choice of wallet environment (test or production). It is configuration only.
- The loaded-options gateway and the shop id. They are passed to `StartTokenization` as parameters.
- `SharedPreferences` commit semantics and the `edit` extension, which is not part of this model. An edit is one atomic map update.
- Non-string values stored under the user-name key. The store holds strings only.
