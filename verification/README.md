# Payment gateway simulator — a Dafny model of its decision core

The system simulates three payment providers (Stripe, PayPal, MercadoPago) behind
one interface. This project models the part of it that makes decisions:

- the **card classifier**, which strips spaces and hyphens from a card number and reads
  its brand from the first one or two digits;
- the **outcome resolver**, which gives each of eight test card numbers a fixed outcome
  and gives any other number a weighted draw (80 approve, 15 decline, 5 fail out of 100),
  with a six-digit authorisation code on every approval;
- the **transaction store** and its **refund state machine**: a payment files exactly one
  record; a refund moves an Approved record to Refunded and changes nothing else; every
  other refund is rejected and leaves the store as it was;
- the **gateway descriptors**, the per-provider metadata;
- the **gateway registry**, built once from the registered simulators, which resolves a
  provider or reports it unsupported, and lists one descriptor per simulator.

Modules, one per component:

| file | module | models |
|---|---|---|
| `payment_enums.dfy` | `PaymentEnums` | the status, gateway and card-type enumerations |
| `wrappers.dfy` | `Wrappers` | `Option` (nullable values) and `Result` (thrown errors) |
| `card_classifier.dfy` | `CardClassifier` | `DetectCardType` and number cleaning |
| `outcome_resolver.dfy` | `OutcomeResolver` | `DetermineTransactionResult`, `SimulateRandomResult`, `GenerateAuthCode` |
| `transactions.dfy` | `Transactions` | records, requests and responses, ids, and the payment and refund steps as functions of the store's value |
| `simulator.dfy` | `Simulator` | the store class and the simulator class whose methods change the store |
| `gateways.dfy` | `Gateways` | the three providers' metadata |
| `gateway_factory.dfy` | `GatewayFactory` | `PaymentGatewayFactory` |

The store is a class with a `map` field. The simulator's `ProcessPayment` and
`ProcessRefund` methods change only that field. Each method's postcondition equates
the new map and the response with the pure functions `Pay` and `Refund`. The properties
are stated on those two functions, which lemmas about several steps can call. The random
draws, the fresh GUIDs and the clock readings are parameters, so every operation is
deterministic. The source keeps the store in a static dictionary that every simulator
shares. Here a `PaymentSimulator` holds a reference to a `TransactionStore`, and the
registry holds one store that every simulator it files must hold: `Create` takes that
store, and `Registry.Valid` keeps every registered simulator on it.

## Model

| member | source | states |
|---|---|---|
| `CardClassifier.RemoveAll` | ECommerceAPI/Services/BasePaymentSimulator.cs:146 | `Replace(x, "")` leaves no `x`, adds no character and never lengthens the string |
| `CardClassifier.Clean` | ECommerceAPI/Services/BasePaymentSimulator.cs:146 | the cleaned number has no space or hyphen and only characters of the input |
| `CardClassifier.CleanIsSignificant` | ECommerceAPI/Services/BasePaymentSimulator.cs:146 | removing spaces and then hyphens keeps exactly the non-separator characters, in order |
| `CardClassifier.CleanAppend` | ECommerceAPI/Services/BasePaymentSimulator.cs:146 | cleaning distributes over concatenation |
| `CardClassifier.CleanEmptyIffAllSeparators` | ECommerceAPI/Services/BasePaymentSimulator.cs:146 | a number cleans to the empty string exactly when it has only spaces and hyphens |
| `CardClassifier.CleanWithoutSeparators` | ECommerceAPI/Services/BasePaymentSimulator.cs:146 | a number typed without separators is inspected as typed |
| `CardClassifier.DetectCardTypeAsWritten` | ECommerceAPI/Services/BasePaymentSimulator.cs:144-155 | as written, it needs a non-empty cleaned number; then a leading 4 is Visa, a leading 5 is MasterCard, a leading 3 followed by 4 or 7 is AmericanExpress, each in both directions, and anything else is Unknown |
| `CardClassifier.BlankCardNumberHasNoDigit` | ECommerceAPI/Models/PaymentRequest.cs:65-67 | a number of 13 hyphens is not blank, so the required-field check accepts it, and is within the validated length 13 to 19, yet it cleans to the empty string that the classifier indexes |
| `CardClassifier.DetectCardType` | ECommerceAPI/Services/BasePaymentSimulator.cs:144-155 | the same brand rules as iff conditions on the cleaned number; Unknown when nothing is left after cleaning; equal to the as-written classifier wherever that one is defined |
| `CardClassifier.BrandDecidedByPrefix` | ECommerceAPI/Services/BasePaymentSimulator.cs:148-154 | only the first two significant characters decide the brand |
| `CardClassifier.SeparatorsDoNotChangeBrand` | ECommerceAPI/Services/BasePaymentSimulator.cs:146-154 | inserting a space or hyphen anywhere in a number never changes its brand |
| `CardClassifier.BrandOfDigits` | ECommerceAPI/Services/BasePaymentSimulator.cs:148-154 | the brand of a number that begins with two non-separator characters is the brand of those two alone: a leading 4 is Visa, a leading 5 MasterCard, a 3 followed by 4 or 7 AmericanExpress, any other pair Unknown |
| `CardClassifier.VisaTestNumberBrand` | ECommerceAPI/Services/BasePaymentSimulator.cs:150 | 4242424242424242 is Visa |
| `CardClassifier.MasterCardTestNumberBrand` | ECommerceAPI/Services/BasePaymentSimulator.cs:151 | 5555555555554444 is MasterCard |
| `CardClassifier.AmexTestNumberBrand` | ECommerceAPI/Services/BasePaymentSimulator.cs:152 | 378282246310005 is AmericanExpress |
| `CardClassifier.DiscoverTestNumberBrand` | ECommerceAPI/Services/BasePaymentSimulator.cs:153 | 6011000000000004 is Unknown |
| `OutcomeResolver.DecimalString` | ECommerceAPI/Services/BasePaymentSimulator.cs:191 | `int.ToString()` of a non-negative value is a non-empty string of decimal digits |
| `OutcomeResolver.DecimalStringValue` | ECommerceAPI/Services/BasePaymentSimulator.cs:191 | reading the decimal string back gives the number |
| `OutcomeResolver.DecimalStringLength` | ECommerceAPI/Services/BasePaymentSimulator.cs:191 | a number with k + 1 digits is written with k + 1 characters |
| `OutcomeResolver.GenerateAuthCode` | ECommerceAPI/Services/BasePaymentSimulator.cs:189-192 | a draw from [100000, 999999) becomes a 6-character all-digit code whose value is the draw |
| `OutcomeResolver.AuthCodesDistinct` | ECommerceAPI/Services/BasePaymentSimulator.cs:191 | different draws give different authorisation codes |
| `OutcomeResolver.SimulateRandomResult` | ECommerceAPI/Services/BasePaymentSimulator.cs:176-187 | chance < 80 approves with the success message and a code; 80 to 94 declines with "Tarjeta declinada por el banco" and `card_declined`; 95 to 99 fails with "Error de conexión con el procesador" and `gateway_error`; the authorisation code is present iff approved and the error code iff not |
| `OutcomeResolver.DetermineTransactionResult` | ECommerceAPI/Services/BasePaymentSimulator.cs:157-174 | a cleaned number in the test table gets exactly its tabled status, message and error code; any other number gets the fallback draw; the result is always Approved, Declined or Failed, with the authorisation code present iff approved and the error code iff not |
| `OutcomeResolver.TestCardsIgnoreChance` | ECommerceAPI/Services/BasePaymentSimulator.cs:162-171 | a test number's status, message and error code do not depend on either draw |
| `OutcomeResolver.DeclinedTestCard` | ECommerceAPI/Services/BasePaymentSimulator.cs:165 | 4000000000000002 is Declined with `card_declined` and no authorisation code |
| `OutcomeResolver.ProcessingErrorTestCard` | ECommerceAPI/Services/BasePaymentSimulator.cs:168 | 4000000000000119 is Failed with `processing_error` |
| `OutcomeResolver.ApprovedTestCard` | ECommerceAPI/Services/BasePaymentSimulator.cs:164 | 4242424242424242 is Approved with a 6-digit code and no error code |
| `OutcomeResolver.DrawSplit` | ECommerceAPI/Services/BasePaymentSimulator.cs:179-186 | of the 100 equally likely values of `chance`, exactly 80 approve, 15 decline and 5 fail |
| `Transactions.GenerateTransactionId` | ECommerceAPI/Services/BasePaymentSimulator.cs:139-142 | the id is `txn_` followed by the first 20 hex digits of the GUID, 24 characters in all |
| `Transactions.GenerateRefundId` | ECommerceAPI/Services/BasePaymentSimulator.cs:101 | the refund id is `ref_` followed by the first 16 hex digits of the GUID, 20 characters in all |
| `Transactions.TransactionIdsDistinguishGuids` | ECommerceAPI/Services/BasePaymentSimulator.cs:141 | two GUIDs give the same transaction id exactly when their first 20 digits agree |
| `Transactions.EvolvesTransitive` | ECommerceAPI/Services/BasePaymentSimulator.cs:198-208 | the allowed evolution of the store composes over several steps |
| `Transactions.RefundedIsFinal` | ECommerceAPI/Services/BasePaymentSimulator.cs:86-104 | once refunded, a record stays refunded however the store evolves |
| `Transactions.Pay` | ECommerceAPI/Services/BasePaymentSimulator.cs:28-64 | the store gains exactly the new id, every other entry is unchanged, and the new record has the response's status, the request's amount and currency, this simulator's gateway and the creation time, with no update time and no refund id; the response's status, message, authorisation code and error code are the resolver's outcome for the card; it echoes amount, currency and gateway and carries the brand and the last four characters |
| `Transactions.PayKeepsInvariant` | ECommerceAPI/Services/BasePaymentSimulator.cs:53-62 | a payment keeps every record filed under its own id, resolved, and without refund data |
| `Transactions.PayEvolves` | ECommerceAPI/Services/BasePaymentSimulator.cs:53-62 | a payment under an unused id changes no existing record |
| `Transactions.Refund` | ECommerceAPI/Services/BasePaymentSimulator.cs:67-118 | the refund succeeds iff the record exists and is Approved; a missing id is rejected as Failed with amount 0, currency USD and no store change; a record that is not Approved is rejected the same way, with the record's currency; a success sets status Refunded, the update time and the refund id, keeps amount, currency, gateway and creation time, leaves every other entry alone, and returns the success message with the requested amount or else the full amount |
| `Transactions.SecondRefundFails` | ECommerceAPI/Services/BasePaymentSimulator.cs:86-98 | after a successful refund, refunding the same id again fails and changes nothing |
| `Transactions.SeparatorOnlyNumberIsFiled` | ECommerceAPI/Services/BasePaymentSimulator.cs:29-54 | a number of hyphens only cleans to the empty string, on which the source's classifier throws before the insert; the model's payment files it with brand Unknown |
| `Transactions.ApprovedPaymentRefundsInFull` | ECommerceAPI/Services/BasePaymentSimulator.cs:100-117 | an approved payment refunded without an amount returns the amount and currency paid |
| `Simulator.TransactionStore.constructor` | ECommerceAPI/Services/BasePaymentSimulator.cs:14 | the store starts empty and valid |
| `Simulator.TransactionStore.GetTransaction` | ECommerceAPI/Services/BasePaymentSimulator.cs:134-137 | the record is returned iff the id is stored; in a valid store it carries that id and is never Pending, Processing or Cancelled |
| `Simulator.PaymentSimulator.constructor` | ECommerceAPI/Services/BasePaymentSimulator.cs:14-16 | a simulator has its provider type and the store it is given; that this is the one shared store is kept by the registry (`Create`, `Registry.Valid`) |
| `Simulator.PaymentSimulator.GetGatewayInfo` | ECommerceAPI/Services/BasePaymentSimulator.cs:120-132 | the descriptor names this provider and its metadata, is active and simulated, and lists Visa, MasterCard and AmericanExpress |
| `Simulator.PaymentSimulator.ProcessPayment` | ECommerceAPI/Services/BasePaymentSimulator.cs:21-65 | keeps the store valid, changes it and answers exactly as `Pay` says, and a lookup of the new id returns the filed record |
| `Simulator.PaymentSimulator.ProcessRefund` | ECommerceAPI/Services/BasePaymentSimulator.cs:67-118 | keeps the store valid, and changes it and answers exactly as `Refund` says |
| `Gateways.CurrencyListsWellFormed` | ECommerceAPI/Services/StripeSimulatorService.cs:18-19 | each provider lists distinct three-letter codes, USD among them (the Stripe list; PayPal's is at PayPalSimulatorService.cs:18-19 and MercadoPago's at MercadoPagoSimulatorService.cs:19-20) |
| `Gateways.GatewayNamesDistinct` | ECommerceAPI/Services/StripeSimulatorService.cs:12 | no two providers share a display name |
| `GatewayFactory.AddAll` | ECommerceAPI/Services/PaymentGatewayFactory.cs:23 | adding simulators that hold the registry's store succeeds iff all keys are distinct; the result is a valid registry on the same store whose order extends the old one, which keeps the old entries and files each simulator under its type |
| `GatewayFactory.Create` | ECommerceAPI/Services/PaymentGatewayFactory.cs:21-24 | construction from simulators that all hold the static store succeeds iff no two share a gateway type, and then yields a registry on that store with one entry per simulator, in registration order; otherwise it reports a duplicate |
| `GatewayFactory.GetGateway` | ECommerceAPI/Services/PaymentGatewayFactory.cs:26-34 | returns the registered simulator iff the provider is registered, and that simulator's type is the one asked for and its store the registry's; otherwise returns the unsupported-provider error |
| `GatewayFactory.GetAllGateways` | ECommerceAPI/Services/PaymentGatewayFactory.cs:36-39 | one descriptor per registered simulator, in registration order, each describing that simulator; no provider twice; all active and simulated, listing Visa, MasterCard and AmericanExpress |
| `GatewayFactory.RegisteredProvidersResolve` | ECommerceAPI/Program.cs:8-10 | the three providers the service registers, on one store, build a registry in which each of Stripe, PayPal and MercadoPago resolves to exactly the simulator registered for it, and three descriptors are listed |

## Left out

- Simulated latency (`Task.Delay`), the stopwatch and `ProcessingTimeMs`: timing only. `DateTime.UtcNow` becomes a `now` parameter. The source reads the clock separately for the response and for the record; the model uses one reading for both.
- `System.Random` and `Guid.NewGuid`: the draws (`chance`, `authDraw`) and the GUIDs are parameters. The 80/15/5 split is stated as a count over the 100 values of `chance` (`DrawSplit`), not as a probability.
- Transaction id collisions: the source does not check them, and neither does `Pay`. A payment under an id already stored overwrites that record, as the dictionary assignment does. `PayEvolves` assumes the id is unused.
- Aliasing: `GetTransaction` returns the live record object in the source. Records here are values, so a caller cannot mutate a record it looked up.
- Concurrency: the shared dictionary has no locking in the source. Racing refunds are outside this sequential model.
- Amounts are `real`, standing for the exact decimal values. No bound between a partial refund and the original amount is checked, because the source checks none.
- Request validation attributes, HTTP routing and status codes, dependency-injection wiring and the health endpoint are framework plumbing and are not modelled. The exceptions are the card number's required-field and length checks, used in `BlankCardNumberHasNoDigit`.
- `ProcessPayment` and `Pay` require a card number of at least four characters, because the source takes `Number[^4..]`. Request validation guarantees 13 or more.
- Simulator.PaymentSimulator.constructor: takes the store as a parameter, because Dafny has no static mutable field. The constructor alone does not make it the one store every simulator shares; `GatewayFactory.Create` requires all registered simulators to hold the store it is given, and `Registry.Valid` keeps that.
- Transactions.Pay: uses the corrected classifier. On a card number of separators only, the source throws an `IndexOutOfRangeException` at BasePaymentSimulator.cs:148 (reached from line 29) before the insert at line 54, and the controller, which catches only `ArgumentException`, does not turn it into a response. The model instead files the payment with brand Unknown (`SeparatorOnlyNumberIsFiled`).
- Transactions.Pay: strings are sequences of Unicode scalar values, not of UTF-16 code units as in .NET. `Number[^4..]` counts UTF-16 units, so for a card number ending in a character outside the Basic Multilingual Plane the source's `cardLastFour` holds fewer characters than the model's (the model takes the last four scalar values). Cleaning, classification, the test table and the store are unaffected, since no such character is a separator or a digit.
- Simulator.PaymentSimulator.ProcessPayment: inherits the same UTF-16 difference in `cardLastFour` from `Pay`.
- Simulator.PaymentSimulator.ProcessPayment: the same as `Pay` for a card number of separators only; the source throws before filing, the model files the payment.
- The registry's dictionary is modelled as a map plus its registration order. That order is what the .NET dictionary enumerates when nothing is removed.

## Findings

| source | as written | input that shows it | evidently intended | confidence | as-written member | corrected member |
|---|---|---|---|---|---|---|
| ECommerceAPI/Services/BasePaymentSimulator.cs:146-148 | `DetectCardType` reads `cleanNumber[0]` without checking that anything is left after removing spaces and hyphens; the exception it raises is not the `ArgumentException` the controller catches | a card number of 13 hyphens, which is not blank and passes the length-13-to-19 validation (`BlankCardNumberHasNoDigit`) | a number with no digit is classified Unknown, as every other unrecognised number is | not executed | `CardClassifier.DetectCardTypeAsWritten` | `CardClassifier.DetectCardType` |
