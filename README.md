# Orders, payments and webhooks — a Dafny model

This project models the core of a NestJS backend that sells catalog products
through a card-payment provider (Stripe):

- **order creation** (`CreateOrderUseCase`): validate the requested lines
  against the product catalog, price them from the catalog, open a payment
  intent at the provider, then store a PENDING order;
- **the order store** (`OrderRepository`): create, list a user's orders
  newest first, look one up by id and owner, update a status by order id or
  by payment intent id;
- **user cancellation and lookup** (`CancelOrderUseCase`, `GetOrderUseCase`);
- **the payment webhook** (`HandleStripeWebhookUseCase`): verify the
  notification's signature, claim the event id in an idempotency ledger
  (`WebhookEventsRepository`, a collection with a unique index on `eventId`
  and a three-day TTL), and dispatch on the event type to one of three
  handlers that set PAID, FAILED or CANCELLED on the order carrying the
  payment intent;
- **authentication decisions**: register with a unique email, log in with
  indistinguishable credential errors, refresh a token pair with every
  failure collapsed to one error, read tokens from cookies, and the two
  token cookies' options;
- `arrayToMap`, the helper that indexes products by id.

Each use case, repository and helper is one Dafny module in one file, with
these groupings: the three payment handlers share `PaymentHandlers`; the
products repository's `findByIds` sits in `CreateOrder`, its only user; the
webhook-event schema's unique and TTL indexes sit in `WebhookEvents`; the
order entity is `OrderEntity`; and `Common` (option, result, thrown values,
time) and `AuthModel` (users, token payloads, auth errors) hold the types
several modules share. Stores whose contents the
source changes in place are classes (`OrderRepository`, `WebhookEventsRepository`,
`UserRepository`, and the webhook use case holding its handler table);
their methods state the whole new state as a function of the old one, and
lemmas about those functions carry the properties. Everything outside the
process is a parameter: the clock (`now`), the payment provider's calls
(`createPaymentIntent`, `cancelPaymentIntent`, `constructWebhookEvent`),
password hashing (`hash`, `compare`), token signing and verification
(`generateTokens`, `verifyRefreshToken`), and the failures the database may
throw (`fault`, `ledgerFault`, `storeFault`).

The behaviour is that of the code, including two places where it does less
than an idempotent payment flow is usually expected to do:

- the webhook handlers overwrite the status of the order the intent id
  designates whatever that status is; there is no PENDING guard, so a
  terminal status is not final and a PAID order can become CANCELLED or FAILED (`PaymentHandlers.PaidOrderLeavesPaid`),
  and a replayed success moves `paidAt`
  (`PaymentHandlers.SuccessReplayOverwritesPaidAt`);
- an event whose type has no handler is still claimed in the ledger, so the
  ledger records events that nothing processed (`HandleStripeWebhook.UnknownTypeRecorded`).

A request naming the same known product twice passes the catalog check with
fewer products than lines and nothing missing, so `missingProduct!.productId`
reads a property of `undefined`; the model returns `UndefinedDereference` for
it (`CreateOrder.RepeatedProductCrashes`).

## Model

| member | source | states |
|---|---|---|
| `ArrayUtils.IndexBy` | src/shared/utils/array.ts:1-7 | every element's key is a key of the map, each entry is stored under its own key, and the map has no more entries than the array |
| `ArrayUtils.IndexByKeys` | src/shared/utils/array.ts:1-7 | a key is in the map exactly when some element has it |
| `ArrayUtils.IndexByValues` | src/shared/utils/array.ts:1-7 | every value of the map is an element of the array |
| `ArrayUtils.IndexByLastWins` | src/shared/utils/array.ts:3-5 | for a key shared by several elements, the map holds the last of them |
| `ArrayUtils.IndexByDistinctSize` | src/shared/utils/array.ts:1-7 | with distinct keys the map has exactly one entry per element |
| `ArrayUtils.ArrayToMap` | src/shared/utils/array.ts:1-7 | the forEach loop builds exactly the map of `IndexBy` |
| `OrdersRepository.FirstMatch` | src/modules/orders/repository/orders.repository.ts:74-79 | `findOne`: the result matches the filter, and no earlier order does; with no result no order matches |
| `OrdersRepository.ApplyUpdate` | src/modules/orders/repository/orders.repository.ts:104-107 | the update sets the status, sets `paidAt` only when one is given, and changes no other field |
| `OrdersRepository.UpdateByIntent` | src/modules/orders/repository/orders.repository.ts:116-135 | the collection after `updateStatusByPaymentIntentId`: the first order in id order carrying the intent gets the update, every other order is left as it was, and no order is added or removed |
| `OrdersRepository.FirstMatchStable` | src/modules/orders/repository/orders.repository.ts:126-131 | an update that keeps every key and what the filter sees of each order leaves `findOne`'s choice unchanged |
| `OrdersRepository.UpdateByIntentEffect` | src/modules/orders/repository/orders.repository.ts:116-135 | an update by intent id keeps the store well formed and its keys, changes nothing when no order carries the intent, and changes no order but the one `findOne` picks |
| `OrdersRepository.OwnedMembers` | src/modules/orders/repository/orders.repository.ts:56-58 | the owner's listing holds exactly the stored orders of that user |
| `OrdersRepository.OwnedDistinct` | src/modules/orders/repository/orders.repository.ts:56-58 | the owner's listing holds each order once, in increasing id order |
| `OrdersRepository.InsertByCreatedDesc` | src/modules/orders/repository/orders.repository.ts:59 | one insertion step of the sort adds exactly the one order |
| `OrdersRepository.InsertKeepsSorted` | src/modules/orders/repository/orders.repository.ts:59 | inserting into a newest-first list keeps it newest first |
| `OrdersRepository.SortByCreatedDesc` | src/modules/orders/repository/orders.repository.ts:59 | `sort({ createdAt: -1 })` returns a permutation of its input, newest first |
| `OrdersRepository.OrderRepository.constructor` | src/modules/orders/repository/orders.repository.ts:9 | the store starts empty and well formed |
| `OrdersRepository.OrderRepository.Create` | src/modules/orders/repository/orders.repository.ts:31-54 | stores a PENDING order with exactly the given user, items, total, currency and intent id, no `paidAt`, under a fresh id, advances the next id by one, and changes no other order |
| `OrdersRepository.OrderRepository.FindByUserId` | src/modules/orders/repository/orders.repository.ts:56-63 | exactly the caller's orders, each once, newest first |
| `OrdersRepository.OrderRepository.FindByIdAndUserId` | src/modules/orders/repository/orders.repository.ts:70-82 | the order is returned exactly when it exists and the caller owns it |
| `OrdersRepository.OrderRepository.FindPendingByIdAndUserId` | src/modules/orders/repository/orders.repository.ts:84-97 | the order is returned exactly when it exists, the caller owns it and it is PENDING |
| `OrdersRepository.OrderRepository.UpdateStatus` | src/modules/orders/repository/orders.repository.ts:99-114 | an absent id gives null and no change; otherwise the updated order is returned and is the only change |
| `OrdersRepository.OrderRepository.UpdateStatusByPaymentIntentId` | src/modules/orders/repository/orders.repository.ts:116-135 | a database failure propagates with no change; otherwise the first order carrying the intent is updated, whatever its status, and returned |
| `CreateOrder.FindByIds` | src/modules/products/repository/products.repository.ts:36-39 | `find({ _id: { $in: ids } })` returns only requested catalog products, with the catalog's name and price |
| `CreateOrder.FindByIdsFinds` | src/modules/products/repository/products.repository.ts:36-39 | every requested id the catalog knows is found |
| `CreateOrder.FindByIdsLength` | src/modules/orders/use-cases/create-order.use-case.ts:41-44 | as many products as lines come back exactly when every id is known and none is repeated |
| `CreateOrder.FindMissing` | src/modules/orders/use-cases/create-order.use-case.ts:46-48 | `items.find`: the first line whose product was not found, or none when every line's product was |
| `CreateOrder.ValidateProducts` | src/modules/orders/use-cases/create-order.use-case.ts:38-53 | validation passes exactly when every requested id is known and none is repeated, returning as many catalog products as lines, among them the product of every requested id; with an unknown id it reports `ProductNotFound` of the first unknown id in request order; with every id known but one repeated it is `UndefinedDereference` |
| `CreateOrder.HasInvalidQuantity` | src/modules/orders/use-cases/create-order.use-case.ts:55-60 | true exactly when some line has a quantity below 1 |
| `CreateOrder.ResolveCurrency` | src/modules/orders/use-cases/create-order.use-case.ts:89 | an absent or empty currency becomes "usd"; any other is kept |
| `CreateOrder.EmptyRequestRefused` | src/modules/orders/use-cases/create-order.use-case.ts:65-67 | an empty request is refused with `EmptyOrderItems` |
| `CreateOrder.UnknownProductReported` | src/modules/orders/use-cases/create-order.use-case.ts:38-53 | an unknown product is reported as `ProductNotFound` with the first unknown id in request order, before quantities are looked at |
| `CreateOrder.RepeatedProductCrashes` | src/modules/orders/use-cases/create-order.use-case.ts:44-49 | a repeated, known product id trips the length check with nothing missing: `UndefinedDereference` |
| `CreateOrder.InvalidQuantityRefused` | src/modules/orders/use-cases/create-order.use-case.ts:55-60 | with every product known once, a quantity below 1 is refused with `InvalidQuantity` |
| `CreateOrder.PlanSucceeds` | src/modules/orders/use-cases/create-order.use-case.ts:62-89 | validation passes exactly for a non-empty request of known, distinct products with positive quantities; then the lines are catalog-priced, the total is their sum and the currency resolved |
| `CreateOrder.Plan` | src/modules/orders/use-cases/create-order.use-case.ts:62-89 | `EmptyOrderItems` exactly for an empty request; every refusal is one of the four validation errors; an accepted request has one line per item, each a known product with the catalog's name and price and a quantity of at least 1, the total is the sum of the lines and the currency is resolved |
| `CreateOrder.PriceLinesShape` | src/modules/orders/use-cases/create-order.use-case.ts:76-87 | one line per requested item, in request order, with the request's product id and quantity and the catalog's name and price |
| `CreateOrder.LinesTotalIsCatalogTotal` | src/modules/orders/use-cases/create-order.use-case.ts:76-87 | the stored total equals the sum of `quantity * unitPrice` over the stored lines |
| `CreateOrder.IndexedCatalog` | src/modules/orders/use-cases/create-order.use-case.ts:74-77 | after validation the product index holds, for every requested id, that catalog product |
| `CreateOrder.PriceItems` | src/modules/orders/use-cases/create-order.use-case.ts:76-87 | the map callback's loop builds the catalog-priced lines and accumulates their total |
| `CreateOrder.PrepareOrder` | src/modules/orders/use-cases/create-order.use-case.ts:65-89 | the checks, the product index and the pricing loop before the provider call compute exactly `Plan`: its refusals, or the catalog-priced lines, their total and the resolved currency |
| `CreateOrder.Execute` | src/modules/orders/use-cases/create-order.use-case.ts:62-109 | a refused request neither calls the provider nor stores anything; otherwise the intent is opened for the total, currency and user, a provider failure stores nothing, and on success exactly one PENDING order with the intent's id is stored under the next id and returned with the client secret; the next id moves only then |
| `CancelOrder.Execute` | src/modules/orders/use-cases/cancel-order.use-case.ts:19-41 | only the caller's PENDING order can be cancelled, else `OrderCannotBeCancelled` with no provider call and no change; the provider is called exactly when the order has an intent id; its failure changes nothing; success makes that order, and only it, CANCELLED with `paidAt` kept |
| `GetOrder.Execute` | src/modules/orders/use-cases/get-order.use-case.ts:15-26 | the order when it exists and the caller owns it; otherwise `OrderNotFound`, the same for another user's order as for a missing one |
| `WebhookEvents.IsDuplicateKeyError` | src/modules/orders/repository/webhook-events.repository.ts:38-45 | true exactly for an object whose `code` is the number 11000 |
| `WebhookEvents.InsertEvent` | src/modules/orders/repository/webhook-events.repository.ts:24-28 | the insert succeeds exactly with no fault and a new id, and then adds exactly that record; a database fault is returned as thrown; with no fault a known id is refused with the duplicate-key error; a failed insert leaves the ledger as it was |
| `WebhookEvents.TryAcquireOutcome` | src/modules/orders/repository/webhook-events.repository.ts:22-36 | with no fault the result is true exactly for a new id, whose record is then stored with the type and time, and false for a known one; a fault that is a duplicate-key error reads as false; any other fault propagates; only a true claim changes the ledger |
| `WebhookEvents.Purge` | src/modules/orders/schemas/webhook-event.schema.ts:14 | the TTL monitor removes exactly the records older than 259200 seconds and keeps the rest as they were |
| `WebhookEvents.AtMostOneOfTwoClaims` | src/modules/orders/schemas/webhook-event.schema.ts:8 | of two claims of one event id at most one succeeds, exactly one when the id was new, and the second changes nothing |
| `WebhookEvents.ClaimAgainAfterPurge` | src/modules/orders/schemas/webhook-event.schema.ts:14 | once a claim's record has expired and been purged, the same event id can be claimed again |
| `WebhookEvents.WebhookEventsRepository.constructor` | src/modules/orders/repository/webhook-events.repository.ts:10-13 | the ledger starts empty |
| `WebhookEvents.WebhookEventsRepository.Insert` | src/modules/orders/repository/webhook-events.repository.ts:24-28 | the insert fails on a database fault, is refused by the unique index for a known id, and otherwise stores the record |
| `WebhookEvents.WebhookEventsRepository.TryAcquire` | src/modules/orders/repository/webhook-events.repository.ts:22-36 | the result and the new ledger are those of `TryAcquireOutcome` |
| `WebhookEvents.WebhookEventsRepository.PurgeExpired` | src/modules/orders/schemas/webhook-event.schema.ts:14 | one run of the TTL monitor leaves the purged ledger |
| `PaymentHandlers.HandleSuccess` | src/modules/orders/use-cases/integrations/handlers/success.handler.ts:13-29 | sets PAID with `paidAt` the handling time on the order carrying the intent; a database failure propagates and changes nothing |
| `PaymentHandlers.HandleFailed` | src/modules/orders/use-cases/integrations/handlers/failed.handler.ts:13-27 | sets FAILED, with no `paidAt`, on the order carrying the intent; a database failure propagates and changes nothing |
| `PaymentHandlers.HandleCancelled` | src/modules/orders/use-cases/integrations/handlers/cancelled.handler.ts:13-26 | sets CANCELLED, with no `paidAt`, on the order carrying the intent; a database failure propagates and changes nothing |
| `PaymentHandlers.HandlerOverwritesStatus` | src/modules/orders/repository/orders.repository.ts:121-131 | the designated order gets the handler's status whatever it had, and nothing else of it changes but `paidAt` when one is given |
| `PaymentHandlers.UpdateKeepsIntentTarget` | src/modules/orders/repository/orders.repository.ts:126-131 | an update by intent id does not change which order the intent designates |
| `PaymentHandlers.UpdateByIntentTwice` | src/modules/orders/repository/orders.repository.ts:116-135 | two updates by one intent id equal the second, with `paidAt` kept from the first when the second gives none |
| `PaymentHandlers.FailedHandlerIdempotent` | src/modules/orders/use-cases/integrations/handlers/failed.handler.ts:14-17 | applying the FAILED update twice equals applying it once |
| `PaymentHandlers.CancelledHandlerIdempotent` | src/modules/orders/use-cases/integrations/handlers/cancelled.handler.ts:14-17 | applying the CANCELLED update twice equals applying it once |
| `PaymentHandlers.SuccessReplayOverwritesPaidAt` | src/modules/orders/use-cases/integrations/handlers/success.handler.ts:14-18 | a later replay of the PAID update moves `paidAt` to the later time |
| `PaymentHandlers.PaidOrderLeavesPaid` | src/modules/orders/repository/orders.repository.ts:121-131 | any PAID order an intent designates becomes CANCELLED or FAILED under those handlers' updates, keeping its `paidAt` |
| `HandleStripeWebhook.HandlerTable` | src/modules/orders/use-cases/integrations/handle-stripe-webhook.use-case.ts:30-34 | the table maps exactly the three payment-intent event types to the success, failure and cancellation handlers |
| `HandleStripeWebhook.ProcessEventOutcome` | src/modules/orders/use-cases/integrations/handle-stripe-webhook.use-case.ts:70-80 | a handler is called exactly when the table has the event type, the table's handler with the event's intent; the result is an error exactly when a called handler's update throws, and then the orders are unchanged; otherwise only an order carrying the intent can change, to the handler's status |
| `HandleStripeWebhook.ExecuteOutcome` | src/modules/orders/use-cases/integrations/handle-stripe-webhook.use-case.ts:37-55 | a bad request exactly when the signature check fails, and then nothing changes; the ledger is unchanged or gains exactly the new event's record; every success is `{ received: true }` and every other error is a database fault passed through; a handler runs and the orders change only for a verified, newly claimed event |
| `HandleStripeWebhook.HandleStripeWebhookUseCase.constructor` | src/modules/orders/use-cases/integrations/handle-stripe-webhook.use-case.ts:23-35 | the use case holds its collaborators and its dispatch table is the three-entry table |
| `HandleStripeWebhook.HandleStripeWebhookUseCase.Execute` | src/modules/orders/use-cases/integrations/handle-stripe-webhook.use-case.ts:37-55 | the result, the ledger, the orders and the handler called are those of `ExecuteOutcome`: verify, claim, then dispatch |
| `HandleStripeWebhook.HandleStripeWebhookUseCase.VerifyAndParseEvent` | src/modules/orders/use-cases/integrations/handle-stripe-webhook.use-case.ts:57-68 | a failed signature check is a bad request; otherwise the parsed event is returned |
| `HandleStripeWebhook.HandleStripeWebhookUseCase.ProcessEvent` | src/modules/orders/use-cases/integrations/handle-stripe-webhook.use-case.ts:70-80 | an unknown type does nothing; a known type runs the table's handler with the event's payment intent |
| `HandleStripeWebhook.RejectedSignatureTouchesNothing` | src/modules/orders/use-cases/integrations/handle-stripe-webhook.use-case.ts:40-68 | a bad signature gives the bad request and touches neither the ledger nor the orders |
| `HandleStripeWebhook.ClaimedEventSkipped` | src/modules/orders/use-cases/integrations/handle-stripe-webhook.use-case.ts:42-50 | an event already in the ledger is acknowledged, no handler runs, and nothing changes |
| `HandleStripeWebhook.UnknownTypeRecorded` | src/modules/orders/use-cases/integrations/handle-stripe-webhook.use-case.ts:42-55 | the first delivery of a type without a handler is recorded in the ledger and acknowledged, and the orders do not change |
| `HandleStripeWebhook.FirstDeliveryDispatches` | src/modules/orders/use-cases/integrations/handle-stripe-webhook.use-case.ts:42-55 | the first delivery of a known type is recorded, acknowledged, and runs exactly the table's handler once on the event's intent |
| `HandleStripeWebhook.FaultFreeDeliveryAcknowledged` | src/modules/orders/use-cases/integrations/handle-stripe-webhook.use-case.ts:37-55 | with no database fault every verified delivery, first or repeated, of a known type or not, is answered `{ received: true }` and leaves its event id in the ledger |
| `HandleStripeWebhook.HandlerFailureIsNotRetried` | src/modules/orders/use-cases/integrations/handle-stripe-webhook.use-case.ts:42-52 | when the handler's update fails the event stays claimed, so its redelivery is skipped and the update is never applied |
| `UserStore.FirstWithEmail` | src/modules/users/repository/users.repository.ts:29-32 | the first user with the email, and none before it; none when no user has it |
| `UserStore.UserRepository.constructor` | src/modules/users/repository/users.repository.ts:9 | the user collection starts empty |
| `UserStore.UserRepository.FindByEmail` | src/modules/users/repository/users.repository.ts:29-32 | a user is returned exactly when one has the email, and with unique emails it is that user |
| `UserStore.UserRepository.FindById` | src/modules/users/repository/users.repository.ts:34-37 | a user is returned exactly when one has the id |
| `UserStore.UserRepository.Create` | src/modules/users/repository/users.repository.ts:23-27 | appends the user under the next id |
| `Register.Execute` | src/modules/auth/use-cases/register.use-case.ts:33-63 | a taken email gives `EmailAlreadyInUse(email)` and stores nothing; otherwise one user is stored with the hash of the password, tokens are signed for its id and email, the returned user has no password, and emails stay unique |
| `Login.Execute` | src/modules/auth/use-cases/login.use-case.ts:31-61 | success exactly for a known email whose stored hash matches the password; the result is the tokens signed for the user `findByEmail` returns and that user without password; every failure is `InvalidCredentials` |
| `Login.FailuresIndistinguishable` | src/modules/auth/use-cases/login.use-case.ts:32-45 | an unknown email and a wrong password give the same answer |
| `RefreshToken.Execute` | src/modules/auth/use-cases/refresh-token.use-case.ts:17-35 | success exactly when the token verifies and its subject exists; the pair is signed for the stored user; every failure is `InvalidRefreshToken` |
| `RefreshToken.PayloadEmailIgnored` | src/modules/auth/use-cases/refresh-token.use-case.ts:23-31 | two tokens with the same subject refresh to the same pair, whatever email they carry |
| `CookieExtractor.CookieKey` | src/modules/auth/strategies/cookie-extractor.ts:3 | the two cookie names are "accessToken" and "refreshToken" |
| `CookieExtractor.FromCookie` | src/modules/auth/strategies/cookie-extractor.ts:6-20 | no request or no cookies gives null; the value is returned exactly when it is a non-empty string, unchanged |
| `CookieExtractor.ExtractRefreshToken` | src/modules/auth/strategies/cookie-extractor.ts:22-24 | the "refreshToken" cookie when it is a non-empty string, else null |
| `CookieExtractor.ExtractAccessToken` | src/modules/auth/strategies/cookie-extractor.ts:26-28 | the "accessToken" cookie when it is a non-empty string, else null |
| `CookieExtractor.ExtractorsReadOneKey` | src/modules/auth/strategies/cookie-extractor.ts:12 | each extractor's answer does not depend on any other cookie |
| `CookieConfig.NewAuthCookieConfig` | src/modules/auth/config/cookie.config.ts:11-13 | production exactly when the environment is "production" |
| `CookieConfig.GetAccessTokenConfig` | src/modules/auth/config/cookie.config.ts:15-26 | the "accessToken" cookie lives 900000 ms, fifteen minutes |
| `CookieConfig.GetRefreshTokenConfig` | src/modules/auth/config/cookie.config.ts:28-39 | the "refreshToken" cookie lives 2592000000 ms, thirty days |
| `CookieConfig.CookiePolicy` | src/modules/auth/config/cookie.config.ts:15-39 | both cookies are httpOnly, sameSite "strict", path "/", secure exactly in production, and the refresh cookie outlives the access cookie |

## Left out

- The payment provider's SDK, bcrypt and JWT are not modelled: their calls are function parameters. The provider's calls (`createPaymentIntent`, `cancelPaymentIntent`, `constructWebhookEvent`) and `verifyRefreshToken` can fail, as an `Err` or `None` result; `hash`, `compare` and `generateTokens` are total functions, taken never to throw.
- `Register.Execute`: the source stores the new user before it signs the tokens, so a signer that throws would leave a stored user behind a failed request, and a retry would then get `EmailAlreadyInUse`; with `generateTokens` taken never to throw, that outcome is not modelled. In `RefreshToken.Execute` such a throw would be caught and become `InvalidRefreshToken`.
- Concurrency and atomicity are left out. Each operation runs alone, so the unique index's protection against racing deliveries is a sequential insert-if-absent. The race between a user cancellation and a webhook update is outside the model.
- Mongo plumbing is left out: `toEntity`, `ObjectId` conversion and the cast errors it throws on malformed ids, `updatedAt`, and timestamps other than `createdAt`, `paidAt` and `processedAt`. Ids are natural numbers handed out in insertion order, and `findOne` picks the lowest matching id.
- A request id is the product's stored id string itself. In the source, an id that `$in` matches as an `ObjectId` but that is spelled differently (upper-case hex, say) passes `validateProducts` on the count alone, and the later `findablePrduct.get(item.productId)!` then yields `undefined`, so reading its price throws; that second crash path is not modelled.
- `HandleStripeWebhook.ExecuteOutcome`: the ledger's `processedAt` and the success handler's `paidAt` are both the one instant `now`, where the source reads the clock separately for each; the two readings differ by at most the handling time.
- Store failures are modelled only where a property depends on them, namely the ledger insert and the update by payment intent id. The other store calls never fail in the model.
- `CreateOrder.FindByIds`: the products come back in the order of first request, where `$in` gives the collection's order. Only the set and the count are used downstream.
- `OrdersRepository.SortByCreatedDesc`: the sort is stable (ties keep id order), which Mongo does not promise. The contract states only the permutation and the order.
- `WebhookEvents.TryAcquireOutcome`: a database fault that carries code 11000 reads as "already processed" even when the id is absent, as in the source, so the record is promised in the ledger only after a call with no such fault.
- `WebhookEvents.Purge`: the TTL monitor runs as an explicit step, and a record is removed only strictly after 259200 seconds. Mongo's monitor runs on its own schedule.
- `RefreshToken.Execute`: the token subject is a user id, so the cast failure of a malformed subject is absent. Its outcome would be the same `InvalidRefreshToken`.
- `CreateOrder.Execute`: a missing `items` field (`!params.items`) is the same as an empty list. Amounts are unbounded integers, not JavaScript numbers.
- The NestJS controllers, DTO validation, guards, strategies and modules are left out. So are the order service and controllers that are not wired into the module, and the products and users use cases that only delegate.
- Logging is left out. It changes no state.
- Token payload details (`iat`, `exp`), the secrets and the token lifetimes belong to the JWT library and are left out.
