# Aviagram checkout saga for a Shopify store

This project models three serverless HTTP handlers that let a Shopify storefront take payments through the Aviagram payment gateway:

- **checkout** (`api/checkout.js`). It validates the cart, customer and address and creates a Shopify draft order. When the store answers 202, it polls the draft order a bounded number of times. It then asks Aviagram for a payment form for the draft's total. If Aviagram refuses, it deletes the draft (the compensating step). If Aviagram accepts, it tags the draft with Aviagram's order id. The handler uses an access token from a cache that lives at module scope and is refreshed 60 s before expiry.
- **webhook** (`api/webhook.js`). It checks the shared secret in the callback URL. For a `RECEIVED` notification, it finds the store order whose note or tags mention the Aviagram order id and posts a capture transaction on it. An authenticated notification always gets 200, even when processing fails.
- **payment creator** (`create-payment.js`). It asks Aviagram for a payment form for a caller-supplied order id, amount and currency. It creates nothing in the store.

The model has these parts:

- Each handler is a Dafny function or method.
- The replies of the upstream services are inputs.
- Every outbound HTTP call is recorded as an `Http.Effect`. A handler returns an `Http.Outcome`: the response it sends plus the ordered trace of calls it made.
- JavaScript semantics that matter are written out in module `Js`:
  - truthiness;
  - `String()`;
  - `===`;
  - `includes`.
- The token cache is a class whose two fields the refresh updates in place.
- The two polling loops are one `while` loop, proved against its specification.
- The optional members of the payment creator's request body are added by reassigning a map.

Modules:

| file | module | models |
|---|---|---|
| `optional.dfy` | `Optional` | the absent or present value |
| `js.dfy` | `Js` | JavaScript values, truthiness, `String()`, `===`, `String.prototype.includes` |
| `http.dfy` | `Http` | responses, request payloads, the outbound-call trace, the webhook endpoint URL |
| `token_cache.dfy` | `ShopifyToken` | the cached client-credentials token |
| `checkout.dfy` | `Checkout` | the checkout handler |
| `webhook.dfy` | `Webhook` | the webhook handler and the order search and capture |
| `create_payment.dfy` | `CreatePayment` | the stand-alone payment creator |
| `correlation.dfy` | `Correlation` | how the checkout's tags and the webhook's search meet |

## Model

| member | source | states |
|---|---|---|
| ShopifyToken.TokenCache.constructor | api/checkout.js:10-11 | the cache starts with no token and expiry 0 |
| ShopifyToken.TokenCache.GetToken | api/checkout.js:13-44 | a fresh token (truthy and more than 60 s from expiry) is returned with no call and no change; otherwise exactly one token request is made; on an OK reply the cache holds the granted token, expiring `expires_in * 1000` ms after the refresh; on a failed reply no token is returned and the cache is unchanged |
| ShopifyToken.RefreshThenAskAgain | api/checkout.js:15-43 | after a stale cache is refreshed with an OK grant, a second request on the same cache is served with no call and the same token exactly while the granted token is truthy and the time is before its announced expiry minus 60 s; otherwise it makes one token request; a grant of 60 s or less always causes a new request |
| ShopifyToken.ShortGrantIsNeverReused | api/checkout.js:15 | a token granted for 60 s or less is never served from the cache |
| Checkout.ValidationError | api/checkout.js:66-77 | the checks run in order: cart, email, first and last name, address/city/country. Each message is returned exactly when its check is the first to fail. None is returned iff all four pass |
| Checkout.DraftRequest | api/checkout.js:79-121 | the draft has one line item per cart item, in order, with its variant and quantity. It carries the customer's email. Billing equals shipping. Required address fields are copied. Each optional field falls back to "" when falsy. Shipping is free ("Standard Shipping", "0.00", custom). It carries the pending note and tag |
| Checkout.RejectionMessage | api/checkout.js:193-214 | a body that is not JSON, or whose `errors` is falsy, gives the default message. A string `errors` is used verbatim. A truthy non-string scalar has no entries and gives "". Field errors are joined as "field: m1, m2" with ". " |
| Checkout.JoinIncludesPart | api/checkout.js:206-209 | every element of a `join` occurs in its result |
| Checkout.EveryFieldErrorIsReported | api/checkout.js:205-209 | every field the store rejects appears in the 422 message, with its messages |
| Checkout.SingleFieldRejection | api/checkout.js:205-209 | `{email: ["…"]}` gives "email: …" |
| Checkout.Poll | api/checkout.js:145-188 | it makes at least 1 and at most 10 polls, all of the same draft or Location. It stops at the first reply that ends the wait (a 200 not "calculating" when polling by id; any 200 when polling a Location) and returns that body, so the trace is exactly `FirstEnd + 1` polls. It times out only after 10 polls, none of which ended it |
| Checkout.FirstEnd | api/checkout.js:154-160 | the index of the first poll reply that ends the wait, or the number of replies when none does |
| Checkout.ResolveDraft | api/checkout.js:134-217 | a 2xx other than 202 is the draft. A non-2xx gives 422 with the store's message and no retry. A 202 polls by id if the body has one, else the Location header; with neither it gives 502. The polls are exactly those up to the first that settles, whose body is the draft; polling that never settles gives 504 after 10 polls |
| Checkout.CallbackUrl | api/checkout.js:235 | the callback URL carries the webhook secret and the draft order id |
| Checkout.PaymentFormFor | api/checkout.js:230-236 | the gateway request has exactly the amount (the draft total as a string), EUR-SP, GBP, "True" and the callback URL carrying the secret and the draft id |
| Checkout.CorrelationNote | api/checkout.js:271 | the note mentions the gateway's order id |
| Checkout.CorrelationTags | api/checkout.js:272 | the tags keep `aviagram-pending` as a prefix and contain `aviagram:<id>` |
| Checkout.Pay | api/checkout.js:219-284 | a body that is not JSON, or has no draft order, gives 500 with no call. Otherwise the first call is the payment request for the draft's total. The draft is deleted iff the gateway refuses, which gives 502 with the gateway's text. An unreadable acceptance gives 500. A readable acceptance gives 200 echoing the draft and the gateway session, after tagging the draft with the session's id |
| Checkout.PaidSubmission | api/checkout.js:219-284 | after the draft creation and any polls, the gateway's calls keep the saga's promises: a delete happens iff the answer is the gateway's 502; a tag happens iff the answer is 200, and it comes last, after the payment form |
| Checkout.SubmissionKeepsSaga | api/checkout.js:63-284 | for every body and every set of upstream replies: an invalid body gets the first failing check's 400 and no call; a valid one first creates the draft built from it; a 422 carries the store's message and follows only the draft creation; a 504 follows exactly 10 polls with no payment request; a delete happens iff the answer is the gateway's 502; a tag happens iff the answer is 200, last, after the payment form for the returned draft, with the gateway's id |
| Checkout.Submit | api/checkout.js:63-284 | the response and calls are those of `SubmissionOutcome`: 400 for an invalid body; 422 with the store's message for a non-2xx draft reply; 502 for a 202 with neither id nor Location; 504 after 10 unsettled polls; otherwise the payment stage (`Pay`) on the body of the draft reply or of the first poll that settled |
| Checkout.Handle | api/checkout.js:46-289 | OPTIONS gets an empty 200 and any other non-POST gets 405; both make no call and leave the cache unchanged. A POST asks the token cache first. It gets 500 if no token is obtained or the body is missing. Otherwise the response is `SubmissionOutcome`'s and the calls are the token calls followed by its calls. After a POST, a fresh cache is unchanged, a successful refresh leaves the granted token and its expiry in the cache for later invocations, and a failed one leaves the cache unchanged |
| Webhook.FindOrder | api/webhook.js:54-58 | it returns the index of the first order whose note or tags include the id, or None iff no order does |
| Webhook.FindIgnoresFinancialStatus | api/webhook.js:54-58 | the search ignores whether an order is already paid |
| Webhook.EmptyIdMatchesAnyAnnotatedOrder | api/webhook.js:54-58 | an empty payment id matches every order that has a note or tags |
| Webhook.DashCut | api/webhook.js:78 | it gives the position of the first '-' that has no line terminator after it, or the length of the string |
| Webhook.NormaliseCurrency | api/webhook.js:78 | an absent currency gives "EUR". A string loses everything from the dash the regex `/-.*$/` matches, and becomes "EUR" if that leaves it empty. Any other kind throws. The result is never empty |
| Webhook.StripCutsAtFirstDash | api/webhook.js:78 | on a one-line string, the result is the text before the first '-' and contains no '-' |
| Webhook.NormalisedCurrencyHasNoDash | api/webhook.js:78 | a one-line currency such as "EUR-SP" is sent without its suffix |
| Webhook.MultiLineCurrencyKeepsDash | api/webhook.js:78 | "EUR-SP\nX" is sent unchanged, because `.` and `$` stop at the line break |
| Webhook.StripIdempotent | api/webhook.js:78 | stripping twice is the same as stripping once |
| Webhook.MarkOrderPaid | api/webhook.js:37-91 | it lists the orders, then posts one capture of the notified amount and the normalised currency, by the Aviagram gateway, on the first matching order. It fails, with no capture, when the listing is unreadable, no order matches or the currency is neither a string nor absent (an absent one is sent as "EUR"). It fails after the capture when the store rejects it |
| Webhook.Handle | api/webhook.js:4-35 | non-POST gets 405 and a wrong secret 401, both with no call. Every authenticated request gets 200 "received", with "Processing failed" exactly when the body is missing or the capture path fails, and plain otherwise. Calls are made iff the status is RECEIVED, and they are those of `MarkOrderPaid` |
| Webhook.UnsetSecretAdmitsUnsignedCalls | api/webhook.js:10-14 | with no secret configured, a request without one is accepted |
| Webhook.RedeliveryCapturesAgain | api/webhook.js:20-22 | a redelivered RECEIVED notification posts a second capture on the same order |
| Webhook.DraftParameterIsIgnored | api/webhook.js:10 | the `draft` query parameter does not affect the outcome |
| CreatePayment.BuildForm | create-payment.js:37-45 | the request always has the amount as a string, the currency and the callback URL. Each optional member is present iff its input is truthy, with that input (conversion flag as a string), and there are no other members |
| CreatePayment.Handle | create-payment.js:10-75 | OPTIONS gets 200 and other non-POST 405. A missing body gets 500 and a missing required field 400; none of these make a call. Otherwise exactly one gateway call is made with the form `BuildForm` describes: the amount as a string, the currency, the callback URL, each optional member iff truthy with its value, and no other member. A refusal gives 502 with the gateway's text, an unreadable acceptance 500, and an acceptance 200 with the gateway's ids and the caller's order id |
| Correlation.TaggedOrderMatchesSession | api/webhook.js:54-58 | an order carrying the checkout's tags for a session is found by that session's id |
| Correlation.NotedOrderMatchesSession | api/webhook.js:54-58 | so is one carrying the checkout's note |
| Correlation.PrefixOfSessionIdMatches | api/webhook.js:54-58 | any prefix of a session id also matches the order tagged for that session |
| Correlation.ReceivedPaymentCapturesTaggedOrder | api/webhook.js:20-22 | a RECEIVED notification for a session captures the order tagged for it, when no earlier-listed order mentions the id |
| Correlation.CheckoutCallbackExtendsPlainCallback | api/checkout.js:235 | the checkout's callback URL, built as the checkout builds it, is the payment creator's (create-payment.js line 40) with `&draft=<id>` appended |

## Behaviour worth knowing

- The webhook searches the store's orders (`orders.json`, first page of 50), not the draft orders the checkout creates. It never reads the `draft` parameter the checkout puts in the callback URL, and it does not complete the draft order: it posts a capture transaction on an order. See `Webhook.DraftParameterIsIgnored`.
- The webhook does not look at whether the order is already paid, so a redelivered notification captures again. See `Webhook.RedeliveryCapturesAgain` and `Webhook.FindIgnoresFinancialStatus`.
- The match is by substring of the note or the tags:
  - an empty id matches any annotated order;
  - a prefix of a session id matches that session's order (`Correlation.PrefixOfSessionIdMatches`).
- The tags written after payment creation still start with `aviagram-pending`; the marker is never removed. The tag call's reply is not inspected and is never retried.
- The checkout obtains the token before it validates the body, so even an invalid cart can cause a token request.
- A 200 poll reply that is not JSON ends the polling and then fails with 500. A poll by id also ends on a 200 whose body has no draft order.

## Left out

- Network failures (a rejected `fetch`) are not modelled. In all three handlers they end in the catch-all 500, or in "Processing failed" for the webhook. This includes a failing compensating DELETE, which would turn the gateway's 502 into a 500.
- Headers are not modelled: CORS headers, the access-token and Basic-auth headers, and the Base64 encoding of the gateway credentials. They carry no decision.
- The store domain, the API versions and URLs other than the callback URL are not modelled.
- Logging is not modelled.
- The two-second pause before each poll is left out. Time is a parameter (`now`, `refreshedAt`).
- `Checkout.Poll` requires exactly 10 poll replies. This describes the environment: the loop can never ask for an 11th.
- JSON parsing and serialisation are not modelled. The model has:
  - reply bodies as already-parsed datatypes, with one `Malformed` case for a body that does not parse;
  - request payloads as records or maps of JavaScript scalars.
  `JSON.stringify` dropping `undefined` members is not modelled.
- The type of some inputs is fixed rather than modelled in full:
  - the cart is a sequence whenever it is present (a non-array `items` value is not modelled);
  - object- or array-valued address fields are not modelled;
  - numbers are carried as their decimal text.
- The text of thrown errors is only logged. The model keeps the reason as `Webhook.Failure`, or as `None` for the token.
- `discountCode` is read from the checkout body but never used, so it is not modelled.
- The query-string parsing of the callback URL is not modelled: the `secret` parameter is an input.
- ShopifyToken.TokenCache.GetToken: a non-numeric `expires_in` is not modelled. It would make the expiry NaN and the token never fresh. An OK reply whose body does not parse is a failure, as in the code.
- ShopifyToken.TokenCache.GetToken: concurrent refreshes by overlapping invocations are not modelled; each call is sequential.
