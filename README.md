# DeUna payment simulator: order and payment engine

This project models, in Dafny, the core of the DeUna payment simulator: the
in-memory order/payment server (`deuna-payment-system/server.js`) and the
payer app's handling of a typed payment code (`client-app/src/App.js`).

A merchant creates an order for an amount. The server stores it as `pending`
under a random id, with a random 8-digit payment code and an expiry instant
15 minutes later. The payer types the code. The payer app keeps only its
digits, at most eight, and asks the server about it only when it has exactly
eight. The server finds the first order, in insertion order, that holds the
code, applies lazy expiry, and answers with a summary while the order is
still pending. Processing a payment takes the order from `pending` to
`completed` once, recording one payment whose amount is the order's amount.

Layout:

- `outcomes.dfy` (module `Outcomes`): `Option` for the source's `null`
  fields, `Result` for the handlers' error answers.
- `decimal.dfy` (module `Decimal`): the `\d` character class and the decimal
  rendering `toString` gives an integer, with its length, leading digit and
  read-back lemmas.
- `code_input.dfy` (module `CodeInput`): `formatCode` and the 8-character gate
  of `queryPaymentCode`, with their properties.
- `orders.dfy` (module `Orders`): the order and payment records, request and
  response shapes, error messages and HTTP statuses, `generatePaymentCode`,
  lazy expiry, and the first-match scan over the orders.
- `engine.dfy` (module `Engine`): each route handler as a function from the
  stores before the request to the stores after it and the answer. Also the
  store invariants `WellFormed` (shape) and `Consistent` (order/payment
  cross-references).
- `lifecycle.dfy` (module `Lifecycle`): the per-order state machine,
  exactly-once settlement, idempotent reads, and invariant preservation, for
  one request and for any sequence of requests.
- `server.dfy` (module `Server`): class `PaymentServer`. It holds the two maps
  as fields, plus the insertion order of `orders`. Each handler is a method
  that updates the fields in place; the code lookup is a loop. Each method
  is proved equal to its `Engine` function.
- `handoff.dfy` (module `Handoff`): a generated code passes the payer's
  filter and gate unchanged.

Inputs the source takes from its environment are parameters:

- `now` is the clock in milliseconds.
- `draw` is the integer `Math.floor(Math.random() * 90000000)`.
- `orderId` and `paymentId` are the ids `generateId` would draw.

JSON request fields are `Option<string>` / `Option<int>`. `None` stands for an
absent field. A field counts as given (JavaScript truthiness) when it is
present and not the empty string.

## Model

| member | source | states |
|---|---|---|
| `Decimal.ToDecimal` | deuna-payment-system/server.js:13 | the rendering of an integer is a non-empty string of decimal digits |
| `Decimal.ValueOfToDecimal` | deuna-payment-system/server.js:13 | reading the rendered string back gives the integer, so distinct draws give distinct codes |
| `Decimal.ToDecimalLength` | deuna-payment-system/server.js:13 | an integer in [10^k, 10^(k+1)) renders as exactly k+1 characters |
| `Decimal.ToDecimalLeadingDigit` | deuna-payment-system/server.js:13 | a positive integer renders without a leading zero |
| `Orders.Message` | deuna-payment-system/server.js:24-170 | every error answer has a non-empty message, the one the handler sends (the query's 'La orden está expirada' / 'La orden está ya procesada' among them) |
| `Orders.HttpStatus` | deuna-payment-system/server.js:24-170 | unknown order, code or payment answer 404; every other error answers 400 |
| `Orders.MessagesAreDistinct` | deuna-payment-system/server.js:95-98 | distinct errors carry distinct messages, so a refused query tells 'expirada' from 'ya procesada' |
| `Orders.GeneratePaymentCode` | deuna-payment-system/server.js:12-14 | the code is 8 decimal digits, first digit non-zero, and denotes 10000000 + draw |
| `Orders.OrDefault` | deuna-payment-system/server.js:34-36 | JavaScript `field or fallback` defaulting: the field when it is present and non-empty, the fallback otherwise |
| `Orders.Expire` | deuna-payment-system/server.js:62-64 | lazy expiry: the result is expired iff the order was expired, or pending with now > expiresAt; pending iff pending and now <= expiresAt; completed iff completed; no other field changes |
| `Orders.ExpireLater` | deuna-payment-system/server.js:91-93 | evaluating expiry at t1 and then at a later t2 agrees with evaluating it at t2 alone |
| `Orders.FirstMatchFrom` | deuna-payment-system/server.js:80-85 | the scan from a position returns the first position holding the code, or none when no later order holds it |
| `Orders.FirstMatch` | deuna-payment-system/server.js:118-123 | the first order in insertion order whose code matches, or none when no order holds the code |
| `Orders.FirstMatchSameCodes` | deuna-payment-system/server.js:118-123 | status or payment changes to stored orders do not change which order a code resolves to |
| `Engine.CreateOrder` | deuna-payment-system/server.js:20-52 | fails with InvalidData, stores unchanged, exactly when merchantId is missing or amount is missing or <= 0; otherwise stores exactly one new entry under orderId (pending, no payment id, the code generated from the draw, expiresAt = createdAt + 900000, defaults 'Comercio' and 'Pago'), leaves every other order and all payments alone, appends the id to the insertion order unless the key existed, and keeps the store well formed |
| `Engine.Refresh` | deuna-payment-system/server.js:62-64 | applies lazy expiry to one order and changes nothing else |
| `Engine.OrderStatus` | deuna-payment-system/server.js:54-74 | an unknown id gives OrderNotFound and changes nothing; a known one gets lazy expiry and the answer reports the order as stored afterwards |
| `Engine.QueryByCode` | deuna-payment-system/server.js:76-108 | CodeNotFound, with nothing changed, exactly when no order holds the code; otherwise the first holder gets lazy expiry; the summary comes back iff it was pending with now <= expiresAt; the error is OrderIsExpired iff it is expired afterwards, OrderAlreadyProcessed iff it is completed |
| `Engine.ProcessPayment` | deuna-payment-system/server.js:110-163 | missing code, user or method gives IncompleteData and no change; unknown code gives CodeNotFound; a non-pending first holder gives OrderNotPending with no change; now > expiresAt marks it expired and gives CodeExpired; otherwise it completes the order with the new payment id and stores one payment carrying the order's amount; no error adds a payment |
| `Engine.GetPayment` | deuna-payment-system/server.js:165-174 | returns the stored payment iff the id is stored, PaymentNotFound otherwise |
| `Lifecycle.TerminalOrdersStay` | deuna-payment-system/server.js:62 | an expired or completed order admits no move but staying as it is |
| `Lifecycle.CreateEvolves` | deuna-payment-system/server.js:43 | with a new order id, a create appends at most its own id to the insertion order and leaves every stored order and every payment as it was |
| `Lifecycle.StatusEvolves` | deuna-payment-system/server.js:62-64 | a status request keeps the same orders, insertion order and payments, and changes an order only from pending to expired, only when now > expiresAt; it never completes one |
| `Lifecycle.QueryEvolves` | deuna-payment-system/server.js:91-93 | a code query keeps the same orders, insertion order and payments, and changes an order only from pending to expired, only when now > expiresAt; it never completes one |
| `Lifecycle.ProcessEvolves` | deuna-payment-system/server.js:129-153 | with a new payment id, a payment request moves an order only pending to expired (now > expiresAt) or pending to completed with a payment id (now <= expiresAt), and never alters a stored payment |
| `Lifecycle.CreatePreservesConsistent` | deuna-payment-system/server.js:37-43 | with a new order id, create keeps every order/payment cross-reference |
| `Lifecycle.RefreshPreservesConsistent` | deuna-payment-system/server.js:62-64 | lazy expiry keeps every cross-reference |
| `Lifecycle.StatusPreservesConsistent` | deuna-payment-system/server.js:54-74 | a status request keeps every cross-reference |
| `Lifecycle.QueryPreservesConsistent` | deuna-payment-system/server.js:76-108 | a code query keeps every cross-reference |
| `Lifecycle.ProcessPreservesConsistent` | deuna-payment-system/server.js:138-153 | with a new payment id, every completed order still names a stored payment that points back with the same amount, and every pending or expired order has no payment id |
| `Lifecycle.ProcessSettlesOnce` | deuna-payment-system/server.js:129-131 | after a successful payment, the next complete request for the same code fails with OrderNotPending and changes nothing |
| `Lifecycle.SettlementIsFinal` | deuna-payment-system/server.js:117-131 | after a successful payment and any sequence of further requests with new ids, a complete request for the same code fails with OrderNotPending and changes nothing |
| `Lifecycle.FirstMatchStable` | deuna-payment-system/server.js:117-123 | once a code resolves to an order of a well-formed store, it resolves to the same position after any changes that keep every order stored with its code and its place in the insertion order |
| `Lifecycle.RunPreservesWellFormed` | deuna-payment-system/server.js:9-10 | any sequence of requests, whatever ids it draws, keeps each key of `orders` listed once in insertion order and each record under its own id |
| `Lifecycle.ExpiredQueryBlocksPayment` | deuna-payment-system/server.js:91-99 | after a query reported the code's order expired, paying with that code fails with OrderNotPending at any instant |
| `Lifecycle.QueryIsIdempotent` | deuna-payment-system/server.js:76-108 | repeating a query at the same instant gives the same answer and leaves the stores as the first query left them |
| `Lifecycle.RefusalIsFinal` | deuna-payment-system/server.js:95-99 | a query refused as expired or already processed is refused the same way at every later instant, with no further change |
| `Lifecycle.CreatedCodeIsFound` | deuna-payment-system/server.js:28-43 | a query for a code just handed out finds an order, and that order is the new one iff no older order holds the same code |
| `Lifecycle.CompletedOrderPaymentLookup` | deuna-payment-system/server.js:165-173 | in a consistent store, a completed order's payment id fetches a completed payment for that order with the same amount |
| `Lifecycle.OnePaymentPerOrder` | deuna-payment-system/server.js:150-153 | in a consistent store, two payments for the same order are the same payment |
| `Lifecycle.ApplyPreservesConsistent` | deuna-payment-system/server.js:20-174 | any one request with new ids keeps every cross-reference |
| `Lifecycle.ApplyIsMonotone` | deuna-payment-system/server.js:20-174 | any one request with new ids keeps the insertion order as a prefix and every order's code, and leaves expired and completed orders and stored payments alone |
| `Lifecycle.RunPreservesConsistent` | deuna-payment-system/server.js:9-10 | any sequence of requests with new ids keeps every cross-reference |
| `Lifecycle.RunIsMonotone` | deuna-payment-system/server.js:9-10 | over any sequence of requests with new ids, every order keeps its code and place, nothing leaves expired or completed, and no payment is altered or removed |
| `Lifecycle.ReachableIsConsistent` | deuna-payment-system/server.js:9-10 | every state reached from the empty maps with new ids is consistent |
| `Server.PaymentServer.constructor` | deuna-payment-system/server.js:9-10 | the server starts with both maps empty |
| `Server.PaymentServer.FindByCode` | deuna-payment-system/server.js:79-85 | the loop returns the position of the first order, in insertion order, holding the code, or none |
| `Server.PaymentServer.CreateOrder` | deuna-payment-system/server.js:20-52 | the new maps and the answer are those of `Engine.CreateOrder`; well-formedness kept; cross-references kept when the order id is new |
| `Server.PaymentServer.OrderStatus` | deuna-payment-system/server.js:54-74 | the new maps and the answer are those of `Engine.OrderStatus`; cross-references kept |
| `Server.PaymentServer.QueryByCode` | deuna-payment-system/server.js:76-108 | the new maps and the answer are those of `Engine.QueryByCode`; cross-references kept |
| `Server.PaymentServer.ProcessPayment` | deuna-payment-system/server.js:110-163 | the new maps and the answer are those of `Engine.ProcessPayment`; cross-references kept when the payment id is new |
| `Server.PaymentServer.GetPayment` | deuna-payment-system/server.js:165-174 | the answer is that of `Engine.GetPayment` |
| `CodeInput.KeepDigits` | client-app/src/App.js:211 | `replace(/\D/g, '')` yields only digits and is no longer than its input |
| `CodeInput.FormatCode` | client-app/src/App.js:210-212 | the output holds only 0-9, has length <= 8, is a prefix of the input's digits, and has length min(8, number of digits) |
| `CodeInput.QueryPaymentCode` | client-app/src/App.js:142-146 | every code whose length is not 8 is rejected with 'El código debe tener 8 dígitos' before any lookup; an 8-character code is sent as it is |
| `CodeInput.KeepDigitsAppend` | client-app/src/App.js:211 | filtering a concatenation is the concatenation of the filtered parts |
| `CodeInput.KeepDigitsOfDigits` | client-app/src/App.js:211 | a string of digits passes the filter unchanged |
| `CodeInput.KeepDigitsPosition` | client-app/src/App.js:211 | each digit of the input appears in the output at its rank among the digits: order is kept |
| `CodeInput.FormatCodeLeadingDigits` | client-app/src/App.js:211 | the output is the first min(8, n) digits of the input in their original order |
| `CodeInput.FormatCodeKeepsShortCodes` | client-app/src/App.js:211 | a string of at most 8 digits is returned unchanged |
| `CodeInput.FormatCodeIdempotent` | client-app/src/App.js:211 | formatCode(formatCode(s)) == formatCode(s) |
| `CodeInput.FormattedCodePassesGate` | client-app/src/App.js:143-146 | a formatted code passes the gate iff the input held at least 8 digits, and what passes is exactly 8 decimal digits |
| `CodeInput.SeparatorsAreIgnored` | client-app/src/App.js:465 | non-digits typed around an 8-digit code do not change the query that is sent |
| `CodeInput.NoDigitsFilteredAway` | client-app/src/App.js:211 | an input without digits filters to the empty string |
| `Handoff.GeneratedCodeSurvivesPayerInput` | deuna-payment-system/server.js:12-14 | a code the server generates is left unchanged by the payer's filter and passes its gate |

## Left out

- HTTP plumbing is not modelled: routing, `cors`, JSON body parsing, `app.listen`, the `success: true` flags of the answers, and the logging-only webhook (deuna-payment-system/server.js:1-7, 175-185). Each handler is a function or method; `Orders.HttpStatus` and `Orders.Message` give its status code and message.
- Randomness is not modelled. `Math.random` becomes the integer `draw` in [0, 90000000). `crypto.randomBytes` becomes a caller-supplied id. The handlers check neither id freshness nor code uniqueness, and neither does the model. Codes may repeat, and a query then answers for the oldest holder (`Lifecycle.CreatedCodeIsFound` states this).
- Lifecycle.CreateEvolves, Lifecycle.CreatePreservesConsistent, Lifecycle.CreatedCodeIsFound: assume the drawn order id is not already a key. A repeated id would make `orders.set` overwrite an existing order, which the code does not prevent.
- Lifecycle.ProcessEvolves, Lifecycle.ProcessPreservesConsistent: assume the drawn payment id is not already a key, for the same reason with `payments.set`.
- Lifecycle.ApplyPreservesConsistent, Lifecycle.ApplyIsMonotone, Lifecycle.RunPreservesConsistent, Lifecycle.RunIsMonotone, Lifecycle.ReachableIsConsistent, Lifecycle.SettlementIsFinal: carry the same fresh-id assumption, for every request of the run.
- Clock: each handler reads the clock once (`now`). The source reads it twice in create (createdAt and expiresAt) and twice in process (the expiry test and processedAt). Both readings are taken to be the same instant.
- Dates are integer milliseconds, not ISO strings. Comparing the parsed dates of the source compares exactly these millisecond values.
- Amounts are integers (for instance cents), not JavaScript numbers. Only the `> 0` test of the source is modelled. NaN, and request fields of unexpected JSON types (a numeric merchant id, a string amount), are not.
- Order records are values in the map. The source mutates the stored objects in place. The map is their only holder, so replacing the entry is equivalent.
- The payer app's input field has `maxLength={8}` (client-app/src/App.js:468), so the browser truncates typed or pasted text to 8 characters before `formatCode` sees it. That truncation is not modelled; `CodeInput.FormatCode` and `CodeInput.SeparatorsAreIgnored` speak of `formatCode` on a whole string.
- The payer app's code gate counts characters, where JavaScript counts UTF-16 code units. The two differ only for characters outside the Basic Multilingual Plane, and `formatCode` removes those before the gate.
- Balances, recharge, the transaction ledger, cancellation, code uniqueness among pending orders and concurrency control are not modelled: this server has no balance, ledger or cancel logic, and its process-payment handler touches no balance. The front-ends' `/users/...` and `/merchants/...` calls have no handler in this server.
- Concurrency is not modelled. Node runs each handler to completion on one thread, so each handler is one atomic method, and `Lifecycle.Run` applies requests one after another.
- The React UIs are not modelled, apart from `formatCode` and the 8-character gate: component state, rendering, `localStorage`, `fetch`, the merchant app's polling, and its status label and colour tables.
