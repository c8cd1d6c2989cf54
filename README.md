# Rep-company assignment and order routing, modelled in Dafny

This project models the decision logic of a small B2B storefront app. The
app has three parts.

- **The `orders/create` webhook** resolves the shop and the order id. It
  reads the order's first `fulfillment_mode` note attribute and maps
  `booking` or `immediate` to a fixed location id. It then queries the
  order's fulfillment orders and moves each one that is not already at that
  location.
- **The app-proxy action** dispatches on an `actionType` discriminator. It
  can fetch the customer's company and rep code, list the companies that
  share a rep code, or reassign the customer. Reassigning fetches the
  contact profiles, removes each one, then makes one assign call.
- **The cart-page widget** drives that proxy from the browser. It checks
  that the customer is logged in and has a company. It offers the other
  rep companies in a selector and guards the assign button.

The remote Admin GraphQL API is a stub: a function `Api = Call -> Reply` in
`AdminApi`. Each handler returns its response together with its trace, the
sequence of `Call`s it issued (operation and variables), in order. The
trace is an ordinary output value. `Reply.Threw` stands for "the GraphQL
helper raised". For the proxy's helper that happens on a non-2xx status,
invalid JSON or a GraphQL `errors` field. For the webhook's own helper it
happens only on a transport or JSON failure; that helper just logs GraphQL
errors and returns the JSON, which the stub gives as a reply without the
fields the caller reads. A sequential run of awaited calls stops at the
first call that throws (`AdminApi.FirstFailure`, `AdminApi.Sent`).

"Missing" follows JavaScript falsiness: an absent value (`None`) or `""`.
`??` falls through only on an absent value. Two edge cases follow from this.
An `x-shopify-shop-domain` header that is present but empty still wins, and
the webhook then answers 400 "No shop". An empty `admin_graphql_api_id`
likewise wins over `id`, and the webhook then answers 200 "No order id".

Besides the per-operation contracts, the model proves these properties:

- The move plan is idempotent. Once every planned move has been carried out,
  recomputing the plan gives no move. Redelivery after partial success never
  moves an already relocated order again.
- The widget's requests always pass the proxy's validation.
- Against this proxy, the widget's "Error: …" branch cannot be reached. The
  assign action answers with a 200 `{success: true}` or with a 400 or 500.
  Both of those fail `proxyFetch`'s `res.ok` check, so a user error from the
  platform shows as "Failed to assign customer.", not as its text.

A `fetchRepCompanies` request without a rep code is not an error: it answers
200 `{companies: []}` with no remote call (app/routes/proxy.tsx:84-86), unlike
the other two actions, which answer 400 for a missing field.
`Proxy.Validate` and `Proxy.FetchRepCompanies` model that.

Files: `js_values.dfy` (optional values, truthiness, integer text),
`admin_api.dfy` (entities, calls, replies, sequential runs),
`orders_create.dfy`, `proxy.dfy`, `widget.dfy`.

## Model

| member | source | states |
|---|---|---|
| `JsValues.IntToString` | app/routes/webhooks.orders-create.ts:96 | a numeric order id always prints as non-empty text, with a leading minus sign exactly for negative ids and no leading zero in its digits |
| `JsValues.IntToStringRoundTrip` | app/routes/webhooks.orders-create.ts:96 | the printed id parses back to the same integer |
| `JsValues.IntToStringInjective` | app/routes/webhooks.orders-create.ts:96 | two different numeric ids never give the same order id text |
| `AdminApi.FirstFailure` | app/shopify.server.ts:88-97 | the position of the first call in a run whose helper throws: every earlier call returned, and the call at that position threw (or the run has no throwing call) |
| `AdminApi.Sent` | app/routes/proxy.tsx:146-161 | the calls of a sequential run that go out are a prefix of it: all of them when none throws, otherwise up to and including the one that throws, with no earlier call throwing |
| `OrdersCreateWebhook.ResolveShop` | app/routes/webhooks.orders-create.ts:73-93 | the header wins whenever it is present, even when empty; otherwise the payload's shop domain (trusted delivery) or the SDK-verified shop; a resolved shop is never empty |
| `OrdersCreateWebhook.OrderId` | app/routes/webhooks.orders-create.ts:95-100 | the admin GraphQL id takes precedence whenever present; otherwise the numeric id's text or the string id; never an empty id; none when both are absent |
| `OrdersCreateWebhook.FindAttribute` | app/routes/webhooks.orders-create.ts:102-105 | the index of the first attribute with the given name: none earlier has it, and the one found has it |
| `OrdersCreateWebhook.FulfillmentMode` | app/routes/webhooks.orders-create.ts:102-109 | a mode exists exactly when the first `fulfillment_mode` attribute exists and has a non-empty value, and the mode is the value of that first attribute (no earlier attribute carries the name) |
| `OrdersCreateWebhook.TargetLocation` | app/routes/webhooks.orders-create.ts:111-119 | exactly `booking` and `immediate` are routed, to locations 77507559507 and 77507592275 |
| `OrdersCreateWebhook.MovePlan` | app/routes/webhooks.orders-create.ts:161-172 | no more moves than fulfillment orders, and every move carries the target location id |
| `OrdersCreateWebhook.MovePlanAppend` | app/routes/webhooks.orders-create.ts:161-172 | the plan of a concatenation is the concatenation of the plans, so the moves follow input order |
| `OrdersCreateWebhook.MovePlanSingle` | app/routes/webhooks.orders-create.ts:162-171 | one fulfillment order gets one move to the target exactly when it is not already at the target |
| `OrdersCreateWebhook.MovePlanMembers` | app/routes/webhooks.orders-create.ts:161-172 | every fulfillment order away from the target, including one with no location, gets a move; every move names such an order |
| `OrdersCreateWebhook.AtTargetNeverMoved` | app/routes/webhooks.orders-create.ts:162 | with distinct ids, an order already at the target never appears in a move |
| `OrdersCreateWebhook.MovePlanEmpty` | app/routes/webhooks.orders-create.ts:161-172 | no move is planned exactly when every fulfillment order is already at the target |
| `OrdersCreateWebhook.ApplyMovesPointwise` | app/routes/webhooks.orders-create.ts:164-171 | after moves to the target are carried out, each order keeps its id and is at the target exactly when it was moved, otherwise where it was |
| `OrdersCreateWebhook.RedeliveryNeverRepeats` | app/routes/webhooks.orders-create.ts:161-172 | after any moves to the target have been carried out, a recomputed plan never moves those orders again |
| `OrdersCreateWebhook.MovePlanIdempotent` | app/routes/webhooks.orders-create.ts:161-172 | once every planned move is carried out, recomputing the plan yields no move |
| `OrdersCreateWebhook.MoveAll` | app/routes/webhooks.orders-create.ts:161-172 | the loop sends exactly the prefix of the plan up to the first throwing move, and reports whether one threw |
| `OrdersCreateWebhook.OrdersCreate` | app/routes/webhooks.orders-create.ts:66-180 | no shop gives 400 "No shop"; no order id, no mode or an unknown mode give 200 with their texts; each with zero calls; otherwise one fulfillment-order query comes first, then the planned moves up to the first throw; 500 "Error" on a throw, else 200 "OK" whatever the move replies say |
| `Proxy.CustomerGidRoundTrip` | app/routes/proxy.tsx:66 | the customer gid carries the customer id unchanged and recoverably |
| `Proxy.RepCodeFilterRoundTrip` | app/routes/proxy.tsx:103 | the company search filter carries the rep code unchanged and recoverably |
| `Proxy.Validate` | app/routes/proxy.tsx:36-194 | a falsy `actionType` gives "Missing actionType" and an unknown one "Invalid actionType"; `fetchCompany` needs a truthy `customerId`; `assignCompany` needs both ids; `fetchRepCompanies` always passes, with "" for a falsy rep code; every rejection is a 400 error body |
| `Proxy.FetchCompany` | app/routes/proxy.tsx:43-78 | exactly one customer query with the customer gid; the company is that of the first contact profile or null; the rep code is the metafield value or ""; a throw gives 500 |
| `Proxy.FetchRepCompanies` | app/routes/proxy.tsx:83-113 | an empty rep code gives 200 with no companies and zero calls; otherwise one search filtered by the rep code, answering the returned companies in order, or none |
| `Proxy.Removals` | app/routes/proxy.tsx:146-161 | one removal per contact profile, in order, each with that profile's id |
| `Proxy.AssignVerdict` | app/routes/proxy.tsx:184-191 | a 400 exactly when the assign reply has user errors, carrying the first message; a throw gives 500; otherwise 200 success |
| `Proxy.AssignOutcome` | app/routes/proxy.tsx:118-192 | the profile fetch comes first, then only removals, and an assign call only last; a throwing fetch ends at once with 500; a throwing removal ends the run with 500, after exactly the removals up to and including it and with no assign call; when every removal returns, one assign follows with the company id and the customer gid, and the answer is that of its reply (the first user error as a 400, a throw as a 500, else 200 success); any answer other than 500 means every profile was removed in order; 200 exactly with the success body |
| `Proxy.AssignCompany` | app/routes/proxy.tsx:127-192 | the awaited removal loop produces exactly the outcome and trace of `AssignOutcome` |
| `Proxy.Action` | app/routes/proxy.tsx:25-199 | an unreadable body gives 500; a rejected request gives its 400 with zero calls; each valid command behaves as its action; every status is 200, 400 or 500; a 400 after a remote call only comes from `assignCompany`, whose 200 is always the success body |
| `RepCompanyWidget.ProxyFetch` | extensions/cart-page/assets/rep-company-assignment.js:12-21 | a body comes back exactly for a delivered 2xx response; anything else throws |
| `RepCompanyWidget.OtherCompanies` | extensions/cart-page/assets/rep-company-assignment.js:52-53 | a company is kept exactly when it is a rep company whose id differs from the current one |
| `RepCompanyWidget.OtherCompaniesAppend` | extensions/cart-page/assets/rep-company-assignment.js:52-53 | the filter keeps the original order |
| `RepCompanyWidget.Selectable` | extensions/cart-page/assets/rep-company-assignment.js:44-59 | the options start with the empty-valued placeholder, followed by exactly one option per rep company other than the current one, in the order the companies came; no option after the placeholder carries the current company's id |
| `RepCompanyWidget.GuardMessage` | extensions/cart-page/assets/rep-company-assignment.js:66-76 | an empty selection shows "Please select a company."; the current company shows "Already assigned to this company." |
| `RepCompanyWidget.AssignMessage` | extensions/cart-page/assets/rep-company-assignment.js:85-96 | a network failure or non-2xx answer, a 400 included, shows "Failed to assign customer."; a success body shows the success text; any other body shows "Error: " and the error or "Unknown" |
| `RepCompanyWidget.AssignMessageAgainstProxy` | extensions/cart-page/assets/rep-company-assignment.js:85-96 | against the proxy's assign outcome the widget shows only the success text or "Failed to assign customer.", never "Error: …" |
| `RepCompanyWidget.RequestsPassValidation` | extensions/cart-page/assets/rep-company-assignment.js:25-83 | the fetch-company, rep-companies and assign requests the widget builds pass the proxy's validation as the intended commands |
| `RepCompanyWidget.Widget.Load` | extensions/cart-page/assets/rep-company-assignment.js:1-102 | no container: nothing at all changes; every exit that shows a notice replaces only the container (options, message and captured customer and company stay as they were); no customer id: "Customer not logged in." with zero calls; otherwise `fetchCompany` first; a throw shows "Failed to load company info."; no company shows "No company assigned to you." with no further call; otherwise `fetchRepCompanies` with the returned rep code or "", then the selector for the current company |
| `RepCompanyWidget.Widget.ShowPicker` | extensions/cart-page/assets/rep-company-assignment.js:41-62 | renders the selector for the current company with exactly the selectable options, keeps the widget invariant, and registers the click handler with the customer and the current company |
| `RepCompanyWidget.Widget.AppendOptions` | extensions/cart-page/assets/rep-company-assignment.js:53-58 | the appending loop adds one option per company, with its id as value and its name as text, after the options already there and in the companies' order |
| `RepCompanyWidget.Widget.Click` | extensions/cart-page/assets/rep-company-assignment.js:62-98 | a guarded click sends nothing and shows its guard message; any other click sends exactly one `assignCompany` request with the customer id and the selection and shows the message for its answer; the options invariant is kept |

## Left out

- The proxy's GET loader (a constant health-check answer) is not modelled.
- `authenticate.webhook`, HMAC verification and the `NODE_ENV` switch are not modelled. The model takes the decoded payload, the header and an `Origin` (trusted delivery, or verified with the SDK's shop) as inputs.
- JSON parsing and serialisation are abstracted. A request body that is not JSON is the input `None` of `Proxy.Action` (answer 500). Field values of the wrong JSON type, and null array entries that would throw a TypeError, are not modelled.
- The GraphQL query text and its page sizes (`first: 10`, `first: 250`) are not modelled; the stub decides how many records come back.
- Remote-side effects are the stub's business. `ApplyMoves` is an idealised platform effect, used only to state idempotence.
- The shop domain, API version and access token that each call is addressed with are not part of a trace entry. `ResolveShop` states which shop the webhook uses.
- Console logging of errors is not modelled.
- `TARGET_LOCATIONS` is modelled as exactly its two entries. Prototype-chain keys such as `constructor` are not modelled.
- `repCode` is placed into the search filter without quoting or escaping, as in the source; what the platform makes of a quote inside it is not modelled.
- `JsValues.IntToString`: exact only for safe integers (magnitude at most 2^53), because the model has no floating point. Above 2^53 JavaScript prints the shortest digits that round-trip to the same double, padded with zeros (`2**60` prints as `1152921504606847000`), whereas the model prints the exact value. From 1e21 on JavaScript uses exponent notation. Non-integer numbers are not modelled. A numeric order id beyond 2^53 therefore gives a different fulfillment-order query in the model than in the source.
- The widget's DOM is reduced to the container's notice or selector, the options and the message text. Raw HTML, colours, `setTimeout` and `location.reload` are left out. A proxy answer whose body fails to parse as JSON is not modelled.
- Concurrency is not modelled: overlapping clicks and concurrent assignment requests for the same customer. The absence of rollback, timeouts and retries has no behaviour to verify.
