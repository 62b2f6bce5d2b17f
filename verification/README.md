# Authorize.net tool handlers, modelled in Dafny

This project models the two tool handlers of an MCP server that fronts the
Authorize.net payment gateway: `handleTakePayment` (charge a card now) and
`handleCreateInvoice` (create a hosted payment page and return its URL). Each
handler is a stateless pipeline. It validates the tool arguments and either
returns early or builds a gateway request. It then classifies the gateway's
response and resolves with a result envelope `{isError, content: [{type:
"text", text}]}`.

Layout:

- `Wrappers.dfy`: `Option` and `Result`. `None` stands for a JavaScript
  `null`/`undefined`, or for an absent property.
- `Text.dfy`: a substring predicate, used to state that a result text mentions
  a gateway field.
- `GatewayContracts.dfy`: the gateway SDK's request and response objects,
  modelled as immutable records. The setter calls that build a request in the
  source become one record value. A container the source tests for presence is
  an `Option`.
- `Handlers.dfy`: configuration (credentials and the sandbox flag), the API
  endpoint and the payment-page base (both chosen from that one flag), the
  result envelope, and `Outcome`.
- `TakePayment.dfy` and `CreateInvoice.dfy`: the two handlers.

The gateway call is a function parameter, `gateway(endpoint, request)`, which
yields the response the SDK callback reads. The handlers do not call it when
validation rejects the arguments.

An `Outcome` is either `Resolved(result)` or `Threw(fault)`. `Threw` covers the
places where the source dereferences something it has not checked:

- `response.getMessages().getResultCode()` when the messages block is absent
  (lines 77 and 180);
- `getMessage()[0]` or `getError()[0]` on a container that is present but
  holds an empty list (lines 82, 86 and 96);
- `getMessages().getMessage().length` under a non-OK result code when the
  messages block carries no message list (lines 98 and 192).

In each case the callback throws a `TypeError` before it calls `resolve`, so the
handler's promise never settles.

The two ladders as the code has them:

- Charge, in priority order:
  1. An OK result code with a transaction message container present is a
     success.
  2. Otherwise a transaction error container, under any result code, is a
     decline.
  3. Otherwise an OK result code is an "unknown response".
  4. Otherwise the first top-level message is reported, or a generic failure if
     there is none.
- Invoice:
  1. An OK result code with a truthy token is a success, and the text carries
     `{base}/payment/payment?token={token}`.
  2. An OK result code without a token is a failure.
  3. Otherwise the first top-level message is reported, or a generic failure if
     there is none.

Two consequences of the code as written:

- Line 79 tests only that the transaction message container is present. A
  container that holds an empty list makes line 82 throw
  (`Threw(NoTransactionMessage)`); it is not a decline or an unknown response.
- There is no transport-failure path in the handlers: whatever response the
  SDK hands the callback goes through the ladder above.

## Model

| member | source | states |
|---|---|---|
| `Handlers.ApiEndpoint` | src/handlers/authorizeNetHandlers.ts:17-22 | the sandbox endpoint is chosen exactly when the sandbox flag is set, the production endpoint exactly when it is not |
| `Handlers.PaymentPageBase` | src/handlers/authorizeNetHandlers.ts:184 | the page base is `https://test.authorize.net` exactly when the API endpoint is the sandbox one, and `https://accept.authorize.net` exactly when it is the production one |
| `TakePayment.ValidatePayment` | src/handlers/authorizeNetHandlers.ts:29-37 | rejects, with "Missing required payment information." and `isError`, exactly when the amount is absent or a card field is absent or empty; an amount of 0 passes |
| `TakePayment.BuildChargeRequest` | src/handlers/authorizeNetHandlers.ts:39-62 | the request carries the merchant credentials and an AUTH_CAPTURE transaction with a card and no order; the amount and all three card fields can be read back unchanged |
| `TakePayment.ClassifyCharge` | src/handlers/authorizeNetHandlers.ts:77-105 | the full priority ladder: for each verdict and each fault, the exact response condition under which it is chosen, and the fields it carries (transaction id and first message description; first error's code and text; first top-level message's code and text) |
| `TakePayment.RenderCharge` | src/handlers/authorizeNetHandlers.ts:107 | the envelope has exactly one item, of type "text", and `isError` is false only for an approved charge |
| `TakePayment.HandleTakePayment` | src/handlers/authorizeNetHandlers.ts:28-110 | rejected arguments never reach the gateway; valid ones are submitted to the endpoint of the configured environment and the response is classified; a resolved result has one text item; `isError` is false only when the arguments passed and the response had an OK code and transaction messages |
| `TakePayment.ChargeSucceeds` | src/handlers/authorizeNetHandlers.ts:77-83 | OK code with transaction messages: not an error; text is "Payment successful. Transaction ID: " + id + ". " + first description, and it contains both |
| `TakePayment.ChargeDeclines` | src/handlers/authorizeNetHandlers.ts:84-97 | when the success rung does not apply, present transaction errors outrank everything else under any result code: an error whose text contains the first error's code and text |
| `TakePayment.ChargeOkButUnknown` | src/handlers/authorizeNetHandlers.ts:89-92 | OK code with neither transaction messages nor errors: error "Payment failed: Unknown response error." |
| `TakePayment.ChargeRequestFails` | src/handlers/authorizeNetHandlers.ts:98-104 | non-OK code without transaction errors: an error naming the first top-level message's code and text, "Payment failed due to unknown error." for an empty list, and a throw when the list is missing |
| `TakePayment.ChargeNotOkIsError` | src/handlers/authorizeNetHandlers.ts:93-105 | a non-OK result code never resolves as a success |
| `TakePayment.ChargeIgnoresCredentials` | src/handlers/authorizeNetHandlers.ts:40-42 | for a given gateway response, the outcome does not depend on the credentials or the environment |
| `CreateInvoice.ValidateInvoice` | src/handlers/authorizeNetHandlers.ts:117-123 | rejects, with "Amount is required to create an invoice." and `isError`, exactly when the amount is absent; the invoice number and description never cause a rejection |
| `CreateInvoice.BuildInvoiceRequest` | src/handlers/authorizeNetHandlers.ts:125-165 | credentials; an AUTH_CAPTURE transaction for the amount with no card; an order exactly when the invoice number or description is truthy, each set only when truthy; exactly the button, order and return settings, in that order, with fixed values |
| `CreateInvoice.InvoiceUrlRoundTrip` | src/handlers/authorizeNetHandlers.ts:184-185 | the payment URL reads back as the environment it was built for and the token it carries |
| `CreateInvoice.ClassifyInvoice` | src/handlers/authorizeNetHandlers.ts:180-199 | the invoice ladder: for each verdict, the exact response condition under which it is chosen and the fields it carries; a missing messages block, or a missing message list under a non-OK code, is a fault |
| `CreateInvoice.RenderInvoice` | src/handlers/authorizeNetHandlers.ts:201-204 | the envelope has exactly one item, of type "text", and `isError` is false only for a created invoice |
| `CreateInvoice.HandleCreateInvoice` | src/handlers/authorizeNetHandlers.ts:116-207 | rejected arguments never reach the gateway; otherwise the request goes to the configured endpoint and the response is classified with the page base of the same environment; a resolved result has one text item |
| `CreateInvoice.InvoiceCreated` | src/handlers/authorizeNetHandlers.ts:180-186 | OK code with a truthy token: not an error; the text contains base + "/payment/payment?token=" + token, and the base is the test one exactly when the endpoint is the sandbox one |
| `CreateInvoice.InvoiceWithoutToken` | src/handlers/authorizeNetHandlers.ts:187-190 | OK code with no token or an empty one: error "No token returned; invoice URL generation failed." |
| `CreateInvoice.InvoiceRejected` | src/handlers/authorizeNetHandlers.ts:191-199 | a non-OK code resolves, always as an error, exactly when the message list is present: naming the first message's code and text, else "Invoice creation failed due to unknown error."; a missing list throws |
| `CreateInvoice.InvoicePageMatchesEndpoint` | src/handlers/authorizeNetHandlers.ts:167-186 | end to end: when the submitted request yields a token, the resolved text's URL reads back as that token on the payment page of the environment whose endpoint received the request |
| `CreateInvoice.InvoiceIgnoresCredentials` | src/handlers/authorizeNetHandlers.ts:126-128 | for a given gateway response and environment, the outcome does not depend on the credentials |

## Left out

- The SDK calls (`new ...Controller`, `setEnvironment`, `execute`, `getResponse`, lines 64-72 and 167-175) and the promise and callback plumbing. They are network I/O and asynchronous code. The gateway is a function parameter from the endpoint and request to a response.
- Transport failures inside the SDK are not modelled. Only the response object the callback receives is.
- Reading the environment: the credential fallbacks to placeholder strings (lines 9-10) and `AUTHORIZE_NET_SANDBOX === "true"` (line 16). Credentials and the sandbox flag are fields of `Config`.
- `amount`: a JavaScript number, modelled as `real` and passed through unchanged. There is no arithmetic on it, so rounding and currency are not modelled. Arguments of types other than the ones the tool schema declares are not modelled.
- Leaf fields of a response (transaction id, descriptions, codes, texts) are strings. If one is absent, JavaScript would interpolate "undefined" into the text; the model does not represent that case.
- The JSON wire encoding of requests and the format of the setting values. The values are kept as the literal strings the source sets. The token is spliced into the URL without escaping, as in the source.
- `src/index.ts` (server registration, stdio transport, the startup exit on missing credentials) and `src/models/authorizeNetModel.ts` (schemas, which the handlers do not use) are not part of this model.
