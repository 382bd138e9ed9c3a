# dLocal connector model

This project models the dLocal connector of the Hyperswitch payment router in Dafny. The connector sits between the platform's gateway-agnostic records and dLocal's wire format:

- It resolves the dLocal credentials (login, transaction key and signing secret) from the configured auth bundle.
- It turns the platform's router data for each flow into a dLocal request record. The flows are Authorize, PSync, Capture, Void, refund Execute and refund RSync.
- For each flow it builds the URL, the optional JSON body and the HMAC-signed header list, and assembles them into one request.
- It maps dLocal's payment and refund statuses onto the platform's status enums.
- It overlays a parsed dLocal response onto the stored router data. Only `status` and `response` change, and only `response` for refunds. A 3-D Secure redirect URL becomes a GET form whose fields are the URL's query pairs.
- It turns dLocal error bodies into the platform's error envelope.

Every operation of the connector is pure: `Dlocal` has no fields and nothing is mutated. So the model is datatypes, functions and lemmas.

Modules, one per concern:

- `Wrappers`: `Option` and `Result`.
- `Errors`: the connector error kinds and `error_stack` reports. A report has a current context and the earlier contexts underneath it; `change_context` pushes a new one on top.
- `Types`: the platform records the connector reads and writes.
- `Decimal`: Rust's `to_string` for integers, and reading it back.
- `FormFields`: `HashMap::from_iter` over query pairs.
- `Transformers`: `crates/router/src/connector/dlocal/transformers.rs`.
- `Platform`: the library functions the connector calls but does not define. These are JSON encoding and parsing, URL parsing, HMAC-SHA256 and hex. Each is an arbitrary function that either succeeds or fails.
- `Dlocal`: `crates/router/src/connector/dlocal.rs`.

Each request builder's contract includes `SignedRequest`. It states that the request carries the configured login, transaction key, API version and content type. It also states that a receiver can recompute the Authorization header from the X-Login and X-Date headers and the exact body the request sends (the empty string when there is none). The recomputation uses the same HMAC and hex functions.

## Behaviour worth knowing

These points are what the code does, and the model follows the code:

- The payment country comes from the currency, not from a billing address: `BR` for BRL and `IN` for every other currency.
- Void never fails on its identifier. It copies `connector_transaction_id`, even when it is empty.
- Refund sync never fails on its identifier. It uses `connector_refund_id` and falls back to the platform's `refund_id`.
- When a refund-execute reply does not parse, the error is `RequestEncodingFailed`. Every other flow reports `ResponseDeserializationFailed` for a reply that does not parse.
- The request bodies of Authorize, Capture and Execute come from `convert_and_encode`. Any failure there reaches the caller as `RequestEncodingFailed`, including a missing email or an unsupported payment method. The conversion error stays underneath as the report's cause.
- Every `build_request` computes the URL first, then the headers, then the body. The headers encode the body themselves, inside `build_headers`, and the body is encoded again for the request; both runs give the same result. So a body failure surfaces through the headers. A URL failure (PSync without a connector transaction id) is reported before any header failure.
- The sync, capture and cancel response records and their `TryFrom` overlays (transformers.rs:319-409, `Transformers.StatusResponseOverlay`) are not used by any `handle_response`. Void, PSync, Capture and Authorize all parse `DlocalPaymentsResponse` and use its overlay (dlocal.rs:176, 263, 332, 424).

## Model

| member | source | states |
|---|---|---|
| `Errors.ChangeContext` | crates/router/src/connector/dlocal.rs:96-99 | A success passes through unchanged. A failure gets the new context on top, and its old context becomes the first cause. |
| `Errors.OkOr` | crates/router/src/connector/dlocal/transformers.rs:55-61 | A present value is returned. An absent one fails with exactly the given error. |
| `Types.GetConnectorTransactionId` | crates/router/src/connector/dlocal/transformers.rs:159-163 | Only a `ConnectorTransactionId` yields an id, and that id is the one returned. |
| `Decimal.IntToDecimal` | crates/router/src/connector/dlocal/transformers.rs:425 | The rendering is canonical: an optional '-', then at least one digit, all digits, no leading zero unless the string is "0", and never "-0". It starts with '-' exactly when the integer is negative. |
| `Decimal.NatToDecimal` | crates/router/src/connector/dlocal/transformers.rs:425 | Only digits, and no leading zero except for 0 itself. |
| `Decimal.IntDecimalRoundTrip` | crates/router/src/connector/dlocal/transformers.rs:425 | Reading back the rendering of any integer gives that integer. |
| `Decimal.CanonicalDecimalUnique` | crates/router/src/connector/dlocal/transformers.rs:425 | A canonical string that reads back as `i` is exactly the rendering of `i`, so the canonical shape and the value together pin the string `to_string` writes. |
| `Decimal.IntDecimalInjective` | crates/router/src/connector/dlocal.rs:103 | Distinct integer codes render as distinct strings. |
| `FormFields.FromPairs` | crates/router/src/connector/dlocal/transformers.rs:282-286 | The map's keys are exactly the keys that occur among the query pairs. |
| `FormFields.LastOccurrenceWins` | crates/router/src/connector/dlocal/transformers.rs:282-286 | For a repeated key, the map holds the value of its last occurrence. |
| `FormFields.ValueFromLastOccurrence` | crates/router/src/connector/dlocal/transformers.rs:282-286 | Every value in the map comes from the last occurrence of its key. |
| `Transformers.BoolToString` | crates/router/src/connector/dlocal/transformers.rs:90 | The capture flag is "true" exactly when the bool is true, and "false" otherwise. |
| `Transformers.GetCurrency` | crates/router/src/connector/dlocal/transformers.rs:144-149 | The country is "BR" exactly for BRL and "IN" for every other currency. |
| `Transformers.NotificationUrl` | crates/router/src/connector/dlocal/transformers.rs:99-102 | The return URL when there is one, otherwise the fallback. |
| `Transformers.PaymentsRequestFrom` | crates/router/src/connector/dlocal/transformers.rs:52-142 | A missing email gives `MissingRequiredField("email_id")` for every payment method. Otherwise Card and Wallet succeed and any other method gives `NotImplemented`. Both accepted branches copy amount, currency and order id (= payment id), set the country from the currency, set the notification URL (return URL or fallback) and the callback URL (= return URL), and send no 3-D Secure data. Card: "CARD"/"DIRECT" with the card fields, capture "true" exactly for `Automatic`, and installments "1" plus the mandate id exactly when a mandate id is present. Wallet: "MP"/"REDIRECT" with no card. |
| `Transformers.PaymentsSyncRequestFrom` | crates/router/src/connector/dlocal/transformers.rs:155-166 | Succeeds exactly when a connector transaction id exists, and returns that id. Otherwise it fails with `MissingConnectorTransactionID`. |
| `Transformers.PaymentsCancelRequestFrom` | crates/router/src/connector/dlocal/transformers.rs:172-179 | Never fails. The cancel id is the connector transaction id. |
| `Transformers.PaymentsCaptureRequestFrom` | crates/router/src/connector/dlocal/transformers.rs:189-203 | Never fails. The amount is `amount_to_capture` when given, otherwise the full amount. The authorization id, currency code and order id are copied. |
| `Transformers.AuthTypeFrom` | crates/router/src/connector/dlocal/transformers.rs:211-229 | Succeeds exactly for `SignatureKey`, mapping api_key, key1 and api_secret to login, transaction key and secret. Every other bundle gives `FailedToObtainAuthType`. |
| `Transformers.AttemptStatusFrom` | crates/router/src/connector/dlocal/transformers.rs:242-253 | Total. Every result lies within Authorized, Charged, AuthenticationPending, Voided and AuthenticationFailed. |
| `Transformers.AttemptStatusFromImage` | crates/router/src/connector/dlocal/transformers.rs:242-253 | A platform status is reached by some gateway status exactly when it is one of those five. |
| `Transformers.AttemptStatusFromCollapsesOnlyAuthorized` | crates/router/src/connector/dlocal/transformers.rs:244-251 | AUTHORIZED and VERIFIED are the only two gateway statuses that map to the same platform status. |
| `Transformers.RedirectFormFrom` | crates/router/src/connector/dlocal/transformers.rs:275-296 | No 3-D Secure object or no URL gives no redirect and no error. A URL that does not parse gives `ResponseHandlingFailed`. Otherwise the form has the original URL and method GET, and its fields are the query pairs, last occurrence winning. |
| `Transformers.RedirectFormExample` | crates/router/src/connector/dlocal/transformers.rs:282-291 | `...?token=abc&step=2` gives a GET form with fields token=abc and step=2. |
| `Transformers.PaymentsResponseOverlay` | crates/router/src/connector/dlocal/transformers.rs:267-311 | Fails only when the redirect URL does not parse. Otherwise every field of the stored router data except `status` and `response` is kept. The status is the mapped gateway status, and the response carries the gateway id and the redirect form. `redirect` is true exactly when a 3-D Secure redirect URL is present. |
| `Transformers.StatusResponseOverlay` | crates/router/src/connector/dlocal/transformers.rs:319-409 | The sync, capture and cancel overlays never fail. They keep every other field, map the status, carry the gateway id, and never redirect. |
| `Transformers.RefundRequestFrom` | crates/router/src/connector/dlocal/transformers.rs:422-439 | Never fails. The amount is `refund_amount.to_string()`: a canonical decimal string that reads back as `refund_amount`. Payment id, currency and refund id are copied. The notification URL is the return URL or "https://google.com". |
| `Transformers.RefundStatusFrom` | crates/router/src/connector/dlocal/transformers.rs:454-463 | Total. Every result lies within Success, Pending, ManualReview and Failure. |
| `Transformers.RefundStatusFromImage` | crates/router/src/connector/dlocal/transformers.rs:454-463 | A platform refund status is reached by some gateway status exactly when it is one of those four. |
| `Transformers.RefundStatusFromInjective` | crates/router/src/connector/dlocal/transformers.rs:456-461 | No two gateway refund statuses map to the same platform status. |
| `Transformers.RefundResponseOverlay` | crates/router/src/connector/dlocal/transformers.rs:471-522 | Never fails. Only `response` changes, and the status is kept. The response holds the gateway refund id and the mapped refund status. |
| `Transformers.RefundsSyncRequestFrom` | crates/router/src/connector/dlocal/transformers.rs:494-505 | Never fails. It uses the connector refund id when present, otherwise the platform refund id. |
| `Dlocal.SignedMessage` | crates/router/src/connector/dlocal.rs:51 | The signed string is the login, then the date, then the body, each at its own position. |
| `Dlocal.SignedMessageDeterminesBody` | crates/router/src/connector/dlocal.rs:51 | For a fixed login and date, the signed string determines the body. |
| `Dlocal.BuildHeaders` | crates/router/src/connector/dlocal.rs:36-76 | Checks run in order: a body failure propagates, a missing timestamp gives `RequestEncodingFailed`, a non-signature bundle gives `FailedToObtainAuthType`, and a signing failure gives `RequestEncodingFailed`. On success there are exactly six headers, in this order: Authorization = "V2-HMAC-SHA256, Signature: " ++ hex(HMAC(secret, login ++ date ++ body or "")), X-Login, X-Trans-Key, X-Version = "2.1", X-Date = the signed date, and Content-Type = "application/json". |
| `Dlocal.HeadersSignTheBody` | crates/router/src/connector/dlocal.rs:51-74 | Any request built with these headers and the same body passes the receiver's signature verification. X-Date is the timestamp that was signed. |
| `Dlocal.EncodeBody` | crates/router/src/connector/dlocal.rs:395-397 | Succeeds exactly when the conversion and the encoding succeed, and returns the encoding. Every failure reports `RequestEncodingFailed`, with a conversion error kept as its cause. |
| `Dlocal.HandlePaymentsResponse` | crates/router/src/connector/dlocal.rs:419-436 | A reply that does not parse gives `ResponseDeserializationFailed`. A failed overlay gives `ResponseHandlingFailed`. On success the result is exactly the payments overlay of the parsed reply, so it carries the 3-D Secure form: all fields but status and response are kept, the status is mapped and the gateway id is carried. Void, PSync and Capture use the same chain (176-187, 263-272, 332-343). |
| `Dlocal.BuildErrorResponse` | crates/router/src/connector/dlocal.rs:92-107 | Fails with `ResponseDeserializationFailed` exactly when the body does not parse. Otherwise it copies the HTTP status, writes the code as `to_string` does (canonical, and it reads back as the integer), copies the message, and sets reason = param. |
| `Dlocal.VoidUrl` | crates/router/src/connector/dlocal.rs:135-148 | Never fails. The URL is base ++ "payments/" ++ connector transaction id ++ "/cancel". |
| `Dlocal.VoidRequestBody` | crates/router/src/connector/dlocal.rs:150-155 | Void has no body. |
| `Dlocal.VoidBuildRequest` | crates/router/src/connector/dlocal.rs:157-169 | Fails exactly when the headers fail, with their error. On success: POST to the Void URL with no body, signed over the empty body. |
| `Dlocal.PSyncUrl` | crates/router/src/connector/dlocal.rs:221-234 | base ++ "payments/" ++ id ++ "/status" when a connector transaction id exists, otherwise `MissingConnectorTransactionID`. |
| `Dlocal.PSyncBuildRequest` | crates/router/src/connector/dlocal.rs:236-248 | A missing id is reported first, then header failures. On success: GET to the PSync URL with no body, signed over the empty body. |
| `Dlocal.CaptureUrl` | crates/router/src/connector/dlocal.rs:292-298 | base ++ "payments". |
| `Dlocal.CaptureRequestBody` | crates/router/src/connector/dlocal.rs:300-308 | The encoded capture record, or `RequestEncodingFailed` when encoding fails. |
| `Dlocal.CaptureBuildRequest` | crates/router/src/connector/dlocal.rs:310-325 | Fails exactly when the headers fail. On success: POST to base ++ "payments", carrying the encoded body that was signed. |
| `Dlocal.AuthorizeUrl` | crates/router/src/connector/dlocal.rs:379-389 | base ++ "secure_payments". |
| `Dlocal.AuthorizeRequestBody` | crates/router/src/connector/dlocal.rs:391-398 | The encoded payment record. A missing email gives `RequestEncodingFailed` over `MissingRequiredField("email_id")`. An unsupported method gives `RequestEncodingFailed` over `NotImplemented`. |
| `Dlocal.AuthorizeBuildRequest` | crates/router/src/connector/dlocal.rs:400-417 | Fails exactly when the headers fail. On success: POST to base ++ "secure_payments", carrying the encoded body that was signed. |
| `Dlocal.AuthorizeWithoutEmailFails` | crates/router/src/connector/dlocal.rs:395-396 | Without an email, no Authorize request is built, whatever the method, clock or credentials. |
| `Dlocal.AuthorizeRoundTrip` | crates/router/src/connector/dlocal.rs:400-436 | The request sent uses the payment id as order id. The router data returned keeps every stored field except status and response. |
| `Dlocal.RefundExecuteUrl` | crates/router/src/connector/dlocal.rs:463-469 | base ++ "refunds". |
| `Dlocal.RefundExecuteRequestBody` | crates/router/src/connector/dlocal.rs:471-478 | The encoded refund record, or `RequestEncodingFailed`. |
| `Dlocal.RefundExecuteBuildRequest` | crates/router/src/connector/dlocal.rs:480-494 | Fails exactly when the headers fail. On success: POST to base ++ "refunds", carrying the encoded body that was signed. |
| `Dlocal.RefundExecuteHandleResponse` | crates/router/src/connector/dlocal.rs:496-513 | A reply that does not parse gives `RequestEncodingFailed`. Otherwise only `response` changes, to the gateway refund id and the mapped status. |
| `Dlocal.RefundSyncUrl` | crates/router/src/connector/dlocal.rs:536-549 | Never fails. The URL is base ++ "refunds/" ++ (connector refund id, else refund id) ++ "/status". |
| `Dlocal.RefundSyncBuildRequest` | crates/router/src/connector/dlocal.rs:551-563 | Fails exactly when the headers fail. On success: GET to the RSync URL with no body, signed over the empty body. |
| `Dlocal.RefundSyncHandleResponse` | crates/router/src/connector/dlocal.rs:565-582 | A reply that does not parse gives `ResponseDeserializationFailed`. Otherwise only `response` changes. |
| `Dlocal.PathUrlsCarryTheirIdentifier` | crates/router/src/connector/dlocal.rs:141-147 | Removing the known prefix and suffix from the Void, PSync and RSync URLs gives back the identifier they were built from. |
| `Dlocal.GetWebhookObjectReferenceId` | crates/router/src/connector/dlocal.rs:594-599 | Always fails with `WebhooksNotImplemented`. |
| `Dlocal.GetWebhookEventType` | crates/router/src/connector/dlocal.rs:601-606 | Always fails with `WebhooksNotImplemented`. |
| `Dlocal.GetWebhookResourceObject` | crates/router/src/connector/dlocal.rs:608-613 | Always fails with `WebhooksNotImplemented`. |
| `Dlocal.GetFlowType` | crates/router/src/connector/dlocal.rs:617-622 | Always `Trigger`, whatever the query parameters. |

## Left out

- HMAC-SHA256 (`common_utils::crypto::HmacSha256`) and `hex::encode` are arbitrary functions in `Platform.Collaborators`. Only the signed message layout and the header prefix are modelled.
- `masking::Secret` and `as_bytes` are not modelled. The secret and the message are passed to HMAC as strings.
- The wall clock (`date_time::date_as_yyyymmddthhmmssmmmz`) is the `now` parameter. None means it failed. Its format and freshness are not modelled.
- serde JSON is not modelled. This covers `convert_and_encode`, `parse_struct` and the upper-case renaming of the status enums. Each record's encoder and parser is an arbitrary function that succeeds or fails.
- `reqwest::Url::parse` and percent-decoding are one arbitrary function. It gives the decoded query pairs, in order, or fails.
- Error reports keep only connector-error contexts. The `ParsingError` and `ValidationError` contexts of the helper libraries are not modelled, and neither are `attach_printable` messages.
- The transport is not modelled. `services::RequestBuilder` is the `Request` record, and the `Some` that every `build_request` wraps around it is dropped. `settings::Connectors` and `base_url` are the `base` string. `logger::debug!` is not modelled. `id()` is not modelled.
- The Verify, AccessTokenAuth and Session flows are not modelled. Their bodies are empty and use trait defaults defined outside the connector.
- The trait default `get_request_body` used by PSync and RSync is not part of this model. It is taken to return no body, matching what their `build_request` attaches.
- `ResponseRouterData.http_code` is not modelled; no overlay reads it.
- `Types.Currency` is an ISO code string rather than the platform's currency enum.
- `Types.PaymentMethod` has one `Other` variant standing for all the platform's other payment methods.
- `Types.AttemptStatus` and `Dlocal.IncomingWebhookEvent` list only a subset of the platform's variants.
- Amounts (`i64`) and the error code (`i32`) are unbounded integers. Overflow cannot arise in the modelled code, because the values are only copied or printed.
- Webhook bodies are byte sequences. The resource object's JSON value is modelled as its text.
