/**
 * The dLocal connector façade (crates/router/src/connector/dlocal.rs).
 *
 * For each flow the connector supplies a URL, an optional JSON body, the
 * signed header list and the assembled request, and turns the gateway's
 * reply back into router data or into the platform's error envelope. The
 * connector has no fields, so every operation is a function of its inputs:
 * the configured base URL, the router data, the collaborators and, for
 * signing, the timestamp of the call (`now`; None when it cannot be produced).
 */
module Dlocal {
  import opened Wrappers
  import opened Errors
  import opened Types
  import opened Transformers
  import opened Platform
  import Decimal

  // ---------------------------------------------------------------------
  // Signed headers
  // ---------------------------------------------------------------------

  const AUTHORIZATION := "Authorization"
  const X_LOGIN := "X-Login"
  const X_TRANS_KEY := "X-Trans-Key"
  const X_VERSION := "X-Version"
  const X_DATE := "X-Date"
  const CONTENT_TYPE := "Content-Type"

  const SIGNATURE_PREFIX := "V2-HMAC-SHA256, Signature: "
  const API_VERSION := "2.1"
  /** `common_get_content_type`, which every flow's `get_content_type` returns. */
  const CONTENT_TYPE_JSON := "application/json"

  type Headers = seq<(string, string)>

  /** The string that is signed: the login, then the timestamp, then the body. */
  function SignedMessage(xLogin: string, date: string, body: string): (m: string)
    ensures |m| == |xLogin| + |date| + |body|
    ensures m[..|xLogin|] == xLogin
    ensures m[|xLogin|..|xLogin| + |date|] == date
    ensures m[|xLogin| + |date|..] == body
  {
    xLogin + date + body
  }

  /** For one login and one timestamp, different bodies give different signed strings. */
  lemma SignedMessageDeterminesBody(xLogin: string, date: string, b1: string, b2: string)
    requires SignedMessage(xLogin, date, b1) == SignedMessage(xLogin, date, b2)
    ensures b1 == b2
  {
  }

  /** The value of the first header called `name`, as a receiver looks it up. */
  function HeaderValue(headers: Headers, name: string): Option<string>
    decreases |headers|
  {
    if headers == [] then None
    else if headers[0].0 == name then Some(headers[0].1)
    else HeaderValue(headers[1..], name)
  }

  /**
   * What the gateway checks: recompute the HMAC of X-Login ++ X-Date ++ body
   * under the shared secret and compare it with the Authorization header.
   */
  ghost predicate SignatureVerifies(p: Collaborators, secret: string, headers: Headers, body: string) {
    var login, date, authz := HeaderValue(headers, X_LOGIN), HeaderValue(headers, X_DATE), HeaderValue(headers, AUTHORIZATION);
    && login.Some? && date.Some? && authz.Some?
    && var digest := p.hmacSha256(secret, login.value + date.value + body);
       digest.Some? && authz.value == SIGNATURE_PREFIX + p.hexEncode(digest.value)
  }

  /** A request carries the configured credentials and a signature over exactly the body it sends. */
  ghost predicate SignedRequest(p: Collaborators, auth: ConnectorAuthType, rq: Request) {
    && auth.SignatureKey?
    && HeaderValue(rq.headers, X_LOGIN) == Some(auth.apiKey)
    && HeaderValue(rq.headers, X_TRANS_KEY) == Some(auth.key1)
    && HeaderValue(rq.headers, X_VERSION) == Some(API_VERSION)
    && HeaderValue(rq.headers, CONTENT_TYPE) == Some(CONTENT_TYPE_JSON)
    && SignatureVerifies(p, auth.apiSecret, rq.headers, rq.body.GetOr(""))
  }

  /**
   * `build_headers`, shared by every flow. `requestBody` is the flow's
   * `get_request_body` result; the steps run in the source's order: body,
   * timestamp, credentials, signature.
   */
  function BuildHeaders(p: Collaborators, now: Option<string>, auth: ConnectorAuthType, requestBody: CustomResult<Option<string>>)
    : (r: CustomResult<Headers>)
    ensures requestBody.Err? ==> r == Err(requestBody.error)
    ensures requestBody.Ok? && now.None? ==> r == Fail(RequestEncodingFailed)
    ensures requestBody.Ok? && now.Some? && !auth.SignatureKey? ==> r == Fail(FailedToObtainAuthType)
    ensures requestBody.Ok? && now.Some? && auth.SignatureKey? ==>
              var digest := p.hmacSha256(auth.apiSecret, auth.apiKey + now.value + requestBody.value.GetOr(""));
              && (digest.None? ==> r == Fail(RequestEncodingFailed))
              && (digest.Some? ==> r == Ok([
                    (AUTHORIZATION, SIGNATURE_PREFIX + p.hexEncode(digest.value)),
                    (X_LOGIN, auth.apiKey),
                    (X_TRANS_KEY, auth.key1),
                    (X_VERSION, API_VERSION),
                    (X_DATE, now.value),
                    (CONTENT_TYPE, CONTENT_TYPE_JSON)]))
  {
    var body :- requestBody;
    var dlocalReq := body.GetOr("");
    var date :- OkOr(now, RequestEncodingFailed);
    var dlocalAuth :- AuthTypeFrom(auth);
    var authz :- OkOr(p.hmacSha256(dlocalAuth.secret, SignedMessage(dlocalAuth.xLogin, date, dlocalReq)), RequestEncodingFailed);
    var authString := SIGNATURE_PREFIX + p.hexEncode(authz);
    Ok([
      (AUTHORIZATION, authString),
      (X_LOGIN, dlocalAuth.xLogin),
      (X_TRANS_KEY, dlocalAuth.xTransKey),
      (X_VERSION, API_VERSION),
      (X_DATE, date),
      (CONTENT_TYPE, CONTENT_TYPE_JSON)])
  }

  /** Whatever request the headers go into, it is signed over the body that was passed to `build_headers`. */
  lemma HeadersSignTheBody(p: Collaborators, now: Option<string>, auth: ConnectorAuthType, body: Option<string>, m: Method, url: string)
    requires BuildHeaders(p, now, auth, Ok(body)).Ok?
    ensures SignedRequest(p, auth, Request(m, url, BuildHeaders(p, now, auth, Ok(body)).value, body))
    ensures HeaderValue(BuildHeaders(p, now, auth, Ok(body)).value, X_DATE) == now
  {
    var hs := BuildHeaders(p, now, auth, Ok(body)).value;
    var date, digest := now.value, p.hmacSha256(auth.apiSecret, auth.apiKey + now.value + body.GetOr("")).value;
    assert hs[0].0 == AUTHORIZATION && hs[1].0 == X_LOGIN && hs[2].0 == X_TRANS_KEY;
    assert hs[3].0 == X_VERSION && hs[4].0 == X_DATE && hs[5].0 == CONTENT_TYPE;
    assert hs[4].1 == date;
    // the six header names have six different lengths
    assert |AUTHORIZATION| == 13 && |X_LOGIN| == 7 && |X_TRANS_KEY| == 11;
    assert |X_VERSION| == 9 && |X_DATE| == 6 && |CONTENT_TYPE| == 12;
    HeaderValueFirstMatch(hs, 0);
    HeaderValueFirstMatch(hs, 1);
    HeaderValueFirstMatch(hs, 2);
    HeaderValueFirstMatch(hs, 3);
    HeaderValueFirstMatch(hs, 4);
    HeaderValueFirstMatch(hs, 5);
  }

  /** The lookup finds an entry whose name no earlier entry carries. */
  lemma {:induction false} HeaderValueFirstMatch(headers: Headers, i: int)
    requires 0 <= i < |headers|
    requires forall j :: 0 <= j < i ==> headers[j].0 != headers[i].0
    ensures HeaderValue(headers, headers[i].0) == Some(headers[i].1)
    decreases i
  {
    if i > 0 {
      HeaderValueFirstMatch(headers[1..], i - 1);
    }
  }

  // ---------------------------------------------------------------------
  // Shared by the flows
  // ---------------------------------------------------------------------

  /** `convert_and_encode` of a flow's request record, with failures reported as `RequestEncodingFailed`. */
  function EncodeBody<W>(converted: CustomResult<W>, encode: W -> Option<string>): (r: CustomResult<Option<string>>)
    ensures r.Ok? <==> converted.Ok? && encode(converted.value).Some?
    ensures r.Ok? ==> r.value == Some(encode(converted.value).value)
    ensures r.Err? ==> r.error.current == RequestEncodingFailed
    // a conversion error is kept as the cause
    ensures converted.Err? ==> r.error.causes == [converted.error.current] + converted.error.causes
  {
    match converted
    case Err(report) => ChangeContext(Err(report), RequestEncodingFailed)
    case Ok(w) =>
      match encode(w)
      case Some(s) => Ok(Some(s))
      case None => Fail(RequestEncodingFailed)
  }

  /** `handle_response` of the Void, PSync, Capture and Authorize flows. */
  function HandlePaymentsResponse<Req>(p: Collaborators, data: RouterData<Req, PaymentsResponseData>, res: Response)
    : (r: CustomResult<RouterData<Req, PaymentsResponseData>>)
    ensures p.parsePaymentsResponse(res.body).None? ==> r == Fail(ResponseDeserializationFailed)
    ensures p.parsePaymentsResponse(res.body).Some? ==>
              var response := p.parsePaymentsResponse(res.body).value;
              && (r.Ok? <==> PaymentsResponseOverlay(p.parseUrlQuery, response, data).Ok?)
              && (r.Err? ==> r.error.current == ResponseHandlingFailed)
              && (r.Ok? ==>
                    && r.value.(status := data.status, response := data.response) == data
                    && r.value.status == AttemptStatusFrom(response.status)
                    && r.value.response.Ok?
                    && r.value.response.value.resourceId == ConnectorTransactionId(response.id)
                    && (r.value.response.value.redirect <==> RedirectUrlOf(response.threeDSecure).Some?)
                    // the 3-D Secure form and the other response fields are the overlay's
                    && r.value == PaymentsResponseOverlay(p.parseUrlQuery, response, data).value)
  {
    var response :- OkOr(p.parsePaymentsResponse(res.body), ResponseDeserializationFailed);
    ChangeContext(PaymentsResponseOverlay(p.parseUrlQuery, response, data), ResponseHandlingFailed)
  }

  /** `build_error_response`, which every flow's `get_error_response` calls. */
  function BuildErrorResponse(p: Collaborators, res: Response): (r: CustomResult<ErrorResponse>)
    ensures r.Ok? <==> p.parseErrorResponse(res.body).Some?
    ensures r.Err? ==> r == Fail(ResponseDeserializationFailed)
    ensures r.Ok? ==>
              var e := p.parseErrorResponse(res.body).value;
              && r.value.statusCode == res.statusCode
              // the integer code, written in decimal
              && Decimal.ParseDecimal(r.value.code) == Some(e.code)
              && Decimal.IsCanonicalInt(r.value.code)
              && r.value.code == Decimal.IntToDecimal(e.code)
              && r.value.message == e.message
              && r.value.reason == e.param
  {
    var response :- OkOr(p.parseErrorResponse(res.body), ResponseDeserializationFailed);
    Decimal.IntDecimalRoundTrip(response.code);
    Ok(ErrorResponse(
      statusCode := res.statusCode,
      code := Decimal.IntToDecimal(response.code),
      message := response.message,
      reason := response.param))
  }

  // ---------------------------------------------------------------------
  // Void
  // ---------------------------------------------------------------------

  function VoidUrl(base: string, req: PaymentsCancelRouterData): (r: CustomResult<string>)
    ensures r.Ok? && r.value == base + "payments/" + req.request.connectorTransactionId + "/cancel"
  {
    // the conversion never fails
    var cancelData := PaymentsCancelRequestFrom(req).value;
    Ok(base + "payments/" + cancelData.cancelId + "/cancel")
  }

  /** The Void flow sends no body. */
  function VoidRequestBody(req: PaymentsCancelRouterData): (r: CustomResult<Option<string>>)
    ensures r.Ok? && r.value.None?
  {
    Ok(None)
  }

  function VoidBuildRequest(p: Collaborators, now: Option<string>, base: string, req: PaymentsCancelRouterData)
    : (r: CustomResult<Request>)
    ensures r.Ok? <==> BuildHeaders(p, now, req.connectorAuthType, Ok(None)).Ok?
    ensures r.Err? ==> r.error == BuildHeaders(p, now, req.connectorAuthType, Ok(None)).error
    ensures r.Ok? ==>
              && r.value.httpMethod == Post
              && r.value.url == base + "payments/" + req.request.connectorTransactionId + "/cancel"
              && r.value.body.None?
              && SignedRequest(p, req.connectorAuthType, r.value)
  {
    var url := VoidUrl(base, req).value;
    var headers :- BuildHeaders(p, now, req.connectorAuthType, VoidRequestBody(req));
    HeadersSignTheBody(p, now, req.connectorAuthType, None, Post, url);
    Ok(Request(Post, url, headers, None))
  }

  // ---------------------------------------------------------------------
  // PSync
  // ---------------------------------------------------------------------

  function PSyncUrl(base: string, req: PaymentsSyncRouterData): (r: CustomResult<string>)
    ensures r.Ok? <==> req.request.connectorTransactionId.ConnectorTransactionId?
    ensures r.Ok? ==> r.value == base + "payments/" + req.request.connectorTransactionId.id + "/status"
    ensures r.Err? ==> r == Fail(MissingConnectorTransactionID)
  {
    var syncData :- PaymentsSyncRequestFrom(req);
    Ok(base + "payments/" + syncData.authzId + "/status")
  }

  /** PSync sends no body, so its headers sign the empty body. */
  function PSyncBuildRequest(p: Collaborators, now: Option<string>, base: string, req: PaymentsSyncRouterData)
    : (r: CustomResult<Request>)
    // the missing id is reported before anything about the headers
    ensures PSyncUrl(base, req).Err? ==> r == Fail(MissingConnectorTransactionID)
    ensures PSyncUrl(base, req).Ok? ==>
              && (r.Ok? <==> BuildHeaders(p, now, req.connectorAuthType, Ok(None)).Ok?)
              && (r.Err? ==> r.error == BuildHeaders(p, now, req.connectorAuthType, Ok(None)).error)
    ensures r.Ok? ==>
              && r.value.httpMethod == Get
              && r.value.url == base + "payments/" + req.request.connectorTransactionId.id + "/status"
              && r.value.body.None?
              && SignedRequest(p, req.connectorAuthType, r.value)
  {
    var url :- PSyncUrl(base, req);
    var headers :- BuildHeaders(p, now, req.connectorAuthType, Ok(None));
    HeadersSignTheBody(p, now, req.connectorAuthType, None, Get, url);
    Ok(Request(Get, url, headers, None))
  }

  // ---------------------------------------------------------------------
  // Capture
  // ---------------------------------------------------------------------

  function CaptureUrl(base: string, req: PaymentsCaptureRouterData): (r: CustomResult<string>)
    ensures r.Ok? && r.value == base + "payments"
  {
    Ok(base + "payments")
  }

  function CaptureRequestBody(p: Collaborators, req: PaymentsCaptureRouterData): (r: CustomResult<Option<string>>)
    ensures r.Ok? <==> p.encodeCaptureRequest(PaymentsCaptureRequestFrom(req).value).Some?
    ensures r.Ok? ==> r.value == Some(p.encodeCaptureRequest(PaymentsCaptureRequestFrom(req).value).value)
    ensures r.Err? ==> r == Fail(RequestEncodingFailed)
  {
    EncodeBody(PaymentsCaptureRequestFrom(req), p.encodeCaptureRequest)
  }

  function CaptureBuildRequest(p: Collaborators, now: Option<string>, base: string, req: PaymentsCaptureRouterData)
    : (r: CustomResult<Request>)
    ensures r.Ok? <==> BuildHeaders(p, now, req.connectorAuthType, CaptureRequestBody(p, req)).Ok?
    ensures r.Err? ==> r.error == BuildHeaders(p, now, req.connectorAuthType, CaptureRequestBody(p, req)).error
    ensures r.Ok? ==>
              && r.value.httpMethod == Post
              && r.value.url == base + "payments"
              && CaptureRequestBody(p, req) == Ok(r.value.body)
              && r.value.body.Some?
              && SignedRequest(p, req.connectorAuthType, r.value)
  {
    var url := CaptureUrl(base, req).value;
    var headers :- BuildHeaders(p, now, req.connectorAuthType, CaptureRequestBody(p, req));
    // the body was already encoded, with this same result, while building the headers
    var body := CaptureRequestBody(p, req).value;
    HeadersSignTheBody(p, now, req.connectorAuthType, body, Post, url);
    Ok(Request(Post, url, headers, body))
  }

  // ---------------------------------------------------------------------
  // Authorize
  // ---------------------------------------------------------------------

  function AuthorizeUrl(base: string, req: PaymentsAuthorizeRouterData): (r: CustomResult<string>)
    ensures r.Ok? && r.value == base + "secure_payments"
  {
    Ok(base + "secure_payments")
  }

  function AuthorizeRequestBody(p: Collaborators, req: PaymentsAuthorizeRouterData): (r: CustomResult<Option<string>>)
    ensures r.Ok? <==> PaymentsRequestFrom(req).Ok? && p.encodePaymentsRequest(PaymentsRequestFrom(req).value).Some?
    ensures r.Ok? ==> r.value == Some(p.encodePaymentsRequest(PaymentsRequestFrom(req).value).value)
    ensures r.Err? ==> r.error.current == RequestEncodingFailed
    // a missing email is the cause underneath, whatever the payment method
    ensures req.request.email.None? ==> r == Err(Report(RequestEncodingFailed, [MissingRequiredField("email_id")]))
    ensures req.request.email.Some? && req.request.paymentMethodData.Other? ==>
              r == Err(Report(RequestEncodingFailed, [NotImplemented("Current Payment Method")]))
  {
    var converted := PaymentsRequestFrom(req);
    assert converted.Err? ==> [converted.error.current] + converted.error.causes == [converted.error.current];
    EncodeBody(converted, p.encodePaymentsRequest)
  }

  function AuthorizeBuildRequest(p: Collaborators, now: Option<string>, base: string, req: PaymentsAuthorizeRouterData)
    : (r: CustomResult<Request>)
    ensures r.Ok? <==> BuildHeaders(p, now, req.connectorAuthType, AuthorizeRequestBody(p, req)).Ok?
    ensures r.Err? ==> r.error == BuildHeaders(p, now, req.connectorAuthType, AuthorizeRequestBody(p, req)).error
    ensures r.Ok? ==>
              && r.value.httpMethod == Post
              && r.value.url == base + "secure_payments"
              && AuthorizeRequestBody(p, req) == Ok(r.value.body)
              && r.value.body.Some?
              && SignedRequest(p, req.connectorAuthType, r.value)
  {
    var url := AuthorizeUrl(base, req).value;
    var headers :- BuildHeaders(p, now, req.connectorAuthType, AuthorizeRequestBody(p, req));
    // the body was already encoded, with this same result, while building the headers
    var body := AuthorizeRequestBody(p, req).value;
    HeadersSignTheBody(p, now, req.connectorAuthType, body, Post, url);
    Ok(Request(Post, url, headers, body))
  }

  /** Without an email no Authorize request is built, for any payment method, clock or credentials. */
  lemma AuthorizeWithoutEmailFails(p: Collaborators, now: Option<string>, base: string, req: PaymentsAuthorizeRouterData)
    requires req.request.email.None?
    ensures AuthorizeBuildRequest(p, now, base, req) == Err(Report(RequestEncodingFailed, [MissingRequiredField("email_id")]))
  {
  }

  /**
   * An Authorize call end to end: the request sent carries the payment id as
   * its order id, and the router data that comes back keeps every field of
   * the stored record except `status` and `response`.
   */
  lemma AuthorizeRoundTrip(p: Collaborators, now: Option<string>, base: string, req: PaymentsAuthorizeRouterData, res: Response)
    requires AuthorizeBuildRequest(p, now, base, req).Ok?
    requires HandlePaymentsResponse(p, req, res).Ok?
    ensures PaymentsRequestFrom(req).Ok? && PaymentsRequestFrom(req).value.orderId == req.paymentId
    ensures AuthorizeBuildRequest(p, now, base, req).value.body
            == Some(p.encodePaymentsRequest(PaymentsRequestFrom(req).value).value)
    ensures var back := HandlePaymentsResponse(p, req, res).value;
            && back.paymentId == req.paymentId && back.request == req.request
            && back.connectorAuthType == req.connectorAuthType && back.returnUrl == req.returnUrl
            && back.(status := req.status, response := req.response) == req
  {
    var body := AuthorizeRequestBody(p, req);
    assert body.Ok?;
  }

  // ---------------------------------------------------------------------
  // Refund execute
  // ---------------------------------------------------------------------

  function RefundExecuteUrl(base: string, req: RefundsRouterData): (r: CustomResult<string>)
    ensures r.Ok? && r.value == base + "refunds"
  {
    Ok(base + "refunds")
  }

  function RefundExecuteRequestBody(p: Collaborators, req: RefundsRouterData): (r: CustomResult<Option<string>>)
    ensures r.Ok? <==> p.encodeRefundRequest(RefundRequestFrom(req).value).Some?
    ensures r.Ok? ==> r.value == Some(p.encodeRefundRequest(RefundRequestFrom(req).value).value)
    ensures r.Err? ==> r == Fail(RequestEncodingFailed)
  {
    EncodeBody(RefundRequestFrom(req), p.encodeRefundRequest)
  }

  function RefundExecuteBuildRequest(p: Collaborators, now: Option<string>, base: string, req: RefundsRouterData)
    : (r: CustomResult<Request>)
    ensures r.Ok? <==> BuildHeaders(p, now, req.connectorAuthType, RefundExecuteRequestBody(p, req)).Ok?
    ensures r.Err? ==> r.error == BuildHeaders(p, now, req.connectorAuthType, RefundExecuteRequestBody(p, req)).error
    ensures r.Ok? ==>
              && r.value.httpMethod == Post
              && r.value.url == base + "refunds"
              && RefundExecuteRequestBody(p, req) == Ok(r.value.body)
              && r.value.body.Some?
              && SignedRequest(p, req.connectorAuthType, r.value)
  {
    var url := RefundExecuteUrl(base, req).value;
    var headers :- BuildHeaders(p, now, req.connectorAuthType, RefundExecuteRequestBody(p, req));
    // the body was already encoded, with this same result, while building the headers
    var body := RefundExecuteRequestBody(p, req).value;
    HeadersSignTheBody(p, now, req.connectorAuthType, body, Post, url);
    Ok(Request(Post, url, headers, body))
  }

  /** A refund-execute reply that does not parse is reported as `RequestEncodingFailed`. */
  function RefundExecuteHandleResponse(p: Collaborators, data: RefundsRouterData, res: Response): (r: CustomResult<RefundsRouterData>)
    ensures r.Ok? <==> p.parseRefundResponse(res.body).Some?
    ensures r.Err? ==> r == Fail(RequestEncodingFailed)
    ensures r.Ok? ==>
              var response := p.parseRefundResponse(res.body).value;
              && r.value.(response := data.response) == data
              && r.value.response == Ok(RefundsResponseData(response.id, RefundStatusFrom(response.status)))
  {
    var response :- OkOr(p.parseRefundResponse(res.body), RequestEncodingFailed);
    ChangeContext(RefundResponseOverlay(response, data), ResponseHandlingFailed)
  }

  // ---------------------------------------------------------------------
  // Refund sync
  // ---------------------------------------------------------------------

  function RefundSyncUrl(base: string, req: RefundsRouterData): (r: CustomResult<string>)
    ensures r.Ok?
    ensures r.value == base + "refunds/" + req.request.connectorRefundId.GetOr(req.request.refundId) + "/status"
  {
    // the conversion never fails
    var syncData := RefundsSyncRequestFrom(req).value;
    Ok(base + "refunds/" + syncData.refundId + "/status")
  }

  /** RSync sends no body, so its headers sign the empty body. */
  function RefundSyncBuildRequest(p: Collaborators, now: Option<string>, base: string, req: RefundsRouterData)
    : (r: CustomResult<Request>)
    ensures r.Ok? <==> BuildHeaders(p, now, req.connectorAuthType, Ok(None)).Ok?
    ensures r.Err? ==> r.error == BuildHeaders(p, now, req.connectorAuthType, Ok(None)).error
    ensures r.Ok? ==>
              && r.value.httpMethod == Get
              && r.value.url == base + "refunds/" + req.request.connectorRefundId.GetOr(req.request.refundId) + "/status"
              && r.value.body.None?
              && SignedRequest(p, req.connectorAuthType, r.value)
  {
    var url := RefundSyncUrl(base, req).value;
    var headers :- BuildHeaders(p, now, req.connectorAuthType, Ok(None));
    HeadersSignTheBody(p, now, req.connectorAuthType, None, Get, url);
    Ok(Request(Get, url, headers, None))
  }

  function RefundSyncHandleResponse(p: Collaborators, data: RefundsRouterData, res: Response): (r: CustomResult<RefundsRouterData>)
    ensures r.Ok? <==> p.parseRefundResponse(res.body).Some?
    ensures r.Err? ==> r == Fail(ResponseDeserializationFailed)
    ensures r.Ok? ==>
              var response := p.parseRefundResponse(res.body).value;
              && r.value.(response := data.response) == data
              && r.value.response == Ok(RefundsResponseData(response.id, RefundStatusFrom(response.status)))
  {
    var response :- OkOr(p.parseRefundResponse(res.body), ResponseDeserializationFailed);
    ChangeContext(RefundResponseOverlay(response, data), ResponseHandlingFailed)
  }

  // ---------------------------------------------------------------------
  // Identifiers in paths
  // ---------------------------------------------------------------------

  /** The identifier in a path URL is what lies between the known prefix and the known suffix. */
  function IdFromPath(url: string, prefix: string, suffix: string): (id: Option<string>)
    ensures id.Some? ==> prefix + id.value + suffix == url
  {
    if |prefix| + |suffix| <= |url| && url[..|prefix|] == prefix && url[|url| - |suffix|..] == suffix
    then
      var id := url[|prefix|..|url| - |suffix|];
      assert prefix + id + suffix == url[..|prefix|] + url[|prefix|..|url| - |suffix|] + url[|url| - |suffix|..];
      Some(id)
    else None
  }

  lemma IdFromPathRecovers(prefix: string, id: string, suffix: string)
    ensures IdFromPath(prefix + id + suffix, prefix, suffix) == Some(id)
  {
    var url := prefix + id + suffix;
    assert url[..|prefix|] == prefix;
    assert url[|url| - |suffix|..] == suffix;
    assert url[|prefix|..|url| - |suffix|] == id;
  }

  /** The Void, PSync and RSync URLs give back the identifier they were built from. */
  lemma PathUrlsCarryTheirIdentifier(base: string, cancel: PaymentsCancelRouterData, sync: PaymentsSyncRouterData, refund: RefundsRouterData)
    ensures IdFromPath(VoidUrl(base, cancel).value, base + "payments/", "/cancel") == Some(cancel.request.connectorTransactionId)
    ensures PSyncUrl(base, sync).Ok? ==>
              IdFromPath(PSyncUrl(base, sync).value, base + "payments/", "/status") == Some(sync.request.connectorTransactionId.id)
    ensures IdFromPath(RefundSyncUrl(base, refund).value, base + "refunds/", "/status")
              == Some(refund.request.connectorRefundId.GetOr(refund.request.refundId))
  {
    IdFromPathRecovers(base + "payments/", cancel.request.connectorTransactionId, "/cancel");
    if sync.request.connectorTransactionId.ConnectorTransactionId? {
      IdFromPathRecovers(base + "payments/", sync.request.connectorTransactionId.id, "/status");
    }
    IdFromPathRecovers(base + "refunds/", refund.request.connectorRefundId.GetOr(refund.request.refundId), "/status");
  }

  // ---------------------------------------------------------------------
  // Webhooks and redirects
  // ---------------------------------------------------------------------

  /** The platform's incoming-webhook event kinds (a representative subset). */
  datatype IncomingWebhookEvent = PaymentIntentSuccess | EndpointVerification

  /** Webhooks are not implemented: every body is refused. */
  function GetWebhookObjectReferenceId(body: seq<bv8>): (r: CustomResult<string>)
    ensures r == Fail(WebhooksNotImplemented)
  {
    Fail(WebhooksNotImplemented)
  }

  function GetWebhookEventType(body: seq<bv8>): (r: CustomResult<IncomingWebhookEvent>)
    ensures r == Fail(WebhooksNotImplemented)
  {
    Fail(WebhooksNotImplemented)
  }

  /** The resource object is a JSON value, here its text. */
  function GetWebhookResourceObject(body: seq<bv8>): (r: CustomResult<string>)
    ensures r == Fail(WebhooksNotImplemented)
  {
    Fail(WebhooksNotImplemented)
  }

  /** After a redirect the orchestrator is always told to call the connector again, whatever the query. */
  function GetFlowType(queryParams: string): (r: CustomResult<CallConnectorAction>)
    ensures r == Ok(Trigger)
  {
    Ok(Trigger)
  }
}
