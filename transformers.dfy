/**
 * The dLocal wire records and the conversions between them and the
 * platform's records (crates/router/src/connector/dlocal/transformers.rs).
 *
 * Requests: router data -> dLocal request record, failing with a typed error
 * where the source does. Responses: dLocal response record + the stored
 * router data -> router data in which only `status` and `response` (only
 * `response` for refunds) are replaced.
 */
module Transformers {
  import opened Wrappers
  import opened Errors
  import opened Types
  import Decimal
  import FormFields

  // ---------------------------------------------------------------------
  // Constants written into requests when the router data has no value.
  // ---------------------------------------------------------------------

  /** The payer document (tax id) sent with every payment. */
  const PAYER_DOCUMENT := "36691251830"
  /** The payer name sent with wallet payments. */
  const WALLET_PAYER_NAME := "dummyEmail@gmail.com"
  /** The notification URL of a payment when the router data has no return URL. */
  const PAYMENT_NOTIFICATION_FALLBACK := "http://wwww.sandbox.juspay.in/hackathon/H1005"
  /** The notification URL of a refund when the router data has no return URL. */
  const REFUND_NOTIFICATION_FALLBACK := "https://google.com"

  // ---------------------------------------------------------------------
  // Authorize request
  // ---------------------------------------------------------------------

  datatype Payer = Payer(name: string, email: string, document: string)

  /** The `card` object of a payment request (the source's `Card`). */
  datatype DlocalCard = DlocalCard(
    holderName: string,
    number: string,
    cvv: string,
    expirationMonth: string,
    expirationYear: string,
    capture: string,
    installmentsId: Option<string>,
    installments: Option<string>)

  datatype ThreeDSecureReqData = ThreeDSecureReqData(force: bool)

  datatype DlocalPaymentsRequest = DlocalPaymentsRequest(
    amount: int,
    currency: Currency,
    country: Option<string>,
    paymentMethodId: string,
    paymentMethodFlow: string,
    payer: Payer,
    card: Option<DlocalCard>,
    orderId: string,
    notificationUrl: string,
    threeDSecure: Option<ThreeDSecureReqData>,
    callbackUrl: Option<string>)

  /** Rust's `bool::to_string`. */
  function BoolToString(b: bool): (s: string)
    ensures s == "true" || s == "false"
    ensures s == "true" <==> b
  {
    if b then "true" else "false"
  }

  /** The country sent with a payment. Despite its name it is derived from the currency: Brazil for BRL, India for everything else. */
  function GetCurrency(c: Currency): (country: string)
    ensures country == "BR" || country == "IN"
    ensures country == "BR" <==> c.code == "BRL"
  {
    if c.code == "BRL" then "BR" else "IN"
  }

  /** The return URL, or `fallback` when the router data has none. */
  function NotificationUrl(returnUrl: Option<string>, fallback: string): (url: string)
    ensures returnUrl.Some? ==> url == returnUrl.value
    ensures returnUrl.None? ==> url == fallback
  {
    match returnUrl
    case Some(u) => u
    case None => fallback
  }

  /** The fields both accepted payment methods fill in the same way. */
  ghost predicate CommonPaymentFields(item: PaymentsAuthorizeRouterData, email: string, p: DlocalPaymentsRequest) {
    && p.amount == item.request.amount
    && p.currency == item.request.currency
    && p.country == Some(GetCurrency(item.request.currency))
    && p.orderId == item.paymentId
    && p.payer.email == email
    && p.payer.document == PAYER_DOCUMENT
    && p.notificationUrl == NotificationUrl(item.returnUrl, PAYMENT_NOTIFICATION_FALLBACK)
    && p.callbackUrl == item.returnUrl
    && p.threeDSecure == None
  }

  /** `TryFrom<&PaymentsAuthorizeRouterData> for DlocalPaymentsRequest`. */
  function PaymentsRequestFrom(item: PaymentsAuthorizeRouterData): (r: CustomResult<DlocalPaymentsRequest>)
    // the email check comes before the payment-method dispatch
    ensures item.request.email.None? ==> r == Fail(MissingRequiredField("email_id"))
    ensures item.request.email.Some? && item.request.paymentMethodData.Other? ==>
              r == Fail(NotImplemented("Current Payment Method"))
    ensures r.Ok? <==> item.request.email.Some? && !item.request.paymentMethodData.Other?
    ensures r.Ok? ==> CommonPaymentFields(item, item.request.email.value, r.value)
    ensures r.Ok? && item.request.paymentMethodData.Card? ==>
              var ccard, p := item.request.paymentMethodData.card, r.value;
              && p.paymentMethodId == "CARD" && p.paymentMethodFlow == "DIRECT"
              && p.payer.name == ccard.cardHolderName
              && p.card.Some?
              && p.card.value.holderName == ccard.cardHolderName
              && p.card.value.number == ccard.cardNumber
              && p.card.value.cvv == ccard.cardCvc
              && p.card.value.expirationMonth == ccard.cardExpMonth
              && p.card.value.expirationYear == ccard.cardExpYear
              && (p.card.value.capture == "true" <==> item.request.captureMethod == Some(Automatic))
              && (p.card.value.capture == "false" <==> item.request.captureMethod != Some(Automatic))
              && (p.card.value.installments.Some? <==> item.request.mandateId.Some?)
              && (p.card.value.installments.Some? ==> p.card.value.installments.value == "1")
              && (p.card.value.installmentsId.Some? <==> item.request.mandateId.Some?)
              && (p.card.value.installmentsId.Some? ==> p.card.value.installmentsId.value == item.request.mandateId.value.mandateId)
    ensures r.Ok? && item.request.paymentMethodData.Wallet? ==>
              && r.value.paymentMethodId == "MP" && r.value.paymentMethodFlow == "REDIRECT"
              && r.value.payer.name == WALLET_PAYER_NAME
              && r.value.card.None?
  {
    var email :- OkOr(item.request.email, MissingRequiredField("email_id"));
    match item.request.paymentMethodData
    case Card(ccard) =>
      var shouldCapture := item.request.captureMethod == Some(Automatic);
      Ok(DlocalPaymentsRequest(
        amount := item.request.amount,
        currency := item.request.currency,
        country := Some(GetCurrency(item.request.currency)),
        paymentMethodId := "CARD",
        paymentMethodFlow := "DIRECT",
        payer := Payer(ccard.cardHolderName, email, PAYER_DOCUMENT),
        card := Some(DlocalCard(
          holderName := ccard.cardHolderName,
          number := ccard.cardNumber,
          cvv := ccard.cardCvc,
          expirationMonth := ccard.cardExpMonth,
          expirationYear := ccard.cardExpYear,
          capture := BoolToString(shouldCapture),
          installmentsId := match item.request.mandateId case Some(ids) => Some(ids.mandateId) case None => None,
          installments := match item.request.mandateId case Some(_) => Some("1") case None => None)),
        orderId := item.paymentId,
        notificationUrl := NotificationUrl(item.returnUrl, PAYMENT_NOTIFICATION_FALLBACK),
        threeDSecure := None,
        callbackUrl := item.returnUrl))
    case Wallet(_) =>
      Ok(DlocalPaymentsRequest(
        amount := item.request.amount,
        currency := item.request.currency,
        country := Some(GetCurrency(item.request.currency)),
        paymentMethodId := "MP",
        paymentMethodFlow := "REDIRECT",
        payer := Payer(WALLET_PAYER_NAME, email, PAYER_DOCUMENT),
        card := None,
        orderId := item.paymentId,
        notificationUrl := NotificationUrl(item.returnUrl, PAYMENT_NOTIFICATION_FALLBACK),
        threeDSecure := None,
        callbackUrl := item.returnUrl))
    case Other(_) =>
      Fail(NotImplemented("Current Payment Method"))
  }

  // ---------------------------------------------------------------------
  // Sync, cancel and capture requests
  // ---------------------------------------------------------------------

  datatype DlocalPaymentsSyncRequest = DlocalPaymentsSyncRequest(authzId: string)

  /** `TryFrom<&PaymentsSyncRouterData>`: the connector transaction id, which must be present. */
  function PaymentsSyncRequestFrom(item: PaymentsSyncRouterData): (r: CustomResult<DlocalPaymentsSyncRequest>)
    ensures r.Ok? <==> item.request.connectorTransactionId.ConnectorTransactionId?
    ensures r.Ok? ==> r.value.authzId == item.request.connectorTransactionId.id
    ensures r.Err? ==> r == Fail(MissingConnectorTransactionID)
  {
    var id :- OkOr(GetConnectorTransactionId(item.request.connectorTransactionId), MissingConnectorTransactionID);
    Ok(DlocalPaymentsSyncRequest(id))
  }

  datatype DlocalPaymentsCancelRequest = DlocalPaymentsCancelRequest(cancelId: string)

  /** `TryFrom<&PaymentsCancelRouterData>`: copies the id; never fails, even on an empty id. */
  function PaymentsCancelRequestFrom(item: PaymentsCancelRouterData): (r: CustomResult<DlocalPaymentsCancelRequest>)
    ensures r.Ok?
    ensures r.value.cancelId == item.request.connectorTransactionId
  {
    Ok(DlocalPaymentsCancelRequest(item.request.connectorTransactionId))
  }

  datatype DlocalPaymentsCaptureRequest = DlocalPaymentsCaptureRequest(
    authorizationId: string,
    amount: int,
    currency: string,
    orderId: string)

  /** `TryFrom<&PaymentsCaptureRouterData>`: captures `amount_to_capture`, or the whole amount when none is given. */
  function PaymentsCaptureRequestFrom(item: PaymentsCaptureRouterData): (r: CustomResult<DlocalPaymentsCaptureRequest>)
    ensures r.Ok?
    ensures item.request.amountToCapture.Some? ==> r.value.amount == item.request.amountToCapture.value
    ensures item.request.amountToCapture.None? ==> r.value.amount == item.request.amount
    ensures r.value.authorizationId == item.request.connectorTransactionId
    ensures r.value.currency == item.request.currency.code
    ensures r.value.orderId == item.paymentId
  {
    var amountToCapture := item.request.amountToCapture.GetOr(item.request.amount);
    Ok(DlocalPaymentsCaptureRequest(
      authorizationId := item.request.connectorTransactionId,
      amount := amountToCapture,
      currency := item.request.currency.code,
      orderId := item.paymentId))
  }

  // ---------------------------------------------------------------------
  // Credentials
  // ---------------------------------------------------------------------

  datatype DlocalAuthType = DlocalAuthType(xLogin: string, xTransKey: string, secret: string)

  /** `TryFrom<&ConnectorAuthType> for DlocalAuthType`: only the signature-key bundle is accepted. */
  function AuthTypeFrom(auth: ConnectorAuthType): (r: CustomResult<DlocalAuthType>)
    ensures r.Ok? <==> auth.SignatureKey?
    ensures r.Ok? ==> r.value == DlocalAuthType(auth.apiKey, auth.key1, auth.apiSecret)
    ensures r.Err? ==> r == Fail(FailedToObtainAuthType)
  {
    match auth
    case SignatureKey(apiKey, key1, apiSecret) => Ok(DlocalAuthType(apiKey, key1, apiSecret))
    case _ => Fail(FailedToObtainAuthType)
  }

  // ---------------------------------------------------------------------
  // Payment status and payment responses
  // ---------------------------------------------------------------------

  datatype DlocalPaymentStatus = Authorized | Paid | Verified | Cancelled | Pending | Rejected

  /** `From<DlocalPaymentStatus> for AttemptStatus`. */
  function AttemptStatusFrom(s: DlocalPaymentStatus): (a: AttemptStatus)
    // the image is exactly these five statuses
    ensures a in {AttemptStatus.Authorized, AttemptStatus.Charged, AttemptStatus.AuthenticationPending,
                  AttemptStatus.Voided, AttemptStatus.AuthenticationFailed}
  {
    match s
    case Authorized => AttemptStatus.Authorized
    case Verified => AttemptStatus.Authorized
    case Paid => AttemptStatus.Charged
    case Pending => AttemptStatus.AuthenticationPending
    case Cancelled => AttemptStatus.Voided
    case Rejected => AttemptStatus.AuthenticationFailed
  }

  /** AUTHORIZED and VERIFIED are the only two gateway statuses that share a platform status. */
  lemma AttemptStatusFromCollapsesOnlyAuthorized(s: DlocalPaymentStatus, t: DlocalPaymentStatus)
    requires s != t && AttemptStatusFrom(s) == AttemptStatusFrom(t)
    ensures {s, t} == {DlocalPaymentStatus.Authorized, DlocalPaymentStatus.Verified}
  {
  }

  /** Every one of the five statuses is reached, and no other. */
  lemma AttemptStatusFromImage(a: AttemptStatus)
    ensures (exists s :: AttemptStatusFrom(s) == a) <==>
            a in {AttemptStatus.Authorized, AttemptStatus.Charged, AttemptStatus.AuthenticationPending,
                  AttemptStatus.Voided, AttemptStatus.AuthenticationFailed}
  {
    match a
    case Authorized => assert AttemptStatusFrom(DlocalPaymentStatus.Authorized) == a;
    case Charged => assert AttemptStatusFrom(DlocalPaymentStatus.Paid) == a;
    case AuthenticationPending => assert AttemptStatusFrom(DlocalPaymentStatus.Pending) == a;
    case Voided => assert AttemptStatusFrom(DlocalPaymentStatus.Cancelled) == a;
    case AuthenticationFailed => assert AttemptStatusFrom(DlocalPaymentStatus.Rejected) == a;
    case _ =>
  }

  datatype ThreeDSecureResData = ThreeDSecureResData(redirectUrl: Option<string>)

  datatype DlocalPaymentsResponse = DlocalPaymentsResponse(
    status: DlocalPaymentStatus,
    id: string,
    threeDSecure: Option<ThreeDSecureResData>)

  /** The redirect URL of a response, when it has both a 3-D Secure object and a URL in it. */
  function RedirectUrlOf(threeDSecure: Option<ThreeDSecureResData>): Option<string> {
    match threeDSecure
    case Some(data) => data.redirectUrl
    case None => None
  }

  /**
   * The redirect form of a payment response. `parseUrlQuery` is `Url::parse`
   * followed by `query_pairs`: the decoded query pairs, or None when the URL
   * does not parse.
   */
  function RedirectFormFrom(parseUrlQuery: string -> Option<seq<FormFields.Pair>>, threeDSecure: Option<ThreeDSecureResData>)
    : (r: CustomResult<Option<RedirectForm>>)
    // no URL: no redirect, and no error
    ensures RedirectUrlOf(threeDSecure).None? ==> r == Ok(None)
    ensures RedirectUrlOf(threeDSecure).Some? ==>
              var url := RedirectUrlOf(threeDSecure).value;
              && (parseUrlQuery(url).None? ==> r == Fail(ResponseHandlingFailed))
              && (parseUrlQuery(url).Some? ==>
                    && r.Ok? && r.value.Some?
                    && r.value.value.url == url
                    && r.value.value.httpMethod == Get
                    && r.value.value.formFields.Keys == FormFields.KeysOf(parseUrlQuery(url).value)
                    && forall i :: FormFields.IsLastOccurrence(parseUrlQuery(url).value, i) ==>
                         r.value.value.formFields[parseUrlQuery(url).value[i].0] == parseUrlQuery(url).value[i].1)
  {
    match RedirectUrlOf(threeDSecure)
    case None => Ok(None)
    case Some(redirectUrl) =>
      var pairs :- OkOr(parseUrlQuery(redirectUrl), ResponseHandlingFailed);
      var fields := FormFields.FromPairs(pairs);
      assert forall i :: FormFields.IsLastOccurrence(pairs, i) ==> fields[pairs[i].0] == pairs[i].1 by {
        forall i | FormFields.IsLastOccurrence(pairs, i) ensures fields[pairs[i].0] == pairs[i].1 {
          FormFields.LastOccurrenceWins(pairs, i);
        }
      }
      Ok(Some(RedirectForm(redirectUrl, Get, fields)))
  }

  /** A challenge URL with two query parameters gives a GET form with those two fields. */
  lemma RedirectFormExample(parseUrlQuery: string -> Option<seq<FormFields.Pair>>)
    requires parseUrlQuery("https://pay.example/challenge?token=abc&step=2") == Some([("token", "abc"), ("step", "2")])
    ensures RedirectFormFrom(parseUrlQuery, Some(ThreeDSecureResData(Some("https://pay.example/challenge?token=abc&step=2"))))
            == Ok(Some(RedirectForm("https://pay.example/challenge?token=abc&step=2", Get, map["token" := "abc", "step" := "2"])))
  {
    var pairs := [("token", "abc"), ("step", "2")];
    assert pairs[..1] == [("token", "abc")];
    assert pairs[..1][..0] == [];
    assert FormFields.FromPairs(pairs) == map["token" := "abc", "step" := "2"];
  }

  /**
   * `TryFrom<ResponseRouterData<F, DlocalPaymentsResponse, T, PaymentsResponseData>> for RouterData<F, T, PaymentsResponseData>`:
   * the stored router data with `status` and `response` replaced.
   */
  function PaymentsResponseOverlay<Req>(
    parseUrlQuery: string -> Option<seq<FormFields.Pair>>,
    response: DlocalPaymentsResponse,
    data: RouterData<Req, PaymentsResponseData>)
    : (r: CustomResult<RouterData<Req, PaymentsResponseData>>)
    ensures r.Ok? <==> RedirectFormFrom(parseUrlQuery, response.threeDSecure).Ok?
    ensures r.Err? ==> r == Fail(ResponseHandlingFailed)
    // every other field of the stored router data is kept
    ensures r.Ok? ==> r.value.(status := data.status, response := data.response) == data
    ensures r.Ok? ==> r.value.status == AttemptStatusFrom(response.status)
    ensures r.Ok? ==>
              var form := RedirectFormFrom(parseUrlQuery, response.threeDSecure).value;
              r.value.response == Ok(TransactionResponse(
                resourceId := ConnectorTransactionId(response.id),
                redirectionData := form,
                redirect := form.Some?,
                mandateReference := None,
                connectorMetadata := None))
    // a redirect is reported exactly when the response carries a 3-D Secure redirect URL
    ensures r.Ok? ==> (r.value.response.value.redirect <==> RedirectUrlOf(response.threeDSecure).Some?)
  {
    var threeDsData :- RedirectFormFrom(parseUrlQuery, response.threeDSecure);
    var transaction := TransactionResponse(
      resourceId := ConnectorTransactionId(response.id),
      redirectionData := threeDsData,
      redirect := threeDsData.Some?,
      mandateReference := None,
      connectorMetadata := None);
    Ok(data.(status := AttemptStatusFrom(response.status), response := Ok(transaction)))
  }

  /**
   * The response records of the sync, capture and cancel flows
   * (`DlocalPaymentsSyncResponse`, `DlocalPaymentsCaptureResponse`,
   * `DlocalPaymentsCancelResponse`), which share these two fields.
   */
  datatype DlocalStatusResponse = DlocalStatusResponse(status: DlocalPaymentStatus, id: string)

  /** The overlays for the sync, capture and cancel response records: never a redirect, never an error. */
  function StatusResponseOverlay<Req>(response: DlocalStatusResponse, data: RouterData<Req, PaymentsResponseData>)
    : (r: CustomResult<RouterData<Req, PaymentsResponseData>>)
    ensures r.Ok?
    ensures r.value.(status := data.status, response := data.response) == data
    ensures r.value.status == AttemptStatusFrom(response.status)
    ensures r.value.response.Ok? && r.value.response.value.resourceId == ConnectorTransactionId(response.id)
    ensures !r.value.response.value.redirect && r.value.response.value.redirectionData.None?
    ensures r.value.response.value.mandateReference.None? && r.value.response.value.connectorMetadata.None?
  {
    Ok(data.(
      status := AttemptStatusFrom(response.status),
      response := Ok(TransactionResponse(ConnectorTransactionId(response.id), None, false, None, None))))
  }

  // ---------------------------------------------------------------------
  // Refunds
  // ---------------------------------------------------------------------

  datatype RefundRequest = RefundRequest(
    amount: string,
    paymentId: string,
    currency: string,
    notificationUrl: string,
    id: string)

  /** `TryFrom<&RefundsRouterData<F>> for RefundRequest`. */
  function RefundRequestFrom(item: RefundsRouterData): (r: CustomResult<RefundRequest>)
    ensures r.Ok?
    // the amount is the refund amount written in decimal, never the payment amount
    ensures Decimal.ParseDecimal(r.value.amount) == Some(item.request.refundAmount)
    // written as `to_string` writes it: no leading zero, no "-0"
    ensures Decimal.IsCanonicalInt(r.value.amount)
    ensures r.value.amount == Decimal.IntToDecimal(item.request.refundAmount)
    ensures r.value.paymentId == item.request.connectorTransactionId
    ensures r.value.currency == item.request.currency.code
    ensures r.value.id == item.request.refundId
    ensures item.returnUrl.Some? ==> r.value.notificationUrl == item.returnUrl.value
    ensures item.returnUrl.None? ==> r.value.notificationUrl == REFUND_NOTIFICATION_FALLBACK
  {
    Decimal.IntDecimalRoundTrip(item.request.refundAmount);
    Ok(RefundRequest(
      amount := Decimal.IntToDecimal(item.request.refundAmount),
      paymentId := item.request.connectorTransactionId,
      currency := item.request.currency.code,
      notificationUrl := NotificationUrl(item.returnUrl, REFUND_NOTIFICATION_FALLBACK),
      id := item.request.refundId))
  }

  /** The refund status on the wire (the source's `RefundStatus`). */
  datatype DlocalRefundStatus = Success | Pending | Rejected | Cancelled

  /** `From<RefundStatus> for enums::RefundStatus`. */
  function RefundStatusFrom(s: DlocalRefundStatus): (rs: RefundStatus)
    ensures rs in {RefundStatus.Success, RefundStatus.Pending, RefundStatus.ManualReview, RefundStatus.Failure}
  {
    match s
    case Success => RefundStatus.Success
    case Pending => RefundStatus.Pending
    case Rejected => RefundStatus.ManualReview
    case Cancelled => RefundStatus.Failure
  }

  /** No two gateway refund statuses share a platform status. */
  lemma RefundStatusFromInjective(s: DlocalRefundStatus, t: DlocalRefundStatus)
    requires RefundStatusFrom(s) == RefundStatusFrom(t)
    ensures s == t
  {
  }

  /** Every one of the four refund statuses is reached, and no other. */
  lemma RefundStatusFromImage(rs: RefundStatus)
    ensures (exists s :: RefundStatusFrom(s) == rs) <==>
            rs in {RefundStatus.Success, RefundStatus.Pending, RefundStatus.ManualReview, RefundStatus.Failure}
  {
    match rs
    case Success => assert RefundStatusFrom(DlocalRefundStatus.Success) == rs;
    case Pending => assert RefundStatusFrom(DlocalRefundStatus.Pending) == rs;
    case ManualReview => assert RefundStatusFrom(DlocalRefundStatus.Rejected) == rs;
    case Failure => assert RefundStatusFrom(DlocalRefundStatus.Cancelled) == rs;
    case _ =>
  }

  datatype RefundResponse = RefundResponse(id: string, status: DlocalRefundStatus)

  /** The refund-execute and refund-sync overlays: only `response` is replaced. */
  function RefundResponseOverlay(response: RefundResponse, data: RefundsRouterData): (r: CustomResult<RefundsRouterData>)
    ensures r.Ok?
    ensures r.value.(response := data.response) == data
    ensures r.value.response == Ok(RefundsResponseData(response.id, RefundStatusFrom(response.status)))
  {
    Ok(data.(response := Ok(RefundsResponseData(
      connectorRefundId := response.id,
      refundStatus := RefundStatusFrom(response.status)))))
  }

  datatype DlocalRefundsSyncRequest = DlocalRefundsSyncRequest(refundId: string)

  /** `TryFrom<&RefundSyncRouterData>`: the connector refund id, or the platform's own refund id when there is none. */
  function RefundsSyncRequestFrom(item: RefundsRouterData): (r: CustomResult<DlocalRefundsSyncRequest>)
    ensures r.Ok?
    ensures item.request.connectorRefundId.Some? ==> r.value.refundId == item.request.connectorRefundId.value
    ensures item.request.connectorRefundId.None? ==> r.value.refundId == item.request.refundId
  {
    Ok(DlocalRefundsSyncRequest(item.request.connectorRefundId.GetOr(item.request.refundId)))
  }

  // ---------------------------------------------------------------------
  // Errors
  // ---------------------------------------------------------------------

  /** The gateway's error body; `code` is an `i32`. */
  datatype DlocalErrorResponse = DlocalErrorResponse(code: int, message: string, param: Option<string>)
}
