/**
 * The platform's gateway-agnostic records, as far as the dLocal connector
 * reads or writes them: the router-data record each flow receives and
 * returns, the per-flow request data, the response data, the status enums,
 * the credential bundle, the redirect form and the error envelope.
 */
module Types {
  import opened Wrappers

  /** A currency, by its ISO 4217 code; `to_string` gives the code. */
  datatype Currency = Currency(code: string)

  datatype CaptureMethod = Automatic | Manual | ManualMultiple | Scheduled

  datatype AuthenticationType = ThreeDs | NoThreeDs

  /** The platform's payment-attempt status (the variants this connector produces, and the usual start states). */
  datatype AttemptStatus =
    | Started
    | AuthenticationFailed
    | AuthenticationPending
    | AuthenticationSuccessful
    | Authorized
    | Charged
    | Voided
    | Failure
    | Pending

  /** The platform's refund status. */
  datatype RefundStatus = Failure | ManualReview | Pending | Success | TransactionFailure

  /** The credential bundle configured for a connector. */
  datatype ConnectorAuthType =
    | HeaderKey(apiKey: string)
    | BodyKey(apiKey: string, key1: string)
    | SignatureKey(apiKey: string, key1: string, apiSecret: string)

  datatype Ccard = Ccard(
    cardNumber: string,
    cardExpMonth: string,
    cardExpYear: string,
    cardHolderName: string,
    cardCvc: string)

  datatype WalletData = WalletData(issuerName: string, token: Option<string>)

  /** Payment-method data; `Other` stands for every further variant of the platform's enum. */
  datatype PaymentMethod = Card(card: Ccard) | Wallet(wallet: WalletData) | Other(kind: string)

  datatype MandateIds = MandateIds(mandateId: string)

  /** How a payment is identified at the connector. */
  datatype ResponseId = ConnectorTransactionId(id: string) | EncodedData(data: string) | NoResponseId

  datatype PaymentsAuthorizeData = PaymentsAuthorizeData(
    paymentMethodData: PaymentMethod,
    amount: int,
    email: Option<string>,
    currency: Currency,
    confirm: bool,
    captureMethod: Option<CaptureMethod>,
    mandateId: Option<MandateIds>)

  datatype PaymentsSyncData = PaymentsSyncData(connectorTransactionId: ResponseId, encodedData: Option<string>)

  datatype PaymentsCancelData = PaymentsCancelData(connectorTransactionId: string, cancellationReason: Option<string>)

  datatype PaymentsCaptureData = PaymentsCaptureData(
    amountToCapture: Option<int>,
    currency: Currency,
    connectorTransactionId: string,
    amount: int)

  datatype RefundsData = RefundsData(
    refundId: string,
    connectorTransactionId: string,
    connectorRefundId: Option<string>,
    currency: Currency,
    amount: int,
    refundAmount: int)

  datatype Method = Get | Post | Put | Delete

  /** A form the customer's browser submits to continue a redirect (3-D Secure) flow. */
  datatype RedirectForm = RedirectForm(url: string, httpMethod: Method, formFields: map<string, string>)

  datatype PaymentsResponseData =
    TransactionResponse(
      resourceId: ResponseId,
      redirectionData: Option<RedirectForm>,
      redirect: bool,
      mandateReference: Option<string>,
      connectorMetadata: Option<string>)

  datatype RefundsResponseData = RefundsResponseData(connectorRefundId: string, refundStatus: RefundStatus)

  /** The platform's canonical error envelope. */
  datatype ErrorResponse = ErrorResponse(statusCode: int, code: string, message: string, reason: Option<string>)

  /** The record every flow receives and returns; `Req` and `Resp` depend on the flow. */
  datatype RouterData<Req, Resp> = RouterData(
    merchantId: string,
    connector: string,
    paymentId: string,
    attemptId: string,
    status: AttemptStatus,
    connectorAuthType: ConnectorAuthType,
    description: Option<string>,
    returnUrl: Option<string>,
    authType: AuthenticationType,
    request: Req,
    response: Result<Resp, ErrorResponse>)

  type PaymentsAuthorizeRouterData = RouterData<PaymentsAuthorizeData, PaymentsResponseData>
  type PaymentsSyncRouterData = RouterData<PaymentsSyncData, PaymentsResponseData>
  type PaymentsCancelRouterData = RouterData<PaymentsCancelData, PaymentsResponseData>
  type PaymentsCaptureRouterData = RouterData<PaymentsCaptureData, PaymentsResponseData>
  /** `RefundsRouterData<Execute>` and `RefundsRouterData<RSync>` have the same fields. */
  type RefundsRouterData = RouterData<RefundsData, RefundsResponseData>

  /** A raw HTTP response as the transport hands it over. */
  datatype Response = Response(statusCode: int, body: string)

  /** A transport-ready request. */
  datatype Request = Request(httpMethod: Method, url: string, headers: seq<(string, string)>, body: Option<string>)

  /** What the orchestrator is told to do after a customer returns from a redirect. */
  datatype CallConnectorAction = Trigger | Avoid | StatusUpdate(status: AttemptStatus)

  /** `ResponseId::get_connector_transaction_id`: only a connector transaction id yields an id. */
  function GetConnectorTransactionId(id: ResponseId): (r: Option<string>)
    ensures r.Some? <==> id.ConnectorTransactionId?
    ensures r.Some? ==> r.value == id.id
  {
    match id
    case ConnectorTransactionId(s) => Some(s)
    case _ => None
  }
}
