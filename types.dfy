/** The data the payment façade passes around (types.go): payment methods,
    request and response records, gateway configuration, the gateway
    capability itself and the errors the core reports. */
module PaymentTypes {

  /** A payment method identifier such as "esewa" or "stripe". */
  type Method = string

  /** A duration in nanoseconds, as Go's time.Duration counts it. */
  type Duration = int

  const Second: Duration := 1_000_000_000

  datatype PaymentStatus = Pending | Completed | Failed | Refunded | Canceled
  {
    /** The status as the wire format spells it. */
    function Name(): string {
      match this
      case Pending => "pending"
      case Completed => "completed"
      case Failed => "failed"
      case Refunded => "refunded"
      case Canceled => "canceled"
    }
  }

  /** An amount in minor units with its currency code; the money library
      that defines it is not part of this model. */
  datatype Money = Money(minorUnits: int, currency: string)

  datatype PaymentRequest = PaymentRequest(
    amount: Money, orderId: string,
    customerName: string, customerEmail: string, customerPhone: string,
    successUrl: string, failureUrl: string, returnUrl: string, webhookUrl: string,
    description: string, metadata: map<string, string>)

  datatype PaymentResponse = PaymentResponse(
    success: bool, paymentUrl: string, transactionId: string, orderId: string,
    message: string, metadata: map<string, string>)

  datatype VerificationRequest = VerificationRequest(
    transactionId: string, orderId: string, amount: Money, rawData: map<string, string>)

  datatype VerificationResponse = VerificationResponse(
    success: bool, status: PaymentStatus, transactionId: string, orderId: string,
    amount: Money, paidAmount: Money, fee: Money, message: string,
    metadata: map<string, string>)

  datatype RefundRequest = RefundRequest(transactionId: string, amount: Money, reason: string)

  datatype RefundResponse = RefundResponse(success: bool, refundId: string, message: string)

  datatype StatusResponse = StatusResponse(
    status: PaymentStatus, transactionId: string, orderId: string, amount: Money)

  /** Per-method configuration; the core never inspects it. */
  datatype GatewayConfig = GatewayConfig(
    merchantId: string, secretKey: string, apiKey: string, baseUrl: string,
    timeout: Duration, sandbox: bool, currency: string)

  /** The shared HTTP client a manager hands to every factory; only its
      timeout is modelled. */
  datatype HttpClient = HttpClient(timeout: Duration)

  /** The errors the core itself raises, and the opaque errors a provider
      raises, which the core passes on unchanged. */
  datatype PaymentError =
    | NoFactory(paymentMethod: Method)
    | NotRegistered(paymentMethod: Method)
    | NotAvailable(paymentMethod: Method, country: string)
    | Provider(message: string)
  {
    /** The error text as the core formats it. */
    function Message(): string {
      match this
      case NoFactory(m) => "no factory registered for method: " + m
      case NotRegistered(m) => "gateway " + m + " not registered"
      case NotAvailable(m, c) => "gateway " + m + " is not available for country " + c
      case Provider(msg) => msg
    }
  }

  /** A value or the error that replaced it (Go's (T, error) pair). */
  datatype Result<T> = Ok(value: T) | Err(error: PaymentError)

  /** Success, or the error that stopped it (Go's lone error return). */
  datatype Outcome = Pass | Fail(error: PaymentError)

  /** One provider integration. Its four operations go over the network to
      the provider; each is modelled as a function from the request to what
      the provider answers, and the core treats it as opaque. */
  datatype Gateway = Gateway(
    name: string,
    paymentMethod: Method,
    initiate: PaymentRequest -> Result<PaymentResponse>,
    verify: VerificationRequest -> Result<VerificationResponse>,
    refund: RefundRequest -> Result<RefundResponse>,
    status: string -> Result<StatusResponse>)

  /** Builds a gateway from its configuration and the shared client. */
  type GatewayFactory = (GatewayConfig, HttpClient) -> Gateway
}
