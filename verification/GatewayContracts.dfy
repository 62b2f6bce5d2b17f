/**
 * The payment gateway's request and response contracts, as immutable records.
 *
 * The gateway SDK builds requests by calling setters on mutable builder
 * objects; each request here is the value those setters leave behind. A
 * response is the deserialized shape the handlers inspect: every container
 * the handlers test for presence is an `Option`.
 */
module GatewayContracts {
  import opened Wrappers

  /** The result code the gateway reports for an accepted request (`MessageTypeEnum.OK`). */
  const RESULT_OK: string := "Ok"

  /** The two API endpoints; nothing else is ever addressed. */
  const SANDBOX_ENDPOINT: string := "https://apitest.authorize.net/xml/v1/request.api"
  const PRODUCTION_ENDPOINT: string := "https://api.authorize.net/xml/v1/request.api"

  // ---------------------------------------------------------------- requests

  /** Both handlers use only the single-step authorize-and-capture transaction. */
  datatype TransactionType = AuthCaptureTransaction

  datatype MerchantAuthentication = MerchantAuthentication(name: string, transactionKey: string)

  datatype CreditCard = CreditCard(cardNumber: string, expirationDate: string, cardCode: string)

  /** The order sub-object; a field left unset is `None`. */
  datatype Order = Order(invoiceNumber: Option<string>, description: Option<string>)

  /** A transaction request; `payment` and `order` are set only by the handler that needs them. */
  datatype TransactionRequest = TransactionRequest(
    transactionType: TransactionType,
    payment: Option<CreditCard>,
    amount: real,
    order: Option<Order>)

  /** One hosted-payment-page setting: a name and a JSON-encoded value. */
  datatype Setting = Setting(settingName: string, settingValue: string)

  datatype CreateTransactionRequest = CreateTransactionRequest(
    merchantAuthentication: MerchantAuthentication,
    transactionRequest: TransactionRequest)

  datatype HostedPaymentPageRequest = HostedPaymentPageRequest(
    merchantAuthentication: MerchantAuthentication,
    transactionRequest: TransactionRequest,
    hostedPaymentSettings: seq<Setting>)

  // --------------------------------------------------------------- responses

  /** A top-level (API-level) message. */
  datatype Message = Message(code: string, text: string)

  /** The top-level messages block: the result code and the message list, which may be absent. */
  datatype Messages = Messages(resultCode: string, message: Option<seq<Message>>)

  datatype TransactionMessage = TransactionMessage(code: string, description: string)

  datatype TransactionError = TransactionError(errorCode: string, errorText: string)

  /** The transaction-level response; its message and error containers are each optional. */
  datatype TransactionResponse = TransactionResponse(
    transId: string,
    messages: Option<seq<TransactionMessage>>,
    errors: Option<seq<TransactionError>>)

  datatype CreateTransactionResponse = CreateTransactionResponse(
    messages: Option<Messages>,
    transactionResponse: Option<TransactionResponse>)

  datatype HostedPaymentPageResponse = HostedPaymentPageResponse(
    messages: Option<Messages>,
    token: Option<string>)

  /** The response reports the OK result code (and so has a messages block). */
  predicate ResultOk(messages: Option<Messages>) {
    messages.Some? && messages.value.resultCode == RESULT_OK
  }

  /** The messages block is present and carries a message list. */
  predicate HasMessageList(messages: Option<Messages>) {
    messages.Some? && messages.value.message.Some?
  }

  function MessageList(messages: Option<Messages>): seq<Message>
    requires HasMessageList(messages)
  {
    messages.value.message.value
  }
}
