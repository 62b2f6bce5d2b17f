/**
 * The charge handler: validate the card arguments, build an
 * authorize-and-capture request, submit it, and classify the gateway's
 * response along a fixed priority ladder.
 */
module TakePayment {
  import opened Wrappers
  import opened Text
  import opened GatewayContracts
  import opened Handlers

  /** The tool arguments; `None` stands for a missing, `null` or `undefined` value. */
  datatype PaymentArgs = PaymentArgs(
    amount: Option<real>,
    cardNumber: Option<string>,
    expirationDate: Option<string>,
    cardCode: Option<string>)

  const MISSING_PAYMENT_INFO: string := "Missing required payment information."

  /**
   * The early return of the handler. Only absence rejects the amount (so an
   * amount of 0 passes), while each card field must be truthy (so "" is
   * rejected).
   */
  function ValidatePayment(args: PaymentArgs): (rejection: Option<ToolResult>)
    ensures rejection.Some? <==>
      args.amount.None? || !Truthy(args.cardNumber) || !Truthy(args.expirationDate) || !Truthy(args.cardCode)
    ensures rejection.Some? ==> rejection.value == Reply(true, MISSING_PAYMENT_INFO)
  {
    if args.amount.None? || !Truthy(args.cardNumber) || !Truthy(args.expirationDate) || !Truthy(args.cardCode) then
      Some(Reply(true, MISSING_PAYMENT_INFO))
    else
      None
  }

  /** The arguments a charge request carries: amount and card fields, as present values. */
  function ChargedArgs(req: CreateTransactionRequest): PaymentArgs {
    var t := req.transactionRequest;
    match t.payment
    case Some(card) => PaymentArgs(Some(t.amount), Some(card.cardNumber), Some(card.expirationDate), Some(card.cardCode))
    case None => PaymentArgs(Some(t.amount), None, None, None)
  }

  /**
   * The create-transaction request for validated arguments: the credentials,
   * an authorize-and-capture transaction, and the amount and card fields
   * passed through unchanged (they can be read back from the request).
   */
  function BuildChargeRequest(cfg: Config, args: PaymentArgs): (req: CreateTransactionRequest)
    requires ValidatePayment(args).None?
    ensures req.merchantAuthentication == MerchantAuthentication(cfg.loginId, cfg.transactionKey)
    ensures req.transactionRequest.transactionType == AuthCaptureTransaction
    ensures req.transactionRequest.payment.Some? && req.transactionRequest.order.None?
    ensures ChargedArgs(req) == args
  {
    var card := CreditCard(args.cardNumber.value, args.expirationDate.value, args.cardCode.value);
    CreateTransactionRequest(
      MerchantAuth(cfg),
      TransactionRequest(AuthCaptureTransaction, Some(card), args.amount.value, None))
  }

  // ------------------------------------------------------ response predicates

  /** The transaction response is present and has a message container. */
  predicate HasTransactionMessages(r: CreateTransactionResponse) {
    r.transactionResponse.Some? && r.transactionResponse.value.messages.Some?
  }

  /** The transaction response is present and has an error container. */
  predicate HasTransactionErrors(r: CreateTransactionResponse) {
    r.transactionResponse.Some? && r.transactionResponse.value.errors.Some?
  }

  function TransactionMessages(r: CreateTransactionResponse): seq<TransactionMessage>
    requires HasTransactionMessages(r)
  {
    r.transactionResponse.value.messages.value
  }

  function TransactionErrors(r: CreateTransactionResponse): seq<TransactionError>
    requires HasTransactionErrors(r)
  {
    r.transactionResponse.value.errors.value
  }

  /** The ladder's success rung: result code OK and transaction messages present. */
  predicate SuccessRung(r: CreateTransactionResponse) {
    ResultOk(r.messages) && HasTransactionMessages(r)
  }

  // ---------------------------------------------------------- classification

  /** The terminal states of a charge whose response was interpreted. */
  datatype ChargeVerdict =
    | Approved(transId: string, description: string)
    | Declined(errorCode: string, errorText: string)
    | UnknownResponse
    | RequestError(code: string, text: string)
    | UnknownError

  /** The first transaction error, read wherever errors outrank everything else. */
  function FirstTransactionError(r: CreateTransactionResponse): Result<ChargeVerdict, Fault>
    requires HasTransactionErrors(r)
  {
    var errors := TransactionErrors(r);
    if |errors| == 0 then Failure(NoTransactionError)
    else Success(Declined(errors[0].errorCode, errors[0].errorText))
  }

  /**
   * The priority ladder over a charge response. Transaction messages under
   * an OK result code mean success; otherwise transaction errors, whatever
   * the result code, mean a decline; otherwise an OK code means an unknown
   * response; otherwise the first top-level message, if any, is the error.
   * A missing messages block, or a present but empty list whose first
   * element is read, is a fault.
   */
  function ClassifyCharge(r: CreateTransactionResponse): (v: Result<ChargeVerdict, Fault>)
    ensures v == Failure(MessagesMissing) <==> r.messages.None?
    ensures v == Failure(NoTransactionMessage) <==> SuccessRung(r) && |TransactionMessages(r)| == 0
    ensures v == Failure(NoTransactionError) <==>
      r.messages.Some? && !SuccessRung(r) && HasTransactionErrors(r) && |TransactionErrors(r)| == 0
    ensures (v.Success? && v.value.Approved?) <==> SuccessRung(r) && |TransactionMessages(r)| > 0
    ensures v.Success? && v.value.Approved? ==>
      v.value == Approved(r.transactionResponse.value.transId, TransactionMessages(r)[0].description)
    ensures (v.Success? && v.value.Declined?) <==>
      r.messages.Some? && !SuccessRung(r) && HasTransactionErrors(r) && |TransactionErrors(r)| > 0
    ensures v.Success? && v.value.Declined? ==>
      v.value == Declined(TransactionErrors(r)[0].errorCode, TransactionErrors(r)[0].errorText)
    ensures v == Success(UnknownResponse) <==>
      ResultOk(r.messages) && !HasTransactionMessages(r) && !HasTransactionErrors(r)
    ensures v == Failure(MessageListMissing) <==>
      r.messages.Some? && !ResultOk(r.messages) && !HasTransactionErrors(r) && !HasMessageList(r.messages)
    ensures (v.Success? && v.value.RequestError?) <==>
      !ResultOk(r.messages) && !HasTransactionErrors(r) && HasMessageList(r.messages) && |MessageList(r.messages)| > 0
    ensures v.Success? && v.value.RequestError? ==>
      v.value == RequestError(MessageList(r.messages)[0].code, MessageList(r.messages)[0].text)
    ensures v == Success(UnknownError) <==>
      !ResultOk(r.messages) && !HasTransactionErrors(r) && HasMessageList(r.messages) && |MessageList(r.messages)| == 0
  {
    match r.messages
    case None => Failure(MessagesMissing)
    case Some(m) =>
      if m.resultCode == RESULT_OK then
        if HasTransactionMessages(r) then
          var messages := TransactionMessages(r);
          if |messages| == 0 then Failure(NoTransactionMessage)
          else Success(Approved(r.transactionResponse.value.transId, messages[0].description))
        else if HasTransactionErrors(r) then
          FirstTransactionError(r)
        else
          Success(UnknownResponse)
      else if HasTransactionErrors(r) then
        FirstTransactionError(r)
      else if m.message.None? then
        Failure(MessageListMissing)
      else if |m.message.value| > 0 then
        Success(RequestError(m.message.value[0].code, m.message.value[0].text))
      else
        Success(UnknownError)
  }

  const SUCCESS_PREFIX: string := "Payment successful. Transaction ID: "
  const FAILED_PREFIX: string := "Payment failed: "
  const REQUEST_ERROR_PREFIX: string := "Payment request error: "
  const UNKNOWN_RESPONSE_TEXT: string := "Payment failed: Unknown response error."
  const UNKNOWN_ERROR_TEXT: string := "Payment failed due to unknown error."

  /** The text the handler reports for each verdict. */
  function ChargeText(v: ChargeVerdict): string {
    match v
    case Approved(transId, description) => SUCCESS_PREFIX + transId + ". " + description
    case Declined(code, text) => FAILED_PREFIX + code + " - " + text
    case UnknownResponse => UNKNOWN_RESPONSE_TEXT
    case RequestError(code, text) => REQUEST_ERROR_PREFIX + code + " - " + text
    case UnknownError => UNKNOWN_ERROR_TEXT
  }

  /** The envelope for a verdict: a single text item, an error unless approved. */
  function RenderCharge(v: ChargeVerdict): (r: ToolResult)
    ensures SingleText(r)
    ensures r.isError <==> !v.Approved?
  {
    Reply(!v.Approved?, ChargeText(v))
  }

  /** What interpreting a charge response comes to. */
  function ChargeOutcome(r: CreateTransactionResponse): Outcome {
    match ClassifyCharge(r)
    case Success(v) => Resolved(RenderCharge(v))
    case Failure(f) => Threw(f)
  }

  // ---------------------------------------------------------------- handler

  /**
   * The handler. `gateway` stands for the SDK controller: given the endpoint
   * and the request, it yields the response the callback reads. It is not
   * consulted when validation rejects the arguments.
   */
  function HandleTakePayment(
    cfg: Config,
    args: PaymentArgs,
    gateway: (string, CreateTransactionRequest) -> CreateTransactionResponse): (o: Outcome)
    ensures ValidatePayment(args).Some? ==> o == Resolved(Reply(true, MISSING_PAYMENT_INFO))
    ensures ValidatePayment(args).None? ==>
      o == ChargeOutcome(gateway(ApiEndpoint(cfg.useSandbox), BuildChargeRequest(cfg, args)))
    ensures o.Resolved? ==> SingleText(o.result)
    ensures o.Resolved? && !o.result.isError ==>
      ValidatePayment(args).None? && SuccessRung(gateway(ApiEndpoint(cfg.useSandbox), BuildChargeRequest(cfg, args)))
  {
    match ValidatePayment(args)
    case Some(rejection) => Resolved(rejection)
    case None =>
      ChargeOutcome(gateway(ApiEndpoint(cfg.useSandbox), BuildChargeRequest(cfg, args)))
  }

  // ---------------------------------------------------------------- ladder

  /** Success: not an error, and the text names the transaction and its first message. */
  lemma ChargeSucceeds(r: CreateTransactionResponse)
    requires SuccessRung(r) && |TransactionMessages(r)| > 0
    ensures var transId := r.transactionResponse.value.transId;
            var description := TransactionMessages(r)[0].description;
            var text := SUCCESS_PREFIX + transId + ". " + description;
            && ChargeOutcome(r) == Resolved(Reply(false, text))
            && Contains(text, transId) && Contains(text, description)
  {
    var transId := r.transactionResponse.value.transId;
    var description := TransactionMessages(r)[0].description;
    ContainsMiddle(SUCCESS_PREFIX, transId, ". " + description);
    assert SUCCESS_PREFIX + transId + (". " + description) == SUCCESS_PREFIX + transId + ". " + description;
    ContainsSuffix(SUCCESS_PREFIX + transId + ". ", description);
  }

  /**
   * Decline: unless the success rung applies, present transaction errors win
   * over every other rung, under any result code; the text carries the
   * first error's code and text.
   */
  lemma ChargeDeclines(r: CreateTransactionResponse)
    requires r.messages.Some? && !SuccessRung(r)
    requires HasTransactionErrors(r) && |TransactionErrors(r)| > 0
    ensures var e := TransactionErrors(r)[0];
            var text := FAILED_PREFIX + e.errorCode + " - " + e.errorText;
            && ChargeOutcome(r) == Resolved(Reply(true, text))
            && Contains(text, e.errorCode) && Contains(text, e.errorText)
  {
    var e := TransactionErrors(r)[0];
    ContainsMiddle(FAILED_PREFIX, e.errorCode, " - " + e.errorText);
    assert FAILED_PREFIX + e.errorCode + (" - " + e.errorText) == FAILED_PREFIX + e.errorCode + " - " + e.errorText;
    ContainsSuffix(FAILED_PREFIX + e.errorCode + " - ", e.errorText);
  }

  /** Result code OK with neither transaction messages nor errors: an unknown response. */
  lemma ChargeOkButUnknown(r: CreateTransactionResponse)
    requires ResultOk(r.messages) && !HasTransactionMessages(r) && !HasTransactionErrors(r)
    ensures ChargeOutcome(r) == Resolved(Reply(true, UNKNOWN_RESPONSE_TEXT))
  {
  }

  /**
   * Result code not OK and no transaction errors: the first top-level
   * message is reported with its code and text, or a generic failure when
   * the list is empty; a missing list throws when its length is read.
   */
  lemma ChargeRequestFails(r: CreateTransactionResponse)
    requires r.messages.Some? && !ResultOk(r.messages) && !HasTransactionErrors(r)
    ensures !HasMessageList(r.messages) ==> ChargeOutcome(r) == Threw(MessageListMissing)
    ensures HasMessageList(r.messages) && |MessageList(r.messages)| > 0 ==>
      var m := MessageList(r.messages)[0];
      var text := REQUEST_ERROR_PREFIX + m.code + " - " + m.text;
      && ChargeOutcome(r) == Resolved(Reply(true, text))
      && Contains(text, m.code) && Contains(text, m.text)
    ensures HasMessageList(r.messages) && |MessageList(r.messages)| == 0 ==>
      ChargeOutcome(r) == Resolved(Reply(true, UNKNOWN_ERROR_TEXT))
  {
    if HasMessageList(r.messages) && |MessageList(r.messages)| > 0 {
      var m := MessageList(r.messages)[0];
      ContainsMiddle(REQUEST_ERROR_PREFIX, m.code, " - " + m.text);
      assert REQUEST_ERROR_PREFIX + m.code + (" - " + m.text) == REQUEST_ERROR_PREFIX + m.code + " - " + m.text;
      ContainsSuffix(REQUEST_ERROR_PREFIX + m.code + " - ", m.text);
    }
  }

  /** A result code other than OK never resolves as a success. */
  lemma ChargeNotOkIsError(r: CreateTransactionResponse)
    requires !ResultOk(r.messages)
    ensures ChargeOutcome(r).Resolved? ==> ChargeOutcome(r).result.isError
  {
  }

  /**
   * The credentials go only into the request: for a given gateway response,
   * the handler's outcome is the same whatever the configuration.
   */
  lemma ChargeIgnoresCredentials(cfg1: Config, cfg2: Config, args: PaymentArgs, r: CreateTransactionResponse)
    ensures HandleTakePayment(cfg1, args, (_, _) => r) == HandleTakePayment(cfg2, args, (_, _) => r)
  {
  }
}
