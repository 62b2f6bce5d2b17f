/**
 * The invoice handler: validate the amount, build a hosted-payment-page
 * request with fixed presentation settings, submit it, and turn the token in
 * the response into the customer-facing payment URL.
 */
module CreateInvoice {
  import opened Wrappers
  import opened Text
  import opened GatewayContracts
  import opened Handlers

  /** The tool arguments; `None` stands for a missing, `null` or `undefined` value. */
  datatype InvoiceArgs = InvoiceArgs(
    amount: Option<real>,
    invoiceNumber: Option<string>,
    description: Option<string>)

  const AMOUNT_REQUIRED: string := "Amount is required to create an invoice."

  /** The early return of the handler: only an absent amount rejects. */
  function ValidateInvoice(args: InvoiceArgs): (rejection: Option<ToolResult>)
    ensures rejection.Some? <==> args.amount.None?
    ensures rejection.Some? ==> rejection.value == Reply(true, AMOUNT_REQUIRED)
  {
    if args.amount.None? then Some(Reply(true, AMOUNT_REQUIRED)) else None
  }

  /** The three hosted-page settings, attached to every request in this order. */
  const BUTTON_OPTIONS: Setting := Setting("hostedPaymentButtonOptions", "{\"text\": \"Pay Now\"}")
  const ORDER_OPTIONS: Setting := Setting("hostedPaymentOrderOptions", "{\"show\": true}")
  const RETURN_OPTIONS: Setting := Setting(
    "hostedPaymentReturnOptions",
    "{\"url\": \"https://example.com/thankyou\", \"cancelUrl\": \"https://example.com/cancel\", \"showReceipt\": true}")

  /** An optional field keeps its value only when it is truthy. */
  function KeepTruthy(s: Option<string>): Option<string> {
    if Truthy(s) then s else None
  }

  /** What of the arguments an invoice request carries. */
  function InvoicedArgs(req: HostedPaymentPageRequest): InvoiceArgs {
    var t := req.transactionRequest;
    match t.order
    case Some(order) => InvoiceArgs(Some(t.amount), order.invoiceNumber, order.description)
    case None => InvoiceArgs(Some(t.amount), None, None)
  }

  /**
   * The hosted-payment-page request for arguments with an amount: the
   * credentials; an authorize-and-capture transaction for the amount with no
   * payment data; an order exactly when the invoice number or description is
   * truthy, holding just the truthy ones; and the three fixed settings.
   */
  function BuildInvoiceRequest(cfg: Config, args: InvoiceArgs): (req: HostedPaymentPageRequest)
    requires ValidateInvoice(args).None?
    ensures req.merchantAuthentication == MerchantAuthentication(cfg.loginId, cfg.transactionKey)
    ensures req.transactionRequest.transactionType == AuthCaptureTransaction
    ensures req.transactionRequest.payment.None?
    ensures req.transactionRequest.order.Some? <==> Truthy(args.invoiceNumber) || Truthy(args.description)
    ensures InvoicedArgs(req) == InvoiceArgs(args.amount, KeepTruthy(args.invoiceNumber), KeepTruthy(args.description))
    ensures req.hostedPaymentSettings == [BUTTON_OPTIONS, ORDER_OPTIONS, RETURN_OPTIONS]
  {
    var order :=
      if Truthy(args.invoiceNumber) || Truthy(args.description) then
        Some(Order(KeepTruthy(args.invoiceNumber), KeepTruthy(args.description)))
      else
        None;
    HostedPaymentPageRequest(
      MerchantAuth(cfg),
      TransactionRequest(AuthCaptureTransaction, None, args.amount.value, order),
      [BUTTON_OPTIONS, ORDER_OPTIONS, RETURN_OPTIONS])
  }

  // ------------------------------------------------------------ payment URL

  const PAYMENT_PATH: string := "/payment/payment?token="

  /** The customer-facing payment page for a token. */
  function InvoiceUrl(useSandbox: bool, token: string): string {
    PaymentPageBase(useSandbox) + PAYMENT_PATH + token
  }

  /** Reads a payment-page URL back: which environment's base it uses, and the token. */
  function ParseInvoiceUrl(url: string): Option<(bool, string)> {
    var sandboxPrefix := TEST_BASE + PAYMENT_PATH;
    var productionPrefix := ACCEPT_BASE + PAYMENT_PATH;
    if sandboxPrefix <= url then Some((true, url[|sandboxPrefix|..]))
    else if productionPrefix <= url then Some((false, url[|productionPrefix|..]))
    else None
  }

  /** The payment URL determines both the environment and the token. */
  lemma InvoiceUrlRoundTrip(useSandbox: bool, token: string)
    ensures ParseInvoiceUrl(InvoiceUrl(useSandbox, token)) == Some((useSandbox, token))
  {
    var url := InvoiceUrl(useSandbox, token);
    if !useSandbox {
      // the two bases part at their ninth character, 't' against 'a'
      assert url[8] == 'a' && (TEST_BASE + PAYMENT_PATH)[8] == 't';
    }
  }

  // ---------------------------------------------------------- classification

  /** The terminal states of an invoice whose response was interpreted. */
  datatype InvoiceVerdict =
    | Created(token: string)
    | NoToken
    | CreationError(code: string, text: string)
    | CreationFailed

  /**
   * The ladder over a hosted-page response: an OK result code with a truthy
   * token creates the invoice, an OK code without one does not, and any
   * other code reports the first top-level message if there is one. A
   * missing messages block is a fault.
   */
  function ClassifyInvoice(r: HostedPaymentPageResponse): (v: Result<InvoiceVerdict, Fault>)
    ensures v == Failure(MessagesMissing) <==> r.messages.None?
    ensures v == Failure(MessageListMissing) <==>
      r.messages.Some? && !ResultOk(r.messages) && !HasMessageList(r.messages)
    ensures (v.Success? && v.value.Created?) <==> ResultOk(r.messages) && Truthy(r.token)
    ensures v.Success? && v.value.Created? ==> v.value.token == r.token.value
    ensures v == Success(NoToken) <==> ResultOk(r.messages) && !Truthy(r.token)
    ensures (v.Success? && v.value.CreationError?) <==>
      !ResultOk(r.messages) && HasMessageList(r.messages) && |MessageList(r.messages)| > 0
    ensures v.Success? && v.value.CreationError? ==>
      v.value == CreationError(MessageList(r.messages)[0].code, MessageList(r.messages)[0].text)
    ensures v == Success(CreationFailed) <==>
      !ResultOk(r.messages) && HasMessageList(r.messages) && |MessageList(r.messages)| == 0
  {
    match r.messages
    case None => Failure(MessagesMissing)
    case Some(m) =>
      if m.resultCode == RESULT_OK then
        if Truthy(r.token) then Success(Created(r.token.value)) else Success(NoToken)
      else if m.message.None? then
        Failure(MessageListMissing)
      else if |m.message.value| > 0 then
        Success(CreationError(m.message.value[0].code, m.message.value[0].text))
      else
        Success(CreationFailed)
  }

  const CREATED_PREFIX: string := "Invoice created. Pay at: "
  const NO_TOKEN_TEXT: string := "No token returned; invoice URL generation failed."
  const CREATION_ERROR_PREFIX: string := "Invoice creation error: "
  const CREATION_FAILED_TEXT: string := "Invoice creation failed due to unknown error."

  /** The text the handler reports for each verdict. */
  function InvoiceText(useSandbox: bool, v: InvoiceVerdict): string {
    match v
    case Created(token) => CREATED_PREFIX + InvoiceUrl(useSandbox, token)
    case NoToken => NO_TOKEN_TEXT
    case CreationError(code, text) => CREATION_ERROR_PREFIX + code + " - " + text
    case CreationFailed => CREATION_FAILED_TEXT
  }

  /** The envelope for a verdict: a single text item, an error unless created. */
  function RenderInvoice(useSandbox: bool, v: InvoiceVerdict): (r: ToolResult)
    ensures SingleText(r)
    ensures r.isError <==> !v.Created?
  {
    Reply(!v.Created?, InvoiceText(useSandbox, v))
  }

  /** What interpreting a hosted-page response comes to. */
  function InvoiceOutcome(useSandbox: bool, r: HostedPaymentPageResponse): Outcome {
    match ClassifyInvoice(r)
    case Success(v) => Resolved(RenderInvoice(useSandbox, v))
    case Failure(f) => Threw(f)
  }

  // ---------------------------------------------------------------- handler

  /**
   * The handler. `gateway` stands for the SDK controller: given the endpoint
   * and the request, it yields the response the callback reads. It is not
   * consulted when validation rejects the arguments. The endpoint and the
   * payment-page base both come from `cfg.useSandbox`.
   */
  function HandleCreateInvoice(
    cfg: Config,
    args: InvoiceArgs,
    gateway: (string, HostedPaymentPageRequest) -> HostedPaymentPageResponse): (o: Outcome)
    ensures ValidateInvoice(args).Some? ==> o == Resolved(Reply(true, AMOUNT_REQUIRED))
    ensures ValidateInvoice(args).None? ==>
      o == InvoiceOutcome(cfg.useSandbox, gateway(ApiEndpoint(cfg.useSandbox), BuildInvoiceRequest(cfg, args)))
    ensures o.Resolved? ==> SingleText(o.result)
  {
    match ValidateInvoice(args)
    case Some(rejection) => Resolved(rejection)
    case None =>
      InvoiceOutcome(cfg.useSandbox, gateway(ApiEndpoint(cfg.useSandbox), BuildInvoiceRequest(cfg, args)))
  }

  // ---------------------------------------------------------------- ladder

  /**
   * Created: not an error, and the text holds the payment URL, whose base
   * is the test one exactly when the endpoint is the sandbox one.
   */
  lemma InvoiceCreated(useSandbox: bool, r: HostedPaymentPageResponse)
    requires ResultOk(r.messages) && Truthy(r.token)
    ensures var url := InvoiceUrl(useSandbox, r.token.value);
            && InvoiceOutcome(useSandbox, r) == Resolved(Reply(false, CREATED_PREFIX + url))
            && url == PaymentPageBase(useSandbox) + "/payment/payment?token=" + r.token.value
            && Contains(CREATED_PREFIX + url, url)
            && (PaymentPageBase(useSandbox) == TEST_BASE <==> ApiEndpoint(useSandbox) == SANDBOX_ENDPOINT)
  {
    ContainsSuffix(CREATED_PREFIX, InvoiceUrl(useSandbox, r.token.value));
  }

  /** Result code OK without a truthy token: the URL cannot be built. */
  lemma InvoiceWithoutToken(useSandbox: bool, r: HostedPaymentPageResponse)
    requires ResultOk(r.messages) && !Truthy(r.token)
    ensures InvoiceOutcome(useSandbox, r) == Resolved(Reply(true, NO_TOKEN_TEXT))
  {
  }

  /**
   * Result code not OK: an error reporting the first top-level message's
   * code and text, or a generic failure when the list is empty; a missing
   * list throws when its length is read.
   */
  lemma InvoiceRejected(useSandbox: bool, r: HostedPaymentPageResponse)
    requires r.messages.Some? && !ResultOk(r.messages)
    ensures InvoiceOutcome(useSandbox, r).Resolved? <==> HasMessageList(r.messages)
    ensures InvoiceOutcome(useSandbox, r).Resolved? ==> InvoiceOutcome(useSandbox, r).result.isError
    ensures !HasMessageList(r.messages) ==> InvoiceOutcome(useSandbox, r) == Threw(MessageListMissing)
    ensures HasMessageList(r.messages) && |MessageList(r.messages)| > 0 ==>
      var m := MessageList(r.messages)[0];
      var text := CREATION_ERROR_PREFIX + m.code + " - " + m.text;
      && InvoiceOutcome(useSandbox, r) == Resolved(Reply(true, text))
      && Contains(text, m.code) && Contains(text, m.text)
    ensures HasMessageList(r.messages) && |MessageList(r.messages)| == 0 ==>
      InvoiceOutcome(useSandbox, r) == Resolved(Reply(true, CREATION_FAILED_TEXT))
  {
    if HasMessageList(r.messages) && |MessageList(r.messages)| > 0 {
      var m := MessageList(r.messages)[0];
      ContainsMiddle(CREATION_ERROR_PREFIX, m.code, " - " + m.text);
      assert CREATION_ERROR_PREFIX + m.code + (" - " + m.text) == CREATION_ERROR_PREFIX + m.code + " - " + m.text;
      ContainsSuffix(CREATION_ERROR_PREFIX + m.code + " - ", m.text);
    }
  }

  /**
   * End to end: when the submitted request yields a token, the handler
   * resolves with a URL that reads back as that token on the payment page of
   * the environment whose API endpoint the request was submitted to.
   */
  lemma InvoicePageMatchesEndpoint(
    cfg: Config,
    args: InvoiceArgs,
    gateway: (string, HostedPaymentPageRequest) -> HostedPaymentPageResponse)
    requires ValidateInvoice(args).None?
    requires var r := gateway(ApiEndpoint(cfg.useSandbox), BuildInvoiceRequest(cfg, args));
             ResultOk(r.messages) && Truthy(r.token)
    ensures var r := gateway(ApiEndpoint(cfg.useSandbox), BuildInvoiceRequest(cfg, args));
            var o := HandleCreateInvoice(cfg, args, gateway);
            && o.Resolved? && !o.result.isError
            && o.result.content[0].text == CREATED_PREFIX + InvoiceUrl(cfg.useSandbox, r.token.value)
            && ParseInvoiceUrl(InvoiceUrl(cfg.useSandbox, r.token.value)) == Some((cfg.useSandbox, r.token.value))
  {
    var r := gateway(ApiEndpoint(cfg.useSandbox), BuildInvoiceRequest(cfg, args));
    InvoiceCreated(cfg.useSandbox, r);
    InvoiceUrlRoundTrip(cfg.useSandbox, r.token.value);
  }

  /**
   * The credentials go only into the request: for a given gateway response,
   * the handler's outcome is the same whatever the login id and key.
   */
  lemma InvoiceIgnoresCredentials(cfg1: Config, cfg2: Config, args: InvoiceArgs, r: HostedPaymentPageResponse)
    requires cfg1.useSandbox == cfg2.useSandbox
    ensures HandleCreateInvoice(cfg1, args, (_, _) => r) == HandleCreateInvoice(cfg2, args, (_, _) => r)
  {
  }
}
