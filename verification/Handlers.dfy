/**
 * What the two tool handlers share: the process configuration, the choice of
 * endpoint and of payment-page base from the sandbox flag, the result
 * envelope returned to the tool caller, and the ways a handler can fail to
 * produce one.
 */
module Handlers {
  import opened Wrappers
  import opened GatewayContracts

  /**
   * Process-wide configuration: the merchant credentials and the sandbox flag.
   * The source reads them from the environment once, at load time.
   */
  datatype Config = Config(loginId: string, transactionKey: string, useSandbox: bool)

  /** The API endpoint the gateway controller is pointed at. */
  function ApiEndpoint(useSandbox: bool): (endpoint: string)
    ensures endpoint == SANDBOX_ENDPOINT <==> useSandbox
    ensures endpoint == PRODUCTION_ENDPOINT <==> !useSandbox
  {
    if useSandbox then SANDBOX_ENDPOINT else PRODUCTION_ENDPOINT
  }

  const TEST_BASE: string := "https://test.authorize.net"
  const ACCEPT_BASE: string := "https://accept.authorize.net"

  /**
   * The base of the customer-facing hosted payment page. It is chosen from
   * the same flag as the API endpoint, so the two always agree.
   */
  function PaymentPageBase(useSandbox: bool): (base: string)
    ensures base == TEST_BASE <==> ApiEndpoint(useSandbox) == SANDBOX_ENDPOINT
    ensures base == ACCEPT_BASE <==> ApiEndpoint(useSandbox) == PRODUCTION_ENDPOINT
  {
    if useSandbox then TEST_BASE else ACCEPT_BASE
  }

  /** The credentials block attached to every request. */
  function MerchantAuth(cfg: Config): MerchantAuthentication {
    MerchantAuthentication(cfg.loginId, cfg.transactionKey)
  }

  /** JavaScript truthiness of an optional string: present and not empty. */
  predicate Truthy(s: Option<string>) {
    s.Some? && s.value != ""
  }

  /** One content item of the result envelope. */
  datatype TextContent = TextContent(kind: string, text: string)

  /** The envelope a handler resolves with. */
  datatype ToolResult = ToolResult(isError: bool, content: seq<TextContent>)

  /** The envelope every path of both handlers builds: one item, of kind "text". */
  function Reply(isError: bool, text: string): ToolResult {
    ToolResult(isError, [TextContent("text", text)])
  }

  /** `r` has exactly one content item and it is a text item. */
  predicate SingleText(r: ToolResult) {
    |r.content| == 1 && r.content[0].kind == "text"
  }

  /**
   * Why the response callback throws before it resolves: a messages block
   * that is absent; a messages block without a message list, whose length is
   * read; or a transaction message or error container whose list is empty,
   * so that its first element is `undefined`.
   */
  datatype Fault = MessagesMissing | MessageListMissing | NoTransactionMessage | NoTransactionError

  /**
   * What a handler call comes to: the envelope it resolves with, or the
   * fault that makes its response callback throw, after which the handler's
   * promise never settles.
   */
  datatype Outcome = Resolved(result: ToolResult) | Threw(fault: Fault)
}
