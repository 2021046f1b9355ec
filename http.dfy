/**
 * What the three serverless handlers exchange with the outside world: the
 * configuration they read from the environment, the responses they send,
 * and the outbound calls they make, recorded as effects in a trace.
 */
module Http {
  import opened Optional
  import opened Js

  /** `response.ok`: a status in the 2xx range. */
  predicate IsOk(status: int) {
    200 <= status <= 299
  }

  /** The environment variables that reach a response or a request body (unset ones are `Undefined`). */
  datatype Config = Config(baseUrl: JsValue, webhookSecret: JsValue)

  const MethodNotAllowed := "Method not allowed"
  const InternalError := "Internal server error"
  const GatewayFailure := "Payment gateway error"

  /** The JSON a handler answers with (`Empty` for `res.end()`). */
  datatype Body =
    | Empty
    | Error(message: string)
    | GatewayError(message: string, details: string)
    | CheckoutCreated(draftOrderId: JsValue, aviagramOrderId: JsValue, redirectUrl: JsValue,
                      totalPrice: JsValue, currency: JsValue)
    | Received(processingError: Option<string>)
    | PaymentCreated(aviagramOrderId: JsValue, redirectUrl: JsValue, shopifyOrderId: JsValue)

  datatype Response = Response(status: int, body: Body)

  // Request payloads sent upstream

  datatype LineItem = LineItem(variantId: JsValue, quantity: JsValue)

  datatype Address = Address(firstName: JsValue, lastName: JsValue, address1: JsValue, address2: JsValue,
                             city: JsValue, province: JsValue, country: JsValue, zip: JsValue, phone: JsValue)

  datatype ShippingLine = ShippingLine(title: string, price: string, custom: bool)

  /** The `draft_order` object posted to the store's draft_orders.json. */
  datatype DraftOrderRequest = DraftOrderRequest(
    lineItems: seq<LineItem>, email: JsValue, shippingAddress: Address, billingAddress: Address,
    shippingLine: ShippingLine, note: string, tags: string)

  /** The JSON object posted to the gateway's createForm endpoint, key by key. */
  type PaymentForm = map<string, JsValue>

  /** The `transaction` object posted to an order's transactions.json. */
  datatype Transaction = Transaction(kind: string, status: string, amount: JsValue, currency: string, gateway: string)

  /** Where a draft order still being calculated is polled: its own URL, or a `Location` header. */
  datatype PollTarget = ById(id: JsValue) | AtLocation(url: string)

  /** One outbound HTTP call. */
  datatype Effect =
    | RequestToken                                       // POST /admin/oauth/access_token
    | CreateDraft(order: DraftOrderRequest)              // POST draft_orders.json
    | PollDraft(target: PollTarget)                      // GET the draft order or the Location URL
    | CreatePayment(form: PaymentForm)                   // POST the gateway's createForm
    | DeleteDraft(draftId: JsValue)                      // DELETE draft_orders/<id>.json
    | TagDraft(draftId: JsValue, note: string, tags: string) // PUT draft_orders/<id>.json
    | ListOrders                                         // GET orders.json?status=any&limit=50
    | PostTransaction(orderId: JsValue, transaction: Transaction) // POST orders/<id>/transactions.json

  /** What one invocation of a handler does: its response and its outbound calls, in order. */
  datatype Outcome = Outcome(response: Response, trace: seq<Effect>)

  /** A created payment session as the gateway's JSON reply describes it. */
  datatype PaymentSession = PaymentSession(orderId: JsValue, redirectUrl: JsValue)

  /** The gateway's reply: status, body text, and the body as JSON (`None` when it does not parse). */
  datatype GatewayReply = GatewayReply(status: int, text: string, session: Option<PaymentSession>)

  /** The callback URL registered with the gateway, before any per-order parameter. */
  function WebhookEndpoint(cfg: Config): string {
    ToStr(cfg.baseUrl) + "/api/webhook?secret=" + ToStr(cfg.webhookSecret)
  }
}
