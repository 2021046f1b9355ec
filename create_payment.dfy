/**
 * The stand-alone payment creator: for an order id, an amount and a
 * currency it asks the payment gateway for a payment form and returns the
 * gateway's order id and redirect URL. It creates nothing in the store and
 * so has nothing to compensate.
 */
module CreatePayment {
  import opened Optional
  import opened Js
  import opened Http

  const MissingFields := "Missing required fields: orderId, amount, currency"

  /** The members of the request body the handler reads. */
  datatype PaymentInput = PaymentInput(orderId: JsValue, amount: JsValue, currency: JsValue,
                                       originalCurrency: JsValue, convertCurrency: JsValue, paymentMethod: JsValue)

  /** `body` is `None` when the request carries no parsed body. */
  datatype PaymentRequest = PaymentRequest(httpMethod: string, body: Option<PaymentInput>)

  /** `!orderId || !amount || !currency` is false. */
  predicate HasRequiredFields(p: PaymentInput) {
    Truthy(p.orderId) && Truthy(p.amount) && Truthy(p.currency)
  }

  /**
   * The request body, built as the handler builds it: three members always,
   * then each optional member added only when its input is truthy. The
   * amount and the conversion flag are sent as strings; the callback URL
   * carries the secret and no draft parameter.
   */
  method BuildForm(p: PaymentInput, cfg: Config) returns (form: PaymentForm)
    ensures {"amount", "currency", "webhook_url"} <= form.Keys
    ensures form.Keys <= {"amount", "currency", "webhook_url", "payment_method", "originalCurrency", "convertCurrency"}
    ensures form["amount"] == Str(ToStr(p.amount))
    ensures form["currency"] == p.currency
    ensures form["webhook_url"] == Str(WebhookEndpoint(cfg))
    ensures ("payment_method" in form <==> Truthy(p.paymentMethod))
            && ("payment_method" in form ==> form["payment_method"] == p.paymentMethod)
    ensures ("originalCurrency" in form <==> Truthy(p.originalCurrency))
            && ("originalCurrency" in form ==> form["originalCurrency"] == p.originalCurrency)
    ensures ("convertCurrency" in form <==> Truthy(p.convertCurrency))
            && ("convertCurrency" in form ==> form["convertCurrency"] == Str(ToStr(p.convertCurrency)))
  {
    form := map["amount" := Str(ToStr(p.amount)),
                "currency" := p.currency,
                "webhook_url" := Str(WebhookEndpoint(cfg))];
    if Truthy(p.paymentMethod) {
      form := form["payment_method" := p.paymentMethod];
    }
    if Truthy(p.originalCurrency) {
      form := form["originalCurrency" := p.originalCurrency];
    }
    if Truthy(p.convertCurrency) {
      form := form["convertCurrency" := Str(ToStr(p.convertCurrency))];
    }
  }

  /**
   * The handler. OPTIONS gets an empty 200 and other non-POST methods 405;
   * a missing required field gets 400 without a gateway call; otherwise
   * exactly one gateway call is made, a refusal gives 502 with the
   * gateway's text, and an acceptance echoes the caller's order id.
   */
  method Handle(req: PaymentRequest, cfg: Config, gateway: GatewayReply) returns (out: Outcome)
    ensures req.httpMethod == "OPTIONS" ==> out == Outcome(Response(200, Empty), [])
    ensures req.httpMethod != "OPTIONS" && req.httpMethod != "POST" ==>
              out == Outcome(Response(405, Error(MethodNotAllowed)), [])
    ensures req.httpMethod == "POST" && req.body.None? ==> out == Outcome(Response(500, Error(InternalError)), [])
    ensures req.httpMethod == "POST" && req.body.Some? && !HasRequiredFields(req.body.value) ==>
              out == Outcome(Response(400, Error(MissingFields)), [])
    ensures out.trace != [] <==> req.httpMethod == "POST" && req.body.Some? && HasRequiredFields(req.body.value)
    ensures out.trace != [] ==>
              var p := req.body.value;
              && |out.trace| == 1 && out.trace[0].CreatePayment?
              && {"amount", "currency", "webhook_url"} <= out.trace[0].form.Keys
              && out.trace[0].form["amount"] == Str(ToStr(p.amount))
              && out.trace[0].form["currency"] == p.currency
              && out.trace[0].form["webhook_url"] == Str(WebhookEndpoint(cfg))
              && out.trace[0].form.Keys <= {"amount", "currency", "webhook_url", "payment_method",
                                            "originalCurrency", "convertCurrency"}
              && ("payment_method" in out.trace[0].form <==> Truthy(p.paymentMethod))
              && ("payment_method" in out.trace[0].form ==> out.trace[0].form["payment_method"] == p.paymentMethod)
              && ("originalCurrency" in out.trace[0].form <==> Truthy(p.originalCurrency))
              && ("originalCurrency" in out.trace[0].form ==> out.trace[0].form["originalCurrency"] == p.originalCurrency)
              && ("convertCurrency" in out.trace[0].form <==> Truthy(p.convertCurrency))
              && ("convertCurrency" in out.trace[0].form ==>
                    out.trace[0].form["convertCurrency"] == Str(ToStr(p.convertCurrency)))
              && (!IsOk(gateway.status) ==> out.response == Response(502, GatewayError(GatewayFailure, gateway.text)))
              && (IsOk(gateway.status) && gateway.session.None? ==> out.response == Response(500, Error(InternalError)))
              && (IsOk(gateway.status) && gateway.session.Some? ==>
                    out.response == Response(200, PaymentCreated(gateway.session.value.orderId,
                                                                 gateway.session.value.redirectUrl, p.orderId)))
  {
    if req.httpMethod == "OPTIONS" {
      return Outcome(Response(200, Empty), []);
    }
    if req.httpMethod != "POST" {
      return Outcome(Response(405, Error(MethodNotAllowed)), []);
    }
    if req.body.None? {
      return Outcome(Response(500, Error(InternalError)), []);
    }
    var p := req.body.value;
    if !HasRequiredFields(p) {
      return Outcome(Response(400, Error(MissingFields)), []);
    }
    var form := BuildForm(p, cfg);
    var trace := [CreatePayment(form)];
    if !IsOk(gateway.status) {
      return Outcome(Response(502, GatewayError(GatewayFailure, gateway.text)), trace);
    }
    match gateway.session {
      case None =>
        out := Outcome(Response(500, Error(InternalError)), trace);
      case Some(session) =>
        out := Outcome(Response(200, PaymentCreated(session.orderId, session.redirectUrl, p.orderId)), trace);
    }
  }
}
