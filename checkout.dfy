/**
 * The checkout handler: it validates the cart and customer, creates a draft
 * order in the store, waits out the store's asynchronous price calculation,
 * asks the payment gateway for a payment form, and either deletes the draft
 * again (gateway failure) or tags it with the gateway's order id.
 */
module Checkout {
  import opened Optional
  import opened Js
  import opened Http
  import opened ShopifyToken

  /** How many times a draft order that is still being calculated is polled. */
  const PollAttempts := 10

  const EmptyCart := "Cart is empty"
  const MissingEmail := "Email is required"
  const MissingName := "First and last name are required"
  const MissingAddress := "Address, city, and country are required"
  const DraftTimedOut := "Draft order creation timed out"
  const DraftUnlocatable := "Draft order returned 202 with no ID or location"
  const DefaultRejection := "Failed to create order. Please try again."

  const PendingNote := "Awaiting Aviagram payment"
  const PendingTag := "aviagram-pending"

  // ---------------------------------------------------------------------
  // The request

  /** A cart entry; `extra` stands for every other property the client sends. */
  datatype CartItem = CartItem(variantId: JsValue, quantity: JsValue, extra: map<string, JsValue>)

  datatype Customer = Customer(email: JsValue)

  datatype AddressInput = AddressInput(firstName: JsValue, lastName: JsValue, address1: JsValue, address2: JsValue,
                                       city: JsValue, province: JsValue, country: JsValue, zip: JsValue, phone: JsValue)

  /** The parsed JSON body; an absent object or array is `None`. */
  datatype CheckoutBody = CheckoutBody(items: Option<seq<CartItem>>, customer: Option<Customer>,
                                       shippingAddress: Option<AddressInput>)

  /** `body` is `None` when the request carries no parsed body. */
  datatype CheckoutRequest = CheckoutRequest(httpMethod: string, body: Option<CheckoutBody>)

  // ---------------------------------------------------------------------
  // What the store answers

  /** The fields of a `draft_order` object the handler reads. */
  datatype DraftOrder = DraftOrder(id: JsValue, status: JsValue, totalPrice: JsValue, currency: JsValue)

  /** The messages given for one field of a rejected draft: an array or a single value. */
  datatype FieldMessages = MessageList(items: seq<JsValue>) | Message(value: JsValue)

  /**
   * The `errors` member of a rejection: a scalar (absent is `Scalar(Undefined)`)
   * or an object, as its `Object.entries`.
   */
  datatype Errors = Scalar(value: JsValue) | Fields(entries: seq<(string, FieldMessages)>)

  /** A store reply body: not JSON at all, or the members the handler reads. */
  datatype Payload = Malformed | Json(draftOrder: Option<DraftOrder>, errors: Errors)

  /** The reply to the draft creation; `location` is the Location header ("" when absent). */
  datatype DraftReply = DraftReply(status: int, body: Payload, location: string)

  datatype PollReply = PollReply(status: int, body: Payload)

  /** Every upstream answer one checkout may consume, in the order it would ask. */
  datatype Replies = Replies(token: TokenReply, draft: DraftReply, polls: seq<PollReply>, gateway: GatewayReply)

  // ---------------------------------------------------------------------
  // Validation

  predicate HasItems(b: CheckoutBody) {
    b.items.Some? && |b.items.value| > 0
  }

  predicate HasEmail(b: CheckoutBody) {
    b.customer.Some? && Truthy(b.customer.value.email)
  }

  predicate HasName(b: CheckoutBody) {
    b.shippingAddress.Some? && Truthy(b.shippingAddress.value.firstName) && Truthy(b.shippingAddress.value.lastName)
  }

  predicate HasAddress(b: CheckoutBody) {
    b.shippingAddress.Some? && Truthy(b.shippingAddress.value.address1)
    && Truthy(b.shippingAddress.value.city) && Truthy(b.shippingAddress.value.country)
  }

  /**
   * The checks run in a fixed order (cart, email, name, address) and the
   * first that fails decides the message.
   */
  function ValidationError(b: CheckoutBody): (r: Option<string>)
    ensures r.None? <==> HasItems(b) && HasEmail(b) && HasName(b) && HasAddress(b)
    ensures r == Some(EmptyCart) <==> !HasItems(b)
    ensures r == Some(MissingEmail) <==> HasItems(b) && !HasEmail(b)
    ensures r == Some(MissingName) <==> HasItems(b) && HasEmail(b) && !HasName(b)
    ensures r == Some(MissingAddress) <==> HasItems(b) && HasEmail(b) && HasName(b) && !HasAddress(b)
  {
    if !HasItems(b) then Some(EmptyCart)
    else if !HasEmail(b) then Some(MissingEmail)
    else if !HasName(b) then Some(MissingName)
    else if !HasAddress(b) then Some(MissingAddress)
    else None
  }

  // ---------------------------------------------------------------------
  // The draft order request

  /** `x || ""` for an optional address field. */
  function OrEmpty(v: JsValue): JsValue {
    Or(v, Str(""))
  }

  function CopyAddress(a: AddressInput): Address {
    Address(a.firstName, a.lastName, a.address1, OrEmpty(a.address2), a.city,
            OrEmpty(a.province), a.country, OrEmpty(a.zip), OrEmpty(a.phone))
  }

  function LineItems(items: seq<CartItem>): seq<LineItem> {
    seq(|items|, i requires 0 <= i < |items| => LineItem(items[i].variantId, items[i].quantity))
  }

  /**
   * The draft order built from a validated body: one line item per cart
   * entry, in cart order, carrying only the variant and the quantity; the
   * billing address is the shipping address; optional address fields
   * default to ""; free shipping and the "awaiting payment" marker.
   */
  function DraftRequest(b: CheckoutBody): (r: DraftOrderRequest)
    requires ValidationError(b).None?
    ensures |r.lineItems| == |b.items.value|
    ensures forall i :: 0 <= i < |r.lineItems| ==>
              r.lineItems[i] == LineItem(b.items.value[i].variantId, b.items.value[i].quantity)
    ensures r.email == b.customer.value.email && Truthy(r.email)
    ensures r.billingAddress == r.shippingAddress
    ensures var a, s := b.shippingAddress.value, r.shippingAddress;
            && s.firstName == a.firstName && s.lastName == a.lastName && s.address1 == a.address1
            && s.city == a.city && s.country == a.country
            && Truthy(s.firstName) && Truthy(s.lastName) && Truthy(s.address1) && Truthy(s.city) && Truthy(s.country)
    ensures var a, s := b.shippingAddress.value, r.shippingAddress;
            && s.address2 == (if Truthy(a.address2) then a.address2 else Str(""))
            && s.province == (if Truthy(a.province) then a.province else Str(""))
            && s.zip == (if Truthy(a.zip) then a.zip else Str(""))
            && s.phone == (if Truthy(a.phone) then a.phone else Str(""))
    ensures r.shippingLine == ShippingLine("Standard Shipping", "0.00", true)
    ensures r.note == PendingNote && r.tags == PendingTag
  {
    var address := CopyAddress(b.shippingAddress.value);
    DraftOrderRequest(LineItems(b.items.value), b.customer.value.email, address, address,
                      ShippingLine("Standard Shipping", "0.00", true), PendingNote, PendingTag)
  }

  // ---------------------------------------------------------------------
  // The message for a rejected draft

  /** `Array.prototype.join`. */
  function Join(parts: seq<string>, sep: string): string
    decreases |parts|
  {
    if |parts| == 0 then ""
    else if |parts| == 1 then parts[0]
    else parts[0] + sep + Join(parts[1..], sep)
  }

  /** How `join` writes one array element: null and undefined as "". */
  function JoinElement(v: JsValue): string {
    if v.Undefined? || v.Null? then "" else ToStr(v)
  }

  function MessagesText(m: FieldMessages): string {
    match m
    case MessageList(items) => Join(seq(|items|, i requires 0 <= i < |items| => JoinElement(items[i])), ", ")
    case Message(v) => ToStr(v)
  }

  /** One field's entry: "field: m1, m2". */
  function FieldText(e: (string, FieldMessages)): string {
    e.0 + ": " + MessagesText(e.1)
  }

  function FieldTexts(entries: seq<(string, FieldMessages)>): seq<string> {
    seq(|entries|, i requires 0 <= i < |entries| => FieldText(entries[i]))
  }

  /**
   * The 422 message: the default when the body is not JSON or its `errors`
   * is falsy, a string `errors` verbatim, and otherwise the field entries
   * joined by ". " (a truthy non-string scalar has no entries).
   */
  function RejectionMessage(p: Payload): (m: string)
    ensures p.Malformed? ==> m == DefaultRejection
    ensures p.Json? && p.errors.Scalar? && !Truthy(p.errors.value) ==> m == DefaultRejection
    ensures p.Json? && p.errors.Scalar? && p.errors.value.Str? && Truthy(p.errors.value) ==> m == p.errors.value.s
    ensures p.Json? && p.errors.Scalar? && !p.errors.value.Str? && Truthy(p.errors.value) ==> m == ""
    ensures p.Json? && p.errors.Fields? ==> m == Join(FieldTexts(p.errors.entries), ". ")
  {
    match p
    case Malformed => DefaultRejection
    case Json(_, errors) =>
      match errors
      case Scalar(v) => if !Truthy(v) then DefaultRejection else if v.Str? then v.s else ""
      case Fields(entries) => Join(FieldTexts(entries), ". ")
  }

  /** Every part of a join appears in it. */
  lemma {:induction false} JoinIncludesPart(parts: seq<string>, sep: string, k: nat)
    requires k < |parts|
    ensures Includes(Join(parts, sep), parts[k])
    decreases |parts|
  {
    if |parts| == 1 {
      assert Join(parts, sep) == parts[0] + "";
      IncludesPrefix(parts[0], "");
    } else if k == 0 {
      assert Join(parts, sep) == parts[0] + (sep + Join(parts[1..], sep));
      IncludesPrefix(parts[0], sep + Join(parts[1..], sep));
    } else {
      JoinIncludesPart(parts[1..], sep, k - 1);
      IncludesSuffix(parts[0] + sep, Join(parts[1..], sep));
      IncludesTransitive(Join(parts, sep), Join(parts[1..], sep), parts[k]);
    }
  }

  /** No field the store complained about is dropped from the 422 message: each "field: messages" entry is in it. */
  lemma EveryFieldErrorIsReported(d: Option<DraftOrder>, entries: seq<(string, FieldMessages)>, k: nat)
    requires k < |entries|
    ensures Includes(RejectionMessage(Json(d, Fields(entries))), entries[k].0 + ": " + MessagesText(entries[k].1))
  {
    JoinIncludesPart(FieldTexts(entries), ". ", k);
  }

  /** The store's usual shape, `{email: ["contains an invalid domain name"]}`, gives "email: contains an invalid domain name". */
  lemma SingleFieldRejection(d: Option<DraftOrder>, field: string, msgs: seq<string>)
    requires |msgs| == 1
    ensures RejectionMessage(Json(d, Fields([(field, MessageList([Str(msgs[0])]))]))) == field + ": " + msgs[0]
  {
  }

  // ---------------------------------------------------------------------
  // Waiting for the draft order

  /** The draft order in a body reports status "calculating". */
  predicate StillCalculating(p: Payload) {
    p.Json? && p.draftOrder.Some? && StrictEquals(p.draftOrder.value.status, Str("calculating"))
  }

  /**
   * A poll reply that ends the wait: a 200 whose draft is no longer
   * calculating when polling by id, any 200 when polling a Location URL.
   * A 200 body that is not JSON ends it too: reading it throws.
   */
  predicate EndsPolling(target: PollTarget, p: PollReply) {
    p.status == 200 && (target.AtLocation? || p.body.Malformed? || !StillCalculating(p.body))
  }

  /**
   * The index of the first reply from `from` on that ends the wait, or
   * `|polls|` when none does.
   */
  function FirstEnd(target: PollTarget, polls: seq<PollReply>, from: nat): (k: nat)
    requires from <= |polls|
    ensures from <= k <= |polls|
    ensures k < |polls| ==> EndsPolling(target, polls[k])
    ensures forall j :: from <= j < k ==> !EndsPolling(target, polls[j])
    decreases |polls| - from
  {
    if from == |polls| || EndsPolling(target, polls[from]) then from else FirstEnd(target, polls, from + 1)
  }

  /** `n` requests for the same draft order. */
  function PollTrace(target: PollTarget, n: nat): seq<Effect> {
    seq(n, _ => PollDraft(target))
  }

  /**
   * The bounded polling loop. It polls at most `PollAttempts` times, stops
   * at the first reply that ends the wait and returns its body, and returns
   * `None` (a timeout) only after `PollAttempts` replies none of which ended it.
   * The two-second pause before each poll is not modelled.
   */
  method Poll(target: PollTarget, polls: seq<PollReply>) returns (settled: Option<Payload>, trace: seq<Effect>)
    requires |polls| == PollAttempts
    ensures 1 <= |trace| <= PollAttempts
    ensures forall e :: e in trace ==> e == PollDraft(target)
    ensures forall j :: 0 <= j < |trace| - 1 ==> !EndsPolling(target, polls[j])
    ensures settled.Some? <==> EndsPolling(target, polls[|trace| - 1])
    ensures settled.Some? ==> settled.value == polls[|trace| - 1].body
    ensures settled.None? ==> |trace| == PollAttempts
    ensures var k := FirstEnd(target, polls, 0);
            && (k < PollAttempts ==> settled == Some(polls[k].body) && trace == PollTrace(target, k + 1))
            && (k == PollAttempts ==> settled == None && trace == PollTrace(target, PollAttempts))
  {
    settled := None;
    trace := [];
    var i := 0;
    while i < PollAttempts
      invariant 0 <= i <= PollAttempts
      invariant trace == PollTrace(target, i)
      invariant forall j :: 0 <= j < i ==> !EndsPolling(target, polls[j])
      invariant FirstEnd(target, polls, i) == FirstEnd(target, polls, 0)
    {
      trace := trace + [PollDraft(target)];
      assert trace == PollTrace(target, i + 1);
      if EndsPolling(target, polls[i]) {
        settled := Some(polls[i].body);
        break;
      }
      i := i + 1;
    }
  }

  /** The draft order id carried by a 202 body, when it is truthy. */
  function AcceptedId(p: Payload): Option<JsValue> {
    if p.Json? && p.draftOrder.Some? && Truthy(p.draftOrder.value.id) then Some(p.draftOrder.value.id) else None
  }

  /** What a 202 without an unusable body is polled by: the draft id when the body has one, else the Location URL. */
  function PollTargetOf(reply: DraftReply): PollTarget {
    if AcceptedId(reply.body).Some? then ById(AcceptedId(reply.body).value) else AtLocation(reply.location)
  }

  /** Either the body describing the created draft, or the response that ends the checkout. */
  datatype DraftStage = Ready(data: Payload) | Stopped(response: Response)

  /**
   * The handling of the draft creation reply. A 202 with a draft id polls
   * that draft; a 202 without one polls the Location header; a 202 with
   * neither gives 502. Any other non-2xx reply gives 422 and is not retried;
   * any other 2xx reply is the draft itself.
   */
  method ResolveDraft(reply: DraftReply, polls: seq<PollReply>) returns (stage: DraftStage, trace: seq<Effect>)
    requires |polls| == PollAttempts
    ensures reply.status != 202 && IsOk(reply.status) ==> stage == Ready(reply.body) && trace == []
    ensures reply.status != 202 && !IsOk(reply.status) ==>
              stage == Stopped(Response(422, Error(RejectionMessage(reply.body)))) && trace == []
    ensures reply.status == 202 && AcceptedId(reply.body).None? && reply.location == "" ==>
              stage == Stopped(Response(502, Error(DraftUnlocatable))) && trace == []
    ensures reply.status == 202 && (AcceptedId(reply.body).Some? || reply.location != "") ==>
              var target := PollTargetOf(reply);
              var k := FirstEnd(target, polls, 0);
              && 1 <= |trace| <= PollAttempts
              && (forall e :: e in trace ==> e == PollDraft(target))
              && (forall j :: 0 <= j < |trace| - 1 ==> !EndsPolling(target, polls[j]))
              && (stage.Stopped? <==> |trace| == PollAttempts && !EndsPolling(target, polls[PollAttempts - 1]))
              && (stage.Stopped? ==> stage.response == Response(504, Error(DraftTimedOut)))
              && (stage.Ready? ==> stage.data == polls[|trace| - 1].body)
              && (k < PollAttempts ==> stage == Ready(polls[k].body) && trace == PollTrace(target, k + 1))
              && (k == PollAttempts ==>
                    stage == Stopped(Response(504, Error(DraftTimedOut))) && trace == PollTrace(target, PollAttempts))
  {
    if reply.status == 202 {
      var target;
      match AcceptedId(reply.body) {
        case Some(id) =>
          target := ById(id);
        case None =>
          if reply.location == "" {
            return Stopped(Response(502, Error(DraftUnlocatable))), [];
          }
          target := AtLocation(reply.location);
      }
      var settled;
      settled, trace := Poll(target, polls);
      match settled {
        case Some(data) => stage := Ready(data);
        case None => stage := Stopped(Response(504, Error(DraftTimedOut)));
      }
    } else if !IsOk(reply.status) {
      return Stopped(Response(422, Error(RejectionMessage(reply.body)))), [];
    } else {
      return Ready(reply.body), [];
    }
  }

  // ---------------------------------------------------------------------
  // Payment and correlation

  /** The callback URL: the webhook endpoint with the secret and the draft order id. */
  function CallbackUrl(cfg: Config, draftId: JsValue): (url: string)
    ensures Includes(url, "secret=" + ToStr(cfg.webhookSecret))
    ensures Includes(url, "&draft=" + ToStr(draftId))
  {
    var url := ToStr(cfg.baseUrl) + "/api/webhook?secret=" + ToStr(cfg.webhookSecret) + "&draft=" + ToStr(draftId);
    assert url == (ToStr(cfg.baseUrl) + "/api/webhook?") + ("secret=" + ToStr(cfg.webhookSecret))
                  + ("&draft=" + ToStr(draftId));
    IncludesPart(ToStr(cfg.baseUrl) + "/api/webhook?", "secret=" + ToStr(cfg.webhookSecret), "&draft=" + ToStr(draftId));
    assert url == (ToStr(cfg.baseUrl) + "/api/webhook?secret=" + ToStr(cfg.webhookSecret)) + ("&draft=" + ToStr(draftId));
    IncludesSuffix(ToStr(cfg.baseUrl) + "/api/webhook?secret=" + ToStr(cfg.webhookSecret), "&draft=" + ToStr(draftId));
    url
  }

  /**
   * The payment form for a draft: its total as a string, a fixed EUR-SP
   * amount converted from GBP, and the callback URL.
   */
  function PaymentFormFor(totalPrice: JsValue, draftId: JsValue, cfg: Config): (form: PaymentForm)
    ensures form.Keys == {"amount", "currency", "originalCurrency", "convertCurrency", "webhook_url"}
    ensures form["amount"] == Str(ToStr(totalPrice))
    ensures form["currency"] == Str("EUR-SP") && form["originalCurrency"] == Str("GBP")
    ensures form["convertCurrency"] == Str("True")
    ensures form["webhook_url"].Str? && Includes(form["webhook_url"].s, "&draft=" + ToStr(draftId))
    ensures Includes(form["webhook_url"].s, "secret=" + ToStr(cfg.webhookSecret))
  {
    map["amount" := Str(ToStr(totalPrice)),
        "currency" := Str("EUR-SP"),
        "originalCurrency" := Str("GBP"),
        "convertCurrency" := Str("True"),
        "webhook_url" := Str(CallbackUrl(cfg, draftId))]
  }

  /** The note written on the draft once the gateway has answered. */
  function CorrelationNote(session: JsValue): (note: string)
    ensures Includes(note, ToStr(session))
  {
    IncludesSuffix("Aviagram: ", ToStr(session));
    "Aviagram: " + ToStr(session)
  }

  /** The tags written on the draft: the pending marker is kept and "aviagram:<id>" is appended. */
  function CorrelationTags(session: JsValue): (tags: string)
    ensures PendingTag <= tags
    ensures Includes(tags, "aviagram:" + ToStr(session))
    ensures Includes(tags, ToStr(session))
  {
    var marker := "aviagram:" + ToStr(session);
    IncludesSuffix(PendingTag + ",", marker);
    IncludesSuffix("aviagram:", ToStr(session));
    IncludesTransitive((PendingTag + ",") + marker, marker, ToStr(session));
    (PendingTag + ",") + marker
  }

  /**
   * Everything after the draft exists. A body that is not JSON or has no
   * draft order throws (500). Otherwise the gateway is asked for a form; if
   * it refuses, the draft is deleted and the answer is 502 with the
   * gateway's text; if it accepts, the draft is tagged with the gateway's
   * order id and the answer is 200.
   */
  function Pay(data: Payload, cfg: Config, gateway: GatewayReply): (out: Outcome)
    ensures data.Malformed? || data.draftOrder.None? ==> out == Outcome(Response(500, Error(InternalError)), [])
    ensures data.Json? && data.draftOrder.Some? ==>
              var d := data.draftOrder.value;
              && |out.trace| == 2 - (if IsOk(gateway.status) && gateway.session.None? then 1 else 0)
              && out.trace[0] == CreatePayment(PaymentFormFor(d.totalPrice, d.id, cfg))
              && (DeleteDraft(d.id) in out.trace <==> !IsOk(gateway.status))
              && (!IsOk(gateway.status) ==> out.response == Response(502, GatewayError(GatewayFailure, gateway.text)))
              && (IsOk(gateway.status) && gateway.session.None? ==> out.response == Response(500, Error(InternalError)))
    ensures out.response.status == 200 <==> data.Json? && data.draftOrder.Some? && IsOk(gateway.status) && gateway.session.Some?
    ensures out.response.status == 200 ==>
              var d, s := data.draftOrder.value, gateway.session.value;
              && out.trace[1] == TagDraft(d.id, CorrelationNote(s.orderId), CorrelationTags(s.orderId))
              && out.response.body == CheckoutCreated(d.id, s.orderId, s.redirectUrl, d.totalPrice, d.currency)
    ensures forall e :: e in out.trace && e.TagDraft? ==> out.response.status == 200
  {
    if data.Malformed? || data.draftOrder.None? then
      Outcome(Response(500, Error(InternalError)), [])
    else
      var d := data.draftOrder.value;
      var request := CreatePayment(PaymentFormFor(d.totalPrice, d.id, cfg));
      if !IsOk(gateway.status) then
        Outcome(Response(502, GatewayError(GatewayFailure, gateway.text)), [request, DeleteDraft(d.id)])
      else if gateway.session.None? then
        Outcome(Response(500, Error(InternalError)), [request])
      else
        var s := gateway.session.value;
        Outcome(Response(200, CheckoutCreated(d.id, s.orderId, s.redirectUrl, d.totalPrice, d.currency)),
                [request, TagDraft(d.id, CorrelationNote(s.orderId), CorrelationTags(s.orderId))])
  }

  // ---------------------------------------------------------------------
  // The handler

  /**
   * What the handler promises once it holds a token and a parsed body:
   * an invalid body gets the first failing check's 400 and no upstream
   * call; a valid one creates exactly the draft built from it; a rejected
   * draft gets 422 with the store's message; a timeout (504) comes after
   * exactly `PollAttempts` polls and asks for no payment; the draft is
   * deleted exactly when the gateway refuses (502); it is tagged exactly
   * when the checkout succeeds (200), after the payment form for the
   * draft's total, with the gateway's order id in its note and tags.
   */
  ghost predicate Submitted(b: CheckoutBody, cfg: Config, replies: Replies, out: Outcome) {
    && (ValidationError(b).Some? ==> out == Outcome(Response(400, Error(ValidationError(b).value)), []))
    && (ValidationError(b).None? ==> |out.trace| >= 1 && out.trace[0] == CreateDraft(DraftRequest(b)))
    && (out.response.status == 422 ==>
          out == Outcome(Response(422, Error(RejectionMessage(replies.draft.body))), [CreateDraft(DraftRequest(b))]))
    && (out.response.status == 504 ==>
          && |out.trace| == 1 + PollAttempts
          && out.response.body == Error(DraftTimedOut)
          && forall e :: e in out.trace ==> !e.CreatePayment?)
    && ((exists e :: e in out.trace && e.DeleteDraft?) <==> out.response == Response(502, GatewayError(GatewayFailure, replies.gateway.text)))
    && ((exists e :: e in out.trace && e.TagDraft?) <==> out.response.status == 200)
    && (out.response.status == 200 ==>
          var created := out.response.body;
          && created.CheckoutCreated? && |out.trace| >= 3
          && out.trace[|out.trace| - 2] == CreatePayment(PaymentFormFor(created.totalPrice, created.draftOrderId, cfg))
          && out.trace[|out.trace| - 1] == TagDraft(created.draftOrderId, CorrelationNote(created.aviagramOrderId),
                                                    CorrelationTags(created.aviagramOrderId)))
  }

  /**
   * What the handler answers from validation on, given the token and the
   * parsed body, as one definition over the upstream replies: 400 for an
   * invalid body; 422 with the store's message for a rejected draft; 502
   * for a 202 that can be neither polled by id nor by location; 504 after
   * ten polls that never settle; otherwise the payment stage on the body
   * of the draft reply or of the first poll that settled.
   */
  function SubmissionOutcome(b: CheckoutBody, cfg: Config, replies: Replies): Outcome
    requires |replies.polls| == PollAttempts
  {
    match ValidationError(b)
    case Some(message) => Outcome(Response(400, Error(message)), [])
    case None =>
      var create := CreateDraft(DraftRequest(b));
      var reply := replies.draft;
      if reply.status == 202 then
        if AcceptedId(reply.body).None? && reply.location == "" then
          Outcome(Response(502, Error(DraftUnlocatable)), [create])
        else
          var target := PollTargetOf(reply);
          var k := FirstEnd(target, replies.polls, 0);
          if k == PollAttempts then
            Outcome(Response(504, Error(DraftTimedOut)), [create] + PollTrace(target, PollAttempts))
          else
            var paid := Pay(replies.polls[k].body, cfg, replies.gateway);
            Outcome(paid.response, [create] + PollTrace(target, k + 1) + paid.trace)
      else if !IsOk(reply.status) then
        Outcome(Response(422, Error(RejectionMessage(reply.body))), [create])
      else
        var paid := Pay(reply.body, cfg, replies.gateway);
        Outcome(paid.response, [create] + [] + paid.trace)
  }

  /** A checkout that reached the gateway: the calls of `Pay` follow the draft creation and the polls. */
  lemma PaidSubmission(b: CheckoutBody, cfg: Config, replies: Replies, polled: seq<Effect>, data: Payload)
    requires ValidationError(b).None?
    requires forall e :: e in polled ==> e.PollDraft?
    ensures var paid := Pay(data, cfg, replies.gateway);
            Submitted(b, cfg, replies, Outcome(paid.response, [CreateDraft(DraftRequest(b))] + polled + paid.trace))
  {
    var paid := Pay(data, cfg, replies.gateway);
    var prefix := [CreateDraft(DraftRequest(b))] + polled;
    var calls := prefix + paid.trace;
    assert forall e :: e in prefix ==> e.CreateDraft? || e.PollDraft?;
    assert forall e :: e in calls <==> e in prefix || e in paid.trace;
    if data.Malformed? || data.draftOrder.None? {
      assert paid.trace == [];
    } else if !IsOk(replies.gateway.status) {
      assert paid.response.status == 502;
    } else if replies.gateway.session.None? {
      assert paid.trace == [paid.trace[0]];
    } else {
      assert calls[|calls| - 2] == paid.trace[0];
      assert calls[|calls| - 1] == paid.trace[1];
    }
  }

  /**
   * The saga's promises hold of every submission: no call for an invalid
   * body, the draft built from the body first, 422 and 504 without any
   * payment request, a delete exactly on the gateway's 502, and a tag
   * exactly on success, last and after the payment form.
   */
  lemma SubmissionKeepsSaga(b: CheckoutBody, cfg: Config, replies: Replies)
    requires |replies.polls| == PollAttempts
    ensures Submitted(b, cfg, replies, SubmissionOutcome(b, cfg, replies))
  {
    if ValidationError(b).None? {
      var reply := replies.draft;
      if reply.status == 202 && !(AcceptedId(reply.body).None? && reply.location == "") {
        var target := PollTargetOf(reply);
        var k := FirstEnd(target, replies.polls, 0);
        if k < PollAttempts {
          PaidSubmission(b, cfg, replies, PollTrace(target, k + 1), replies.polls[k].body);
        } else {
          var calls := [CreateDraft(DraftRequest(b))] + PollTrace(target, PollAttempts);
          assert forall e :: e in calls ==> e.CreateDraft? || e.PollDraft?;
        }
      } else if reply.status != 202 && IsOk(reply.status) {
        PaidSubmission(b, cfg, replies, [], reply.body);
      }
    }
  }

  /** The handler from validation on, given the token and the parsed body. */
  method Submit(b: CheckoutBody, cfg: Config, replies: Replies) returns (out: Outcome)
    requires |replies.polls| == PollAttempts
    ensures out == SubmissionOutcome(b, cfg, replies)
  {
    var invalid := ValidationError(b);
    if invalid.Some? {
      return Outcome(Response(400, Error(invalid.value)), []);
    }
    var create := CreateDraft(DraftRequest(b));
    var stage, polled := ResolveDraft(replies.draft, replies.polls);
    match stage {
      case Stopped(response) =>
        out := Outcome(response, [create] + polled);
      case Ready(data) =>
        var paid := Pay(data, cfg, replies.gateway);
        out := Outcome(paid.response, [create] + polled + paid.trace);
    }
  }

  /** The calls the token cache makes when asked at `now`. */
  function TokenTrace(cached: bool): seq<Effect> {
    if cached then [] else [RequestToken]
  }

  /** The cache hands out a token: the cached one, or a refreshed one from a successful exchange. */
  predicate TokenObtained(cached: bool, reply: TokenReply) {
    cached || (IsOk(reply.status) && reply.grant.Some?)
  }

  /**
   * One checkout invocation. `now` and `refreshedAt` are the two clock
   * readings of the token cache; `replies` answers every upstream call the
   * handler may make. The token is fetched before the body is looked at,
   * and a refreshed token stays in the cache for later invocations.
   */
  method Handle(cache: TokenCache, req: CheckoutRequest, cfg: Config, now: int, refreshedAt: int, replies: Replies)
    returns (out: Outcome)
    requires |replies.polls| == PollAttempts
    modifies cache
    ensures req.httpMethod == "OPTIONS" ==> out == Outcome(Response(200, Empty), []) && unchanged(cache)
    ensures req.httpMethod != "OPTIONS" && req.httpMethod != "POST" ==>
              out == Outcome(Response(405, Error(MethodNotAllowed)), []) && unchanged(cache)
    ensures req.httpMethod == "POST" ==>
              var tokenCalls := TokenTrace(old(cache.Fresh(now)));
              && |out.trace| >= |tokenCalls| && out.trace[..|tokenCalls|] == tokenCalls
              && (!TokenObtained(old(cache.Fresh(now)), replies.token) || req.body.None? ==>
                    out == Outcome(Response(500, Error(InternalError)), tokenCalls))
              && (TokenObtained(old(cache.Fresh(now)), replies.token) && req.body.Some? ==>
                    var submitted := SubmissionOutcome(req.body.value, cfg, replies);
                    out == Outcome(submitted.response, tokenCalls + submitted.trace))
    ensures req.httpMethod == "POST" && old(cache.Fresh(now)) ==> unchanged(cache)
    ensures req.httpMethod == "POST" && !old(cache.Fresh(now)) && TokenObtained(false, replies.token) ==>
              && cache.cachedToken == replies.token.grant.value.accessToken
              && cache.expiresAt == refreshedAt + replies.token.grant.value.expiresIn * 1000
    ensures req.httpMethod == "POST" && !old(cache.Fresh(now)) && !TokenObtained(false, replies.token) ==>
              unchanged(cache)
  {
    if req.httpMethod == "OPTIONS" {
      return Outcome(Response(200, Empty), []);
    }
    if req.httpMethod != "POST" {
      return Outcome(Response(405, Error(MethodNotAllowed)), []);
    }
    var token, trace := cache.GetToken(now, refreshedAt, replies.token);
    if token.None? || req.body.None? {
      return Outcome(Response(500, Error(InternalError)), trace);
    }
    var submitted := Submit(req.body.value, cfg, replies);
    out := Outcome(submitted.response, trace + submitted.trace);
  }
}
