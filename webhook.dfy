/**
 * The webhook the payment gateway calls: it checks the shared secret, and
 * for a RECEIVED payment looks up the store order whose note or tags
 * mention the gateway's order id and posts a capture transaction on it.
 * Once the secret matches, the gateway always gets 200.
 */
module Webhook {
  import opened Optional
  import opened Js
  import opened Http

  const Unauthorized := "Unauthorized"
  const ProcessingFailed := "Processing failed"
  const DefaultCurrency := "EUR"

  /** The members of the gateway's notification the handler reads. */
  datatype Notification = Notification(orderId: JsValue, amount: JsValue, status: JsValue, currency: JsValue)

  /**
   * `secret` and `draft` are the query parameters (`Undefined` when absent);
   * `body` is `None` when there is none.
   */
  datatype WebhookRequest = WebhookRequest(httpMethod: string, secret: JsValue, draft: JsValue, body: Option<Notification>)

  /** A store order as listed by orders.json; `financialStatus` is listed but never read. */
  datatype Order = Order(id: JsValue, note: Option<string>, tags: Option<string>, financialStatus: JsValue)

  /** The order search reply: not JSON, or JSON whose `orders` member may be missing. Its status is never read. */
  datatype OrderSearch = Unreadable | Listing(orders: Option<seq<Order>>)

  datatype TransactionReply = TransactionReply(status: int, text: string)

  /** Why marking an order paid threw. */
  datatype Failure =
    | SearchUnreadable
    | OrderNotFound(paymentId: string)
    | CurrencyNotText
    | TransactionRejected(status: int, text: string)

  /** What `markShopifyOrderPaid` did: the calls made, and the error it threw, if any. */
  datatype Settlement = Settlement(failure: Option<Failure>, trace: seq<Effect>)

  // ---------------------------------------------------------------------
  // Finding the order

  /** `o.note?.includes(id) || o.tags?.includes(id)`. */
  predicate Matches(o: Order, needle: string) {
    (o.note.Some? && Includes(o.note.value, needle)) || (o.tags.Some? && Includes(o.tags.value, needle))
  }

  /** `orders.find(...)`: the position of the first order, in list order, that mentions `needle`. */
  function FindOrder(orders: seq<Order>, needle: string): (r: Option<nat>)
    ensures r.Some? ==> r.value < |orders| && Matches(orders[r.value], needle)
    ensures r.Some? ==> forall j :: 0 <= j < r.value ==> !Matches(orders[j], needle)
    ensures r.None? ==> forall j :: 0 <= j < |orders| ==> !Matches(orders[j], needle)
    decreases |orders|
  {
    if |orders| == 0 then None
    else if Matches(orders[0], needle) then Some(0)
    else match FindOrder(orders[1..], needle)
      case None => None
      case Some(k) => Some(k + 1)
  }

  /** The search ignores payment state: marking any listed order paid does not change which order is found. */
  lemma {:induction false} FindIgnoresFinancialStatus(orders: seq<Order>, needle: string, k: nat, status: JsValue)
    requires k < |orders|
    ensures FindOrder(orders[k := orders[k].(financialStatus := status)], needle) == FindOrder(orders, needle)
    decreases |orders|
  {
    var updated := orders[k := orders[k].(financialStatus := status)];
    if k > 0 {
      assert updated[1..] == orders[1..][k - 1 := orders[k].(financialStatus := status)];
      FindIgnoresFinancialStatus(orders[1..], needle, k - 1, status);
    }
  }

  /** An empty payment id is included in every string, so it picks the first order that has a note or tags. */
  lemma EmptyIdMatchesAnyAnnotatedOrder(o: Order)
    requires o.note.Some? || o.tags.Some?
    ensures Matches(o, "")
  {
    if o.note.Some? {
      IncludesEmpty(o.note.value);
    } else {
      IncludesEmpty(o.tags.value);
    }
  }

  // ---------------------------------------------------------------------
  // The currency

  /** The characters a regular-expression `.` does not match. */
  predicate IsLineTerminator(c: char) {
    c == '\n' || c == '\r' || c == '\U{2028}' || c == '\U{2029}'
  }

  /** `/-.*$/` matches at `i`: a '-' with no line terminator between it and the end. */
  predicate DashMatchAt(s: string, i: int) {
    0 <= i < |s| && s[i] == '-' && forall j :: i < j < |s| ==> !IsLineTerminator(s[j])
  }

  /** Where the leftmost match of `/-.*$/` at or after `from` starts; `|s|` when there is none. */
  function DashCut(s: string, from: nat): (c: nat)
    requires from <= |s|
    ensures from <= c <= |s|
    ensures c < |s| ==> DashMatchAt(s, c)
    ensures forall j :: from <= j < c ==> !DashMatchAt(s, j)
    decreases |s| - from
  {
    if from == |s| then |s|
    else if DashMatchAt(s, from) then from
    else DashCut(s, from + 1)
  }

  /** `s.replace(/-.*$/, "")`. */
  function StripDashSuffix(s: string): string {
    s[..DashCut(s, 0)]
  }

  /** `currency?.replace(/-.*$/, "") || "EUR"`; `None` is the TypeError a non-string currency throws. */
  function NormaliseCurrency(currency: JsValue): (r: Option<string>)
    ensures currency.Undefined? || currency.Null? ==> r == Some(DefaultCurrency)
    ensures currency.Str? ==> r.Some? && (r.value == DefaultCurrency || r.value == StripDashSuffix(currency.s))
    ensures currency.Str? && StripDashSuffix(currency.s) != "" ==> r == Some(StripDashSuffix(currency.s))
    ensures r.None? <==> !(currency.Undefined? || currency.Null? || currency.Str?)
    ensures r.Some? ==> r.value != ""
  {
    match currency
    case Undefined => Some(DefaultCurrency)
    case Null => Some(DefaultCurrency)
    case Str(s) => var t := StripDashSuffix(s); Some(if t == "" then DefaultCurrency else t)
    case _ => None
  }

  /** On a single-line string the cut is at the first '-': the result is the longest dash-free prefix. */
  lemma StripCutsAtFirstDash(s: string)
    requires forall j :: 0 <= j < |s| ==> !IsLineTerminator(s[j])
    ensures var r := StripDashSuffix(s);
            && r <= s
            && (forall j :: 0 <= j < |r| ==> r[j] != '-')
            && (|r| < |s| ==> s[|r|] == '-')
  {
    var c := DashCut(s, 0);
    forall j | 0 <= j < c
      ensures s[j] != '-'
    {
      assert !DashMatchAt(s, j);
    }
  }

  /** On single-line input the normalised currency never contains '-'. */
  lemma NormalisedCurrencyHasNoDash(currency: JsValue)
    requires currency.Str? ==> forall j :: 0 <= j < |currency.s| ==> !IsLineTerminator(currency.s[j])
    requires NormaliseCurrency(currency).Some?
    ensures '-' !in NormaliseCurrency(currency).value
  {
    if currency.Str? {
      StripCutsAtFirstDash(currency.s);
    }
  }

  /** A line break after the dash defeats the strip: "EUR-SP\nX" is left as it is. */
  lemma MultiLineCurrencyKeepsDash()
    ensures StripDashSuffix("EUR-SP\nX") == "EUR-SP\nX"
  {
    var s := "EUR-SP\nX";
    assert IsLineTerminator(s[6]);
    assert !DashMatchAt(s, 3);
    assert forall j :: 0 <= j < |s| && j != 3 ==> s[j] != '-';
  }

  /** Stripping twice is stripping once. */
  lemma StripIdempotent(s: string)
    ensures StripDashSuffix(StripDashSuffix(s)) == StripDashSuffix(s)
  {
    var c := DashCut(s, 0);
    var t := s[..c];
    if c < |s| {
      forall j | 0 <= j < |t|
        ensures !DashMatchAt(t, j)
      {
        if t[j] == '-' {
          assert !DashMatchAt(s, j);
          var k :| j < k < |s| && IsLineTerminator(s[k]);
          assert DashMatchAt(s, c);
          assert k < c;
          assert IsLineTerminator(t[k]);
        }
      }
      assert DashCut(t, 0) == |t|;
    } else {
      assert t == s;
    }
  }

  // ---------------------------------------------------------------------
  // Marking the order paid

  /** The capture the webhook records, with the notification's amount passed through. */
  function Capture(amount: JsValue, currency: string): Transaction {
    Transaction("capture", "success", amount, currency, "Aviagram")
  }

  /**
   * `markShopifyOrderPaid`. It lists the store's orders, takes the first
   * that mentions the payment id in its note or tags, and posts a capture
   * on it. A missing match, an unreadable listing, a non-string currency
   * and a non-2xx transaction reply each throw; only a match leads to a
   * transaction.
   */
  function MarkOrderPaid(paymentId: JsValue, amount: JsValue, currency: JsValue,
                         search: OrderSearch, tx: TransactionReply): (r: Settlement)
    ensures 1 <= |r.trace| <= 2 && r.trace[0] == ListOrders
    ensures search.Unreadable? ==> r == Settlement(Some(SearchUnreadable), [ListOrders])
    ensures search.Listing? && (search.orders.None? || FindOrder(search.orders.value, ToStr(paymentId)).None?) ==>
              r == Settlement(Some(OrderNotFound(ToStr(paymentId))), [ListOrders])
    ensures |r.trace| == 2 <==>
              && search.Listing? && search.orders.Some?
              && FindOrder(search.orders.value, ToStr(paymentId)).Some?
              && NormaliseCurrency(currency).Some?
    ensures |r.trace| == 2 ==>
              var o := search.orders.value[FindOrder(search.orders.value, ToStr(paymentId)).value];
              && Matches(o, ToStr(paymentId))
              && r.trace[1] == PostTransaction(o.id, Capture(amount, NormaliseCurrency(currency).value))
              && (r.failure.None? <==> IsOk(tx.status))
              && (r.failure.Some? ==> r.failure.value == TransactionRejected(tx.status, tx.text))
    ensures r.failure.None? ==> |r.trace| == 2
  {
    var needle := ToStr(paymentId);
    match search
    case Unreadable => Settlement(Some(SearchUnreadable), [ListOrders])
    case Listing(orders) =>
      if orders.None? || FindOrder(orders.value, needle).None? then
        Settlement(Some(OrderNotFound(needle)), [ListOrders])
      else
        var order := orders.value[FindOrder(orders.value, needle).value];
        match NormaliseCurrency(currency)
        case None => Settlement(Some(CurrencyNotText), [ListOrders])
        case Some(code) =>
          var calls := [ListOrders, PostTransaction(order.id, Capture(amount, code))];
          if IsOk(tx.status) then Settlement(None, calls)
          else Settlement(Some(TransactionRejected(tx.status, tx.text)), calls)
  }

  // ---------------------------------------------------------------------
  // The handler

  /** The request may go on: a POST whose secret is `===` the configured one. */
  predicate Authenticated(req: WebhookRequest, cfg: Config) {
    req.httpMethod == "POST" && StrictEquals(req.secret, cfg.webhookSecret)
  }

  /** Only a RECEIVED notification leads to any upstream call. */
  predicate PaymentReceived(req: WebhookRequest) {
    req.body.Some? && StrictEquals(req.body.value.status, Str("RECEIVED"))
  }

  /**
   * The webhook handler. Non-POST requests get 405 and a wrong secret 401,
   * both without any upstream call. Once authenticated the answer is always
   * 200 `{received: true}`, with `error: "Processing failed"` exactly when
   * processing threw; CANCELED and every other status do nothing.
   */
  function Handle(req: WebhookRequest, cfg: Config, search: OrderSearch, tx: TransactionReply): (out: Outcome)
    ensures req.httpMethod != "POST" ==> out == Outcome(Response(405, Error(MethodNotAllowed)), [])
    ensures req.httpMethod == "POST" && !StrictEquals(req.secret, cfg.webhookSecret) ==>
              out == Outcome(Response(401, Error(Unauthorized)), [])
    ensures Authenticated(req, cfg) ==> out.response.status == 200 && out.response.body.Received?
    ensures out.trace != [] <==> Authenticated(req, cfg) && PaymentReceived(req)
    ensures out.trace != [] ==>
              var n := req.body.value;
              out.trace == MarkOrderPaid(n.orderId, n.amount, n.currency, search, tx).trace
    ensures Authenticated(req, cfg) ==>
              (out.response.body == Received(Some(ProcessingFailed)) <==>
                 req.body.None?
                 || (PaymentReceived(req)
                     && MarkOrderPaid(req.body.value.orderId, req.body.value.amount, req.body.value.currency, search, tx).failure.Some?))
    ensures Authenticated(req, cfg) ==>
              out.response.body
                == Received(if req.body.None?
                               || (PaymentReceived(req)
                                   && MarkOrderPaid(req.body.value.orderId, req.body.value.amount,
                                                    req.body.value.currency, search, tx).failure.Some?)
                            then Some(ProcessingFailed) else None)
    ensures out.response.body == Received(None) ==>
              Authenticated(req, cfg) && (PaymentReceived(req) ==> (exists e :: e in out.trace && e.PostTransaction?))
  {
    if req.httpMethod != "POST" then
      Outcome(Response(405, Error(MethodNotAllowed)), [])
    else if !StrictEquals(req.secret, cfg.webhookSecret) then
      Outcome(Response(401, Error(Unauthorized)), [])
    else if req.body.None? then
      Outcome(Response(200, Received(Some(ProcessingFailed))), [])
    else
      var n := req.body.value;
      if StrictEquals(n.status, Str("RECEIVED")) then
        var settled := MarkOrderPaid(n.orderId, n.amount, n.currency, search, tx);
        var ack := if settled.failure.None? then Received(None) else Received(Some(ProcessingFailed));
        Outcome(Response(200, ack), settled.trace)
      else
        Outcome(Response(200, Received(None)), [])
  }

  /** With no secret configured, a call without a `secret` parameter is let through (undefined === undefined). */
  lemma UnsetSecretAdmitsUnsignedCalls(req: WebhookRequest, cfg: Config)
    requires req.httpMethod == "POST" && req.secret == Undefined && cfg.webhookSecret == Undefined
    ensures Authenticated(req, cfg)
  {
  }

  /**
   * Nothing stops a repeated delivery: if the matched order is already
   * marked paid, the same notification posts the same capture again.
   */
  lemma RedeliveryCapturesAgain(req: WebhookRequest, cfg: Config, orders: seq<Order>, k: nat,
                                paid: JsValue, tx: TransactionReply)
    requires k < |orders|
    ensures var repeated := orders[k := orders[k].(financialStatus := paid)];
            Handle(req, cfg, Listing(Some(repeated)), tx) == Handle(req, cfg, Listing(Some(orders)), tx)
  {
    if req.body.Some? {
      FindIgnoresFinancialStatus(orders, ToStr(req.body.value.orderId), k, paid);
    }
  }

  /** The `draft` parameter the checkout puts in the callback URL plays no part in the outcome. */
  lemma DraftParameterIsIgnored(req: WebhookRequest, draft: JsValue, cfg: Config, search: OrderSearch, tx: TransactionReply)
    ensures Handle(req.(draft := draft), cfg, search, tx) == Handle(req, cfg, search, tx)
  {
  }
}
