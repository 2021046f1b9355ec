/**
 * How the two halves of the saga meet. The checkout writes the gateway's
 * order id into the draft's note and tags; the webhook later searches the
 * store's orders for that id. The only other channel is the callback URL,
 * whose `draft` parameter the webhook never reads.
 */
module Correlation {
  import opened Optional
  import opened Js
  import opened Http
  import Checkout
  import Webhook

  /** An order carrying the tags the checkout writes for a session is matched by that session's id. */
  lemma TaggedOrderMatchesSession(o: Webhook.Order, session: JsValue)
    requires o.tags == Some(Checkout.CorrelationTags(session))
    ensures Webhook.Matches(o, ToStr(session))
  {
  }

  /** The same holds for the note the checkout writes. */
  lemma NotedOrderMatchesSession(o: Webhook.Order, session: JsValue)
    requires o.note == Some(Checkout.CorrelationNote(session))
    ensures Webhook.Matches(o, ToStr(session))
  {
  }

  /**
   * The match is by substring, so a notification whose id is any prefix of
   * a session's id (session "12" against an order tagged for "123") also
   * matches the order tagged for that session.
   */
  lemma PrefixOfSessionIdMatches(o: Webhook.Order, session: JsValue, paymentId: string)
    requires o.tags == Some(Checkout.CorrelationTags(session))
    requires paymentId <= ToStr(session)
    ensures Webhook.Matches(o, paymentId)
  {
  }

  /**
   * A RECEIVED notification for a session captures the order tagged with
   * it, provided no order listed before it mentions the session id: the
   * search takes the first mention in list order.
   */
  lemma ReceivedPaymentCapturesTaggedOrder(req: Webhook.WebhookRequest, cfg: Config, orders: seq<Webhook.Order>,
                                           k: nat, tx: Webhook.TransactionReply)
    requires Webhook.Authenticated(req, cfg) && Webhook.PaymentReceived(req)
    requires var n := req.body.value; n.currency.Undefined? || n.currency.Null? || n.currency.Str?
    requires k < |orders| && orders[k].tags == Some(Checkout.CorrelationTags(req.body.value.orderId))
    requires forall j :: 0 <= j < k ==> !Webhook.Matches(orders[j], ToStr(req.body.value.orderId))
    ensures var n := req.body.value;
            Webhook.Handle(req, cfg, Webhook.Listing(Some(orders)), tx).trace
              == [ListOrders, PostTransaction(orders[k].id, Webhook.Capture(n.amount, Webhook.NormaliseCurrency(n.currency).value))]
  {
    var needle := ToStr(req.body.value.orderId);
    TaggedOrderMatchesSession(orders[k], req.body.value.orderId);
    var found := Webhook.FindOrder(orders, needle);
    assert found.Some?;
    assert found.value == k;
  }

  /** The checkout's callback URL is the stand-alone creator's with `&draft=<id>` appended. */
  lemma CheckoutCallbackExtendsPlainCallback(cfg: Config, draftId: JsValue)
    ensures Checkout.CallbackUrl(cfg, draftId) == WebhookEndpoint(cfg) + "&draft=" + ToStr(draftId)
  {
  }
}
