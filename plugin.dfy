/** The plugin file's one piece of behaviour: the REST route handler
    `easepay_handle_webhook`, which applies a status notification to the
    order it names, in place. The route itself accepts any caller. */
module Plugin {
  import opened Php
  import opened WooCommerce
  import opened Reconciliation

  /** `easepay_handle_webhook($request)`, with `payload` the decoded JSON body.
      The order table afterwards and the answer are those of `Webhook`; the
      only id looked up is the one `Webhook` names, and only when both
      required fields are present. */
  method HandleWebhook(store: Store, payload: Payload) returns (r: Response)
    requires store.Valid()
    modifies store`lookups, store.orders.Values
    ensures store.Valid()
    ensures r == Webhook(payload, old(store.States())).response
    ensures store.States() == Webhook(payload, old(store.States())).orders
    ensures Webhook(payload, old(store.States())).lookup == None ==> store.lookups == old(store.lookups)
    ensures Webhook(payload, old(store.States())).lookup.Some? ==>
      store.lookups == old(store.lookups) + [Webhook(payload, old(store.States())).lookup.value]
  {
    ghost var before := store.States();
    var orderId := Field(payload, "order_id");
    var statusField := Field(payload, "status");
    if Empty(orderId) || Empty(statusField) {
      return Err(400, "invalid_payload");
    }
    var id := AbsInt(orderId);
    var status := TextOf(statusField);
    var txHash := OptionalText(Field(payload, "tx_hash"));

    var found := store.Get(id);
    assert store.States() == before;
    if found.None? {
      return Err(404, "order_not_found");
    }
    var order := found.value;
    if order.paymentMethod != GatewayId {
      return Err(400, "invalid_gateway");
    }
    assert Webhook(payload, before) ==
      Delivery(Ok, before[id := Reconcile(before[id], ActionOf(status), txHash, RestWebhook)], Some(id));

    ApplySwitch(order, ActionOf(status), txHash, RestWebhook);
    r := Ok;
  }
}
