/** What one delivery of a payment-status notification does to the order
    table, for both entry points: the REST route `easepay/v1/webhook`
    (`easepay_handle_webhook` in ease-pay-woocommerce.php) and the legacy
    `wc-api` callback (`handle_callback` in the gateway class).  Each is a
    guard chain followed by the same status switch; the functions here are
    the specification that the two handler methods are proved against, and
    the lemmas state what the code does, including what it does not guard
    against: a repeated delivery repeats its effects, and a success status
    completes payment whatever the order's current status. */
module Reconciliation {
  import opened Php
  import opened WooCommerce

  /** The gateway id the REST handler requires of an order. */
  const GatewayId := "easepay"

  /** The five status values either switch acts on. */
  const RecognisedStatuses: set<string> := {"completed", "confirmed", "pending", "failed", "expired"}

  /** What a status value asks for. */
  datatype Action = Settle | Hold | Fail | Ignore

  /** The status switch: `completed`/`confirmed` settle, `pending` holds,
      `failed`/`expired` fail, and anything else falls through. */
  function ActionOf(status: string): (a: Action)
    ensures a == Ignore <==> status !in RecognisedStatuses
  {
    if status == "completed" || status == "confirmed" then Settle
    else if status == "pending" then Hold
    else if status == "failed" || status == "expired" then Fail
    else Ignore
  }

  /** Which of the two handlers is speaking: they differ only in their notes. */
  datatype Handler = RestWebhook | LegacyCallback

  /** The link to the transaction on the block explorer. */
  function ExplorerLink(tx: string, text: string): string
  {
    "<a href=\"https://basescan.org/tx/" + tx + "\" target=\"_blank\">" + text + "</a>"
  }

  /** The link text: the REST handler shows the first 16 characters of the
      hash and "...", the legacy callback the whole hash. */
  function LinkText(h: Handler, tx: string): string
  {
    match h
    case RestWebhook => Prefix(tx, 16) + "..."
    case LegacyCallback => tx
  }

  /** The note added after `payment_complete`; a hash that PHP reads as
      false ("" or "0") is shown as "N/A". */
  function SettledNote(h: Handler, tx: string): string
  {
    var lead := match h
      case RestWebhook => "Ease Pay payment completed. TX: "
      case LegacyCallback => "Payment completed via Ease Pay. Transaction: ";
    lead + if Truthy(tx) then ExplorerLink(tx, LinkText(h, tx)) else "N/A"
  }

  function HoldNote(h: Handler): string
  {
    match h
    case RestWebhook => "Ease Pay payment pending confirmation."
    case LegacyCallback => "Payment pending blockchain confirmation."
  }

  function FailNote(h: Handler): string
  {
    match h
    case RestWebhook => "Ease Pay payment failed or expired."
    case LegacyCallback => "Payment failed or expired."
  }

  /** The steps one switch arm applies to the order, in the code's order:
      only a settlement records a payment, only a failure touches stock (one
      restore call), every arm but the fall-through adds exactly one note,
      and the payment method never changes. */
  function Reconcile(s: OrderState, a: Action, tx: string, h: Handler): (r: OrderState)
    ensures r.paymentMethod == s.paymentMethod
    ensures r.payments == if a == Settle then s.payments + [tx] else s.payments
    ensures r.stock == if a == Fail then s.stock + 1 else s.stock
    ensures r.status == match a
      case Hold => "on-hold"
      case Fail => "failed"
      case _ => s.status
    ensures a == Ignore <==> r == s
    ensures a != Ignore ==> |r.notes| == |s.notes| + 1 && r.notes[..|s.notes|] == s.notes
  {
    match a
    case Settle => NoteAdded(PaymentCompleted(s, tx), SettledNote(h, tx))
    case Hold => StatusUpdated(s, "on-hold", HoldNote(h))
    case Fail => StockIncreased(StatusUpdated(s, "failed", FailNote(h)))
    case Ignore => s
  }

  /** One switch arm performed on the order in place, step by step; both
      handlers end in this switch, each with its own notes. */
  method ApplySwitch(order: Order, a: Action, txHash: string, h: Handler)
    modifies order
    ensures order.State() == Reconcile(old(order.State()), a, txHash, h)
  {
    match a {
      case Settle =>
        order.PaymentComplete(txHash);
        order.AddOrderNote(SettledNote(h, txHash));
      case Hold =>
        order.UpdateStatus("on-hold", HoldNote(h));
      case Fail =>
        order.UpdateStatus("failed", FailNote(h));
        // wc_increase_stock_levels reloads the same order by its id.
        order.IncreaseStockLevels();
      case Ignore =>
    }
  }

  /** The HTTP answer: `{success: true}`, or an error status with its code
      (REST) or message (legacy callback). */
  datatype Response = Ok | Err(httpStatus: nat, code: string)

  /** The outcome of one delivery: the answer, the order table afterwards,
      and the id `wc_get_order` was asked for, if it was asked at all. */
  datatype Delivery = Delivery(response: Response, orders: map<nat, OrderState>, lookup: Option<nat>)

  /** `easepay_handle_webhook`: payload guards, lookup, gateway check, switch. */
  function Webhook(p: Payload, db: map<nat, OrderState>): (d: Delivery)
    ensures d.orders.Keys == db.Keys
    ensures d.lookup == None <==> Empty(Field(p, "order_id")) || Empty(Field(p, "status"))
    ensures d.lookup.Some? ==> d.lookup.value == AbsInt(Field(p, "order_id"))
    ensures d.response.Ok? <==> d.lookup.Some? && d.lookup.value in db && db[d.lookup.value].paymentMethod == GatewayId
    ensures !d.response.Ok? ==> d.orders == db
    ensures forall k :: k in db && Some(k) != d.lookup ==> d.orders[k] == db[k]
  {
    var orderId := Field(p, "order_id");
    var status := Field(p, "status");
    if Empty(orderId) || Empty(status) then
      Delivery(Err(400, "invalid_payload"), db, None)
    else
      var id := AbsInt(orderId);
      var tx := OptionalText(Field(p, "tx_hash"));
      if id !in db then
        Delivery(Err(404, "order_not_found"), db, Some(id))
      else if db[id].paymentMethod != GatewayId then
        Delivery(Err(400, "invalid_gateway"), db, Some(id))
      else
        Delivery(Ok, db[id := Reconcile(db[id], ActionOf(TextOf(status)), tx, RestWebhook)], Some(id))
  }

  /** `handle_callback`: only a missing order id and an unknown order are
      rejected; there is no gateway check, and a missing status is "". */
  function Callback(p: Payload, db: map<nat, OrderState>): (d: Delivery)
    ensures d.orders.Keys == db.Keys
    ensures d.lookup == None <==> Empty(Field(p, "order_id"))
    ensures d.lookup.Some? ==> d.lookup.value == AbsInt(Field(p, "order_id"))
    ensures d.response.Ok? <==> d.lookup.Some? && d.lookup.value in db
    ensures !d.response.Ok? ==> d.orders == db
    ensures forall k :: k in db && Some(k) != d.lookup ==> d.orders[k] == db[k]
  {
    var orderId := Field(p, "order_id");
    if Empty(orderId) then
      Delivery(Err(400, "Missing order_id"), db, None)
    else
      var id := AbsInt(orderId);
      if id !in db then
        Delivery(Err(404, "Order not found"), db, Some(id))
      else
        var status := OptionalText(Field(p, "status"));
        var tx := OptionalText(Field(p, "tx_hash"));
        Delivery(Ok, db[id := Reconcile(db[id], ActionOf(status), tx, LegacyCallback)], Some(id))
  }

  /** A payload that passes the REST handler's guards for a known Ease Pay order. */
  predicate Accepted(p: Payload, db: map<nat, OrderState>)
  {
    && !Empty(Field(p, "order_id"))
    && !Empty(Field(p, "status"))
    && AbsInt(Field(p, "order_id")) in db
    && db[AbsInt(Field(p, "order_id"))].paymentMethod == GatewayId
  }

  function StatusOf(p: Payload): string
  {
    TextOf(Field(p, "status"))
  }

  function TxOf(p: Payload): string
  {
    OptionalText(Field(p, "tx_hash"))
  }

  // ---- the REST handler, guard by guard ----

  /** A missing or empty order id or status is rejected before any lookup. */
  lemma WebhookRejectsEmptyFields(p: Payload, db: map<nat, OrderState>)
    requires Empty(Field(p, "order_id")) || Empty(Field(p, "status"))
    ensures Webhook(p, db) == Delivery(Err(400, "invalid_payload"), db, None)
  {
  }

  /** The id is normalised by `absint`; an unknown order is 404, unchanged. */
  lemma WebhookRejectsUnknownOrder(p: Payload, db: map<nat, OrderState>)
    requires !Empty(Field(p, "order_id")) && !Empty(Field(p, "status"))
    requires AbsInt(Field(p, "order_id")) !in db
    ensures Webhook(p, db) == Delivery(Err(404, "order_not_found"), db, Some(AbsInt(Field(p, "order_id"))))
  {
  }

  /** A non-empty id without leading digits ("abc") becomes 0 and is never found. */
  lemma WebhookNonNumericIdNotFound(p: Payload, db: map<nat, OrderState>, s: string)
    requires 0 !in db && !Empty(Field(p, "status"))
    requires Field(p, "order_id") == JString(s)
    requires s != [] && !IsDigit(s[0]) && !IsSpace(s[0]) && s[0] != '-' && s[0] != '+'
    ensures Webhook(p, db) == Delivery(Err(404, "order_not_found"), db, Some(0))
  {
    AbsIntOfNonNumericString(s);
  }

  /** An order of another gateway is left untouched, whatever the status. */
  lemma WebhookRejectsForeignGateway(p: Payload, db: map<nat, OrderState>)
    requires !Empty(Field(p, "order_id")) && !Empty(Field(p, "status"))
    requires AbsInt(Field(p, "order_id")) in db
    requires db[AbsInt(Field(p, "order_id"))].paymentMethod != GatewayId
    ensures Webhook(p, db) == Delivery(Err(400, "invalid_gateway"), db, Some(AbsInt(Field(p, "order_id"))))
  {
  }

  // ---- the REST handler's switch ----

  /** `completed` and `confirmed` make exactly one `payment_complete` call with
      the hash and add one note, whatever the order's status was before,
      `failed` included. The plugin sets no status of its own here; the
      transition `payment_complete` makes is WooCommerce's. */
  lemma WebhookSettles(p: Payload, db: map<nat, OrderState>)
    requires Accepted(p, db) && StatusOf(p) in {"completed", "confirmed"}
    ensures var id := AbsInt(Field(p, "order_id"));
      && Webhook(p, db).response == Ok
      && Webhook(p, db).orders == db[id := db[id].(
           payments := db[id].payments + [TxOf(p)],
           notes := db[id].notes + [SettledNote(RestWebhook, TxOf(p))])]
  {
  }

  /** `pending` puts the order on hold and changes neither stock nor payments. */
  lemma WebhookHolds(p: Payload, db: map<nat, OrderState>)
    requires Accepted(p, db) && StatusOf(p) == "pending"
    ensures var id := AbsInt(Field(p, "order_id"));
      && Webhook(p, db).response == Ok
      && Webhook(p, db).orders == db[id := db[id].(
           status := "on-hold",
           notes := db[id].notes + [HoldNote(RestWebhook)])]
  {
  }

  /** `failed` and `expired` fail the order and make one
      `wc_increase_stock_levels` call. */
  lemma WebhookFails(p: Payload, db: map<nat, OrderState>)
    requires Accepted(p, db) && StatusOf(p) in {"failed", "expired"}
    ensures var id := AbsInt(Field(p, "order_id"));
      && Webhook(p, db).response == Ok
      && Webhook(p, db).orders == db[id := db[id].(
           status := "failed",
           stock := db[id].stock + 1,
           notes := db[id].notes + [FailNote(RestWebhook)])]
  {
  }

  /** Any other non-empty status changes nothing and still answers success. */
  lemma WebhookIgnoresUnknownStatus(p: Payload, db: map<nat, OrderState>)
    requires Accepted(p, db) && StatusOf(p) !in RecognisedStatuses
    ensures Webhook(p, db) == Delivery(Ok, db, Some(AbsInt(Field(p, "order_id"))))
  {
  }

  // ---- no idempotency guard ----

  /** A second delivery of the same failure calls `wc_increase_stock_levels`
      a second time (+2 on the stock-call counter). */
  lemma WebhookReplayedFailureRestoresStockAgain(p: Payload, db: map<nat, OrderState>)
    requires Accepted(p, db) && StatusOf(p) in {"failed", "expired"}
    ensures var id := AbsInt(Field(p, "order_id"));
      var again := Webhook(p, Webhook(p, db).orders);
      && again.response == Ok
      && again.orders[id].status == "failed"
      && again.orders[id].stock == db[id].stock + 2
  {
    var id := AbsInt(Field(p, "order_id"));
    WebhookFails(p, db);
    WebhookFails(p, Webhook(p, db).orders);
  }

  /** A second delivery of the same success calls `payment_complete` again. */
  lemma WebhookReplayedSettlementCompletesAgain(p: Payload, db: map<nat, OrderState>)
    requires Accepted(p, db) && StatusOf(p) in {"completed", "confirmed"}
    ensures var id := AbsInt(Field(p, "order_id"));
      var again := Webhook(p, Webhook(p, db).orders);
      && again.response == Ok
      && again.orders[id].payments == db[id].payments + [TxOf(p), TxOf(p)]
  {
    WebhookSettles(p, db);
    WebhookSettles(p, Webhook(p, db).orders);
  }

  /** A success after a failure still calls `payment_complete`: the order
      ends marked paid while the failure's `wc_increase_stock_levels` call
      stands, and no reduce call follows it. */
  lemma WebhookSettlesAfterFailure(fail: Payload, settle: Payload, db: map<nat, OrderState>)
    requires Accepted(fail, db) && StatusOf(fail) in {"failed", "expired"}
    requires Field(settle, "order_id") == Field(fail, "order_id")
    requires !Empty(Field(settle, "status")) && StatusOf(settle) in {"completed", "confirmed"}
    ensures var id := AbsInt(Field(fail, "order_id"));
      var last := Webhook(settle, Webhook(fail, db).orders);
      && last.response == Ok
      && last.orders[id].stock == db[id].stock + 1
      && last.orders[id].payments == db[id].payments + [TxOf(settle)]
  {
    WebhookFails(fail, db);
    WebhookSettles(settle, Webhook(fail, db).orders);
  }

  // ---- notes ----

  /** The REST note shows at most the first 16 characters of the hash then
      "..."; a hash PHP reads as false, "0" included, shows "N/A" although
      `payment_complete` still receives it. */
  lemma WebhookNoteShowsTruncatedHash(tx: string)
    ensures var shown := if |tx| < 16 then |tx| else 16;
      Truthy(tx) ==>
        SettledNote(RestWebhook, tx) == "Ease Pay payment completed. TX: " + ExplorerLink(tx, tx[..shown] + "...")
    ensures !Truthy(tx) ==> SettledNote(RestWebhook, tx) == "Ease Pay payment completed. TX: N/A"
    ensures SettledNote(RestWebhook, "0") == "Ease Pay payment completed. TX: N/A"
  {
  }

  // ---- the legacy callback ----

  /** The callback has no gateway check: it acts on an order of any gateway
      exactly as on its own. */
  lemma CallbackIgnoresGateway(p: Payload, db: map<nat, OrderState>)
    requires !Empty(Field(p, "order_id")) && AbsInt(Field(p, "order_id")) in db
    ensures var id := AbsInt(Field(p, "order_id"));
      Callback(p, db) == Delivery(Ok,
        db[id := Reconcile(db[id], ActionOf(OptionalText(Field(p, "status"))), TxOf(p), LegacyCallback)],
        Some(id))
  {
  }

  /** A failure sent to the callback for another gateway's order fails it and
      makes one stock restore call, where the REST handler refuses it. */
  lemma CallbackFailsForeignOrder(p: Payload, db: map<nat, OrderState>)
    requires !Empty(Field(p, "order_id")) && StatusOf(p) in {"failed", "expired"}
    requires AbsInt(Field(p, "order_id")) in db
    requires db[AbsInt(Field(p, "order_id"))].paymentMethod != GatewayId
    ensures var id := AbsInt(Field(p, "order_id"));
      && Webhook(p, db).orders == db
      && Callback(p, db).orders[id].status == "failed"
      && Callback(p, db).orders[id].stock == db[id].stock + 1
  {
    assert OptionalText(Field(p, "status")) == StatusOf(p);
  }

  /** A missing, empty or unrecognised status is a no-op that answers success. */
  lemma CallbackIgnoresUnknownStatus(p: Payload, db: map<nat, OrderState>)
    requires !Empty(Field(p, "order_id")) && AbsInt(Field(p, "order_id")) in db
    requires OptionalText(Field(p, "status")) !in RecognisedStatuses
    ensures Callback(p, db) == Delivery(Ok, db, Some(AbsInt(Field(p, "order_id"))))
  {
  }

  /** On a payload the REST handler accepts, the callback answers the same and
      leaves the order with the same status, stock, payments and number of
      notes; the note each arm adds is the callback's own wording (the whole
      hash in the settlement note). */
  lemma CallbackAgreesWithWebhook(p: Payload, db: map<nat, OrderState>)
    requires Accepted(p, db)
    ensures var id := AbsInt(Field(p, "order_id"));
      var w := Webhook(p, db);
      var c := Callback(p, db);
      && c.response == w.response && c.lookup == w.lookup
      && c.orders.Keys == w.orders.Keys
      && (forall k :: k in db && k != id ==> c.orders[k] == w.orders[k])
      && c.orders[id].status == w.orders[id].status
      && c.orders[id].stock == w.orders[id].stock
      && c.orders[id].payments == w.orders[id].payments
      && |c.orders[id].notes| == |w.orders[id].notes|
      && (ActionOf(StatusOf(p)) == Settle ==>
            c.orders[id].notes == db[id].notes + [SettledNote(LegacyCallback, TxOf(p))])
      && (ActionOf(StatusOf(p)) == Hold ==> c.orders[id].notes == db[id].notes + [HoldNote(LegacyCallback)])
      && (ActionOf(StatusOf(p)) == Fail ==> c.orders[id].notes == db[id].notes + [FailNote(LegacyCallback)])
      && (ActionOf(StatusOf(p)) == Ignore ==> c.orders[id].notes == db[id].notes)
  {
    assert OptionalText(Field(p, "status")) == StatusOf(p);
  }

  /** The two handlers never word a note the same way: every arm's note
      differs between them, whatever the hash. */
  lemma HandlerNotesDiffer(tx: string)
    ensures SettledNote(RestWebhook, tx) != SettledNote(LegacyCallback, tx)
    ensures HoldNote(RestWebhook) != HoldNote(LegacyCallback)
    ensures FailNote(RestWebhook) != FailNote(LegacyCallback)
  {
    var shown := if Truthy(tx) then ExplorerLink(tx, LinkText(RestWebhook, tx)) else "N/A";
    var full := if Truthy(tx) then ExplorerLink(tx, LinkText(LegacyCallback, tx)) else "N/A";
    var rest := "Ease Pay payment completed. TX: ";
    var legacy := "Payment completed via Ease Pay." + " Transaction: ";
    assert SettledNote(RestWebhook, tx) == rest + shown;
    assert SettledNote(LegacyCallback, tx) == legacy + full;
    assert (rest + shown)[0] == rest[0] == 'E';
    assert legacy[0] == 'P';
    assert (legacy + full)[0] == legacy[0];
  }
}
