/** The payment gateway class `WC_Gateway_EasePay`: its settings, the wallet
    check behind `is_available` and `process_admin_options`, the checkout
    step `process_payment`, the legacy status callback `handle_callback`,
    and `process_refund`, which only records a request. */
module Gateway {
  import opened Php
  import opened WooCommerce
  import opened Reconciliation

  const DefaultApiBase := "https://easepay.xyz"

  const InvalidWalletMessage := "Invalid wallet address. Must be a valid Ethereum address starting with 0x."

  const AwaitingPaymentNote := "Awaiting Ease Pay payment."

  const OrderNotFoundMessage := "Order not found."

  predicate IsHexDigit(c: char)
  {
    '0' <= c <= '9' || 'a' <= c <= 'f' || 'A' <= c <= 'F'
  }

  /** The character class `[a-fA-F0-9]` repeated over the whole string. */
  function AllHex(s: string): (b: bool)
    ensures b <==> forall i :: 0 <= i < |s| ==> IsHexDigit(s[i])
  {
    s == [] || (IsHexDigit(s[0]) && AllHex(s[1..]))
  }

  /** `preg_match('/^0x[a-fA-F0-9]{40}$/', $w)`: the literal "0x", exactly 40
      hex digits of either case, then the end of the string; without the D
      modifier PCRE's `$` also matches just before one final "\n". */
  function MatchesWalletPattern(w: string): (b: bool)
    ensures b <==>
      && (|w| == 42 || (|w| == 43 && w[42] == '\n'))
      && w[0] == '0' && w[1] == 'x'
      && forall i :: 2 <= i < 42 ==> IsHexDigit(w[i])
  {
    var body := if |w| == 43 && w[42] == '\n' then w[..42] else w;
    |body| == 42 && body[..2] == "0x" && AllHex(body[2..])
  }

  /** `$this->get_option($key, $fallback)`: the saved value, or the fallback
      when it is missing or saved empty (for the keys read here the form
      default equals the fallback). */
  function GetOption(settings: map<string, string>, key: string, fallback: string): (v: string)
    ensures v == fallback || (key in settings && v == settings[key])
    ensures v == "" ==> fallback == ""
    ensures key !in settings ==> v == fallback
  {
    if key in settings && settings[key] != "" then settings[key] else fallback
  }

  /** The constructor's `rtrim($this->get_option('api_base', ...), '/')`. */
  function ApiBaseOf(settings: map<string, string>): (base: string)
    ensures base == [] || base[|base| - 1] != '/'
  {
    RTrim(GetOption(settings, "api_base", DefaultApiBase), '/')
  }

  /** The admin error condition: a wallet that is not empty (PHP `empty`, so
      "" and "0" are exempt) and does not match the pattern. */
  predicate WalletRejected(w: string)
  {
    !Empty(JString(w)) && !MatchesWalletPattern(w)
  }

  /** The shop-wide values the redirect carries: `wc_get_checkout_url()`,
      `get_rest_url(null, 'easepay/v1/webhook')` and `get_bloginfo('name')`. */
  datatype Site = Site(checkoutUrl: string, webhookUrl: string, blogName: string)

  /** `add_query_arg($args, $base)`, kept as its parts: the values go into
      the query string as they are, without encoding. */
  datatype Redirect = Redirect(base: string, query: seq<(string, string)>)

  datatype PaymentResult = PaymentFailure | PaymentSuccess(redirect: Redirect)

  datatype RefundResult = RefundRecorded | RefundError(code: string)

  /** The nine query parameter names, in the code's order. */
  const CheckoutParameters: seq<string> :=
    ["amount", "currency", "merchant_wallet", "order_id", "return_url",
     "cancel_url", "webhook_url", "store_name", "customer_email"]

  /** The hosted checkout URL `process_payment` builds: the merchant's pay
      page under the API base, carrying the order's amount, the wallet, the
      order id in decimal, and where to return to and notify. */
  function CheckoutRedirect(apiBase: string, wallet: string, orderId: nat, d: OrderDetails, site: Site): (r: Redirect)
    ensures r.base == apiBase + "/pay/" + wallet
    ensures |r.query| == |CheckoutParameters|
    ensures forall i :: 0 <= i < |r.query| ==> r.query[i].0 == CheckoutParameters[i]
    ensures r.query[0].1 == d.total && r.query[1].1 == d.currency
    ensures r.query[2].1 == wallet && r.query[3].1 == DecimalString(orderId)
    ensures r.query[4].1 == d.receivedUrl && r.query[5].1 == site.checkoutUrl
    ensures r.query[6].1 == site.webhookUrl && r.query[7].1 == site.blogName
    ensures r.query[8].1 == d.billingEmail
  {
    Redirect(apiBase + "/pay/" + wallet,
      [("amount", d.total), ("currency", d.currency), ("merchant_wallet", wallet),
       ("order_id", DecimalString(orderId)), ("return_url", d.receivedUrl),
       ("cancel_url", site.checkoutUrl), ("webhook_url", site.webhookUrl),
       ("store_name", site.blogName), ("customer_email", d.billingEmail)])
  }

  /** What `process_payment` does to an order it finds: the order is set
      `pending` with one note, its stock is reduced exactly once, and no
      payment is recorded. */
  function Checkout(s: OrderState): (r: OrderState)
    ensures r.status == "pending"
    ensures r.stock == s.stock - 1
    ensures r.notes == s.notes + [AwaitingPaymentNote]
    ensures r.payments == s.payments && r.paymentMethod == s.paymentMethod
  {
    StockReduced(StatusUpdated(s, "pending", AwaitingPaymentNote))
  }

  /** The note `process_refund` adds; `price` is what `wc_price($amount)`
      prints, and a reason PHP reads as false shows as "N/A". */
  function RefundNote(price: string, reason: string): (note: string)
    ensures var lead := "Refund of " + price + " requested. Reason: ";
      var shown := if Truthy(reason) then reason else "N/A";
      && |note| == |lead| + |shown| + |". Please process manually via your wallet."|
      && note[..|lead|] == lead
      && note[|lead|..|lead| + |shown|] == shown
  {
    "Refund of " + price + " requested. Reason: " + (if Truthy(reason) then reason else "N/A")
      + ". Please process manually via your wallet."
  }

  class EasePayGateway {
    const enabled: string
    const merchantWallet: string
    const apiBase: string

    /** The settings part of the constructor; hook registration is not modelled. */
    constructor (settings: map<string, string>)
      ensures enabled == GetOption(settings, "enabled", "no")
      ensures merchantWallet == GetOption(settings, "merchant_wallet", "")
      ensures apiBase == ApiBaseOf(settings)
      ensures apiBase == [] || apiBase[|apiBase| - 1] != '/'
    {
      enabled := GetOption(settings, "enabled", "no");
      merchantWallet := GetOption(settings, "merchant_wallet", "");
      apiBase := ApiBaseOf(settings);
    }

    /** `is_available()`: enabled, and a wallet that matches the pattern (the
        separate emptiness test never decides anything). */
    predicate IsAvailable()
      ensures IsAvailable() <==> enabled == "yes" && MatchesWalletPattern(merchantWallet)
    {
      if enabled != "yes" then false
      else if Empty(JString(merchantWallet)) || !MatchesWalletPattern(merchantWallet) then false
      else true
    }

    /** `process_admin_options()`: the parent saves and its answer is returned
        unchanged; `settings` are the options after that save. One error is
        added exactly when the saved wallet is rejected. */
    method ProcessAdminOptions(admin: AdminSettings, parentSaved: bool, settings: map<string, string>)
      returns (saved: bool)
      modifies admin
      ensures saved == parentSaved
      ensures var w := GetOption(settings, "merchant_wallet", "");
        admin.errors == old(admin.errors) + if WalletRejected(w) then [InvalidWalletMessage] else []
    {
      saved := parentSaved;
      var wallet := GetOption(settings, "merchant_wallet", "");
      if !Empty(JString(wallet)) && !MatchesWalletPattern(wallet) {
        admin.AddError(InvalidWalletMessage);
      }
    }

    /** `process_payment($order_id)`. A missing order fails with a notice and
        nothing else; a found one is set pending, has its stock reduced once,
        the cart is emptied, and the shopper is sent to the hosted checkout. */
    method ProcessPayment(store: Store, session: Session, site: Site, orderId: nat) returns (r: PaymentResult)
      requires store.Valid()
      modifies store`lookups, store.orders.Values, session
      ensures store.Valid()
      ensures store.lookups == old(store.lookups) + [orderId]
      ensures orderId !in store.orders ==>
        && r == PaymentFailure
        && store.States() == old(store.States())
        && session.cart == old(session.cart)
        && session.notices == old(session.notices) + [Notice(OrderNotFoundMessage, "error")]
      ensures orderId in store.orders ==>
        && r == PaymentSuccess(CheckoutRedirect(apiBase, merchantWallet, orderId, store.orders[orderId].details, site))
        && store.States() == old(store.States())[orderId := Checkout(old(store.States())[orderId])]
        && session.cart == []
        && session.notices == old(session.notices)
    {
      ghost var before := store.States();
      var found := store.Get(orderId);
      assert store.States() == before;
      if found.None? {
        session.AddNotice(OrderNotFoundMessage, "error");
        return PaymentFailure;
      }
      var order := found.value;
      var checkoutUrl := CheckoutRedirect(apiBase, merchantWallet, orderId, order.details, site);
      order.UpdateStatus("pending", AwaitingPaymentNote);
      order.ReduceStockLevels();
      session.EmptyCart();
      r := PaymentSuccess(checkoutUrl);
    }

    /** `handle_callback()`, with `body` the decoded request body. The order
        table afterwards and the answer are those of `Callback`. */
    method HandleCallback(store: Store, body: Payload) returns (r: Response)
      requires store.Valid()
      modifies store`lookups, store.orders.Values
      ensures store.Valid()
      ensures r == Callback(body, old(store.States())).response
      ensures store.States() == Callback(body, old(store.States())).orders
      ensures Callback(body, old(store.States())).lookup == None ==> store.lookups == old(store.lookups)
      ensures Callback(body, old(store.States())).lookup.Some? ==>
        store.lookups == old(store.lookups) + [Callback(body, old(store.States())).lookup.value]
    {
      ghost var before := store.States();
      var orderId := Field(body, "order_id");
      if Empty(orderId) {
        return Err(400, "Missing order_id");
      }
      var id := AbsInt(orderId);
      var found := store.Get(id);
      assert store.States() == before;
      if found.None? {
        return Err(404, "Order not found");
      }
      var order := found.value;
      var status := OptionalText(Field(body, "status"));
      var txHash := OptionalText(Field(body, "tx_hash"));

      ApplySwitch(order, ActionOf(status), txHash, LegacyCallback);
      r := Ok;
    }

    /** `process_refund($order_id, $amount, $reason)`: no money moves. A
        missing order is an error; otherwise exactly one note is added and
        status and stock stay as they were. */
    method ProcessRefund(store: Store, orderId: nat, price: string, reason: string) returns (r: RefundResult)
      requires store.Valid()
      modifies store`lookups, store.orders.Values
      ensures store.Valid()
      ensures store.lookups == old(store.lookups) + [orderId]
      ensures orderId !in store.orders ==> r == RefundError("invalid_order") && store.States() == old(store.States())
      ensures orderId in store.orders ==>
        && r == RefundRecorded
        && store.States() == old(store.States())[orderId := NoteAdded(old(store.States())[orderId], RefundNote(price, reason))]
        && store.States()[orderId].status == old(store.States())[orderId].status
        && store.States()[orderId].stock == old(store.States())[orderId].stock
    {
      ghost var before := store.States();
      var found := store.Get(orderId);
      assert store.States() == before;
      if found.None? {
        return RefundError("invalid_order");
      }
      found.value.AddOrderNote(RefundNote(price, reason));
      r := RefundRecorded;
    }
  }

  /** "0x" and 40 hex digits of either case is a wallet, and so is the same
      with one trailing newline; two newlines, or "0X", are not. */
  lemma WalletPatternEdges(digits: string)
    requires |digits| == 40 && AllHex(digits)
    ensures MatchesWalletPattern("0x" + digits)
    ensures MatchesWalletPattern("0x" + digits + "\n")
    ensures !MatchesWalletPattern("0x" + digits + "\n\n")
    ensures !MatchesWalletPattern("0X" + digits)
    ensures !MatchesWalletPattern("0x" + digits[1..])
  {
    assert forall i :: 2 <= i < 42 ==> ("0x" + digits)[i] == digits[i - 2];
    assert forall i :: 2 <= i < 42 ==> ("0x" + digits + "\n")[i] == digits[i - 2];
  }

  /** A disabled gateway is never offered, whatever the wallet. */
  lemma DisabledGatewayUnavailable(g: EasePayGateway)
    requires g.enabled != "yes"
    ensures !g.IsAvailable()
  {
  }

  /** A wallet the admin check lets through without an error still leaves the
      gateway unavailable only when it is empty ("" or "0"). */
  lemma AdminCheckAgreesWithAvailability(w: string)
    ensures !WalletRejected(w) && !MatchesWalletPattern(w) <==> w == "" || w == "0"
  {
  }

  /** Any number of trailing slashes on the configured API URL gives the same
      base. */
  lemma ApiBaseIgnoresTrailingSlashes(url: string, k: nat)
    requires url != ""
    ensures ApiBaseOf(map["api_base" := url + seq(k, _ => '/')]) == ApiBaseOf(map["api_base" := url])
  {
    RTrimIgnoresTrailingRun(url, '/', k);
  }

  /** The redirect base has exactly one slash before "pay", whatever number
      of trailing slashes the configured API URL carries. */
  lemma RedirectHasOneSlashBeforePay(settings: map<string, string>, wallet: string, orderId: nat, d: OrderDetails, site: Site)
    ensures var base := ApiBaseOf(settings);
      var url := CheckoutRedirect(base, wallet, orderId, d, site).base;
      && url[|base|..|base| + 5] == "/pay/"
      && (base == [] || url[|base| - 1] != '/')
  {
    var base := ApiBaseOf(settings);
    var url := CheckoutRedirect(base, wallet, orderId, d, site).base;
    assert url == base + "/pay/" + wallet;
    if base != [] {
      assert url[|base| - 1] == base[|base| - 1];
    }
  }

  /** After checkout, a failure delivered twice makes two
      `wc_increase_stock_levels` calls against the one reduce call: the
      stock-call counter ends one above where it started. */
  lemma CheckoutThenReplayedFailure(p: Payload, db: map<nat, OrderState>)
    requires Accepted(p, db) && StatusOf(p) in {"failed", "expired"}
    ensures var id := AbsInt(Field(p, "order_id"));
      var placed := db[id := Checkout(db[id])];
      Webhook(p, Webhook(p, placed).orders).orders[id].stock == db[id].stock + 1
  {
    var id := AbsInt(Field(p, "order_id"));
    WebhookReplayedFailureRestoresStockAgain(p, db[id := Checkout(db[id])]);
  }
}
