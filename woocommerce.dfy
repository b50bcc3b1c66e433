/** The WooCommerce objects the plugin changes, reduced to what the plugin
    can observe of them.  The WooCommerce calls it makes (`payment_complete`,
    `update_status`, `add_order_note`, `wc_reduce_stock_levels`,
    `wc_increase_stock_levels`, `wc_get_order`, emptying the cart, adding a
    notice or an admin error) are opaque; each is one abstract step, defined
    once as a function on the order's value and performed by one method. */
module WooCommerce {

  datatype Option<T> = None | Some(value: T)

  /** What the plugin can see of an order and of the steps applied to it.
      `status` is the status the plugin itself last set with `update_status`
      (or the order's status before any such call): the transition that
      `payment_complete` makes is WooCommerce's own and is not in it.
      `stock` counts the stock calls made for the order, not units on the
      shelf: each `wc_reduce_stock_levels` call is -1 and each
      `wc_increase_stock_levels` call +1, whatever those functions then do.
      `payments` lists the transaction ids passed to `payment_complete`, one
      entry per call, so an order has been marked paid exactly when it is
      non-empty. */
  datatype OrderState = OrderState(
    status: string,
    paymentMethod: string,
    stock: int,
    payments: seq<string>,
    notes: seq<string>)

  /** The order fields the checkout redirect reads and nothing changes:
      `get_total`, `get_currency`, `get_billing_email`, and the "order
      received" page that `get_return_url($order)` gives. */
  datatype OrderDetails = OrderDetails(total: string, currency: string, billingEmail: string, receivedUrl: string)

  /** `$order->payment_complete($tx)`: recorded as a call carrying `tx`. The
      status WooCommerce then moves the order to (processing or completed)
      is its own, so `status` keeps what the plugin last set. */
  function PaymentCompleted(s: OrderState, tx: string): OrderState
  {
    s.(payments := s.payments + [tx])
  }

  /** `$order->update_status($to, $note)`. */
  function StatusUpdated(s: OrderState, to: string, note: string): OrderState
  {
    s.(status := to, notes := s.notes + [note])
  }

  /** `$order->add_order_note($note)`. */
  function NoteAdded(s: OrderState, note: string): OrderState
  {
    s.(notes := s.notes + [note])
  }

  /** `wc_reduce_stock_levels($order_id)`. */
  function StockReduced(s: OrderState): OrderState
  {
    s.(stock := s.stock - 1)
  }

  /** `wc_increase_stock_levels($order_id)`. */
  function StockIncreased(s: OrderState): OrderState
  {
    s.(stock := s.stock + 1)
  }

  class Order {
    const id: nat
    const paymentMethod: string
    const details: OrderDetails
    var status: string
    var stock: int
    var payments: seq<string>
    var notes: seq<string>

    constructor (id: nat, paymentMethod: string, details: OrderDetails, status: string)
      ensures this.id == id && this.details == details
      ensures State() == OrderState(status, paymentMethod, 0, [], [])
    {
      this.id := id;
      this.paymentMethod := paymentMethod;
      this.details := details;
      this.status := status;
      stock := 0;
      payments := [];
      notes := [];
    }

    function State(): OrderState
      reads this
    {
      OrderState(status, paymentMethod, stock, payments, notes)
    }

    method PaymentComplete(tx: string)
      modifies this
      ensures State() == PaymentCompleted(old(State()), tx)
    {
      payments := payments + [tx];
    }

    method UpdateStatus(to: string, note: string)
      modifies this
      ensures State() == StatusUpdated(old(State()), to, note)
    {
      status := to;
      notes := notes + [note];
    }

    method AddOrderNote(note: string)
      modifies this
      ensures State() == NoteAdded(old(State()), note)
    {
      notes := notes + [note];
    }

    method ReduceStockLevels()
      modifies this
      ensures State() == StockReduced(old(State()))
    {
      stock := stock - 1;
    }

    method IncreaseStockLevels()
      modifies this
      ensures State() == StockIncreased(old(State()))
    {
      stock := stock + 1;
    }
  }

  /** The order table behind `wc_get_order`. Ids are positive (so
      `wc_get_order(0)` finds nothing) and each id names its own order. */
  class Store {
    var orders: map<nat, Order>
    /** Every id `wc_get_order` was asked for, in order. */
    ghost var lookups: seq<nat>

    ghost predicate Valid()
      reads this`orders
    {
      0 !in orders && forall k :: k in orders ==> orders[k].id == k
    }

    /** The value of every order. */
    function States(): (m: map<nat, OrderState>)
      reads this`orders, orders.Values
      ensures m.Keys == orders.Keys
    {
      map k | k in orders :: orders[k].State()
    }

    /** `wc_get_order($id)`: the order, or nothing (PHP `false`). */
    method Get(id: nat) returns (o: Option<Order>)
      modifies this`lookups
      ensures lookups == old(lookups) + [id]
      ensures o == if id in orders then Some(orders[id]) else None
    {
      lookups := lookups + [id];
      o := if id in orders then Some(orders[id]) else None;
    }
  }

  datatype CartLine = CartLine(productId: nat, quantity: nat)

  datatype Notice = Notice(message: string, kind: string)

  /** The shopper's session: `WC()->cart` and the notices `wc_add_notice` queues. */
  class Session {
    var cart: seq<CartLine>
    var notices: seq<Notice>

    /** `WC()->cart->empty_cart()`. */
    method EmptyCart()
      modifies this
      ensures cart == [] && notices == old(notices)
    {
      cart := [];
    }

    /** `wc_add_notice($message, $kind)`. */
    method AddNotice(message: string, kind: string)
      modifies this
      ensures cart == old(cart) && notices == old(notices) + [Notice(message, kind)]
    {
      notices := notices + [Notice(message, kind)];
    }
  }

  /** The error list `WC_Admin_Settings::add_error` appends to. */
  class AdminSettings {
    var errors: seq<string>

    method AddError(message: string)
      modifies this
      ensures errors == old(errors) + [message]
    {
      errors := errors + [message];
    }
  }
}
