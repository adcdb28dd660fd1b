/**
 * The bot's order table (app/services/order.py). Order ids are autoincrement values handed
 * out from `nextId`; amounts and prices are kopecks. Timestamps are an input `now` and
 * whether the database commit succeeds is an input `commitOk`.
 */
module Orders {
  import opened Text
  import opened Catalog
  import opened CartStore
  import opened Fsm
  import opened Rows

  const PENDING := "pending"
  const PAID := "paid"
  const CANCELLED := "cancelled"

  /** The widths of the `String(n)` columns of the order row that take the customer's input. */
  const CUSTOMER_NAME_WIDTH := 255
  const CUSTOMER_PHONE_WIDTH := 20
  const CUSTOMER_EMAIL_WIDTH := 255

  /** One entry of the order's `items` JSON: a snapshot of the product when ordered. */
  datatype OrderItem = OrderItem(productId: int, name: string, model: string, price: int, quantity: int)

  datatype Order = Order(
    id: int,
    userId: int,
    opencartOrderId: Option<int>,
    paymentLabel: Option<string>,
    amount: int,
    status: string,
    customerName: Option<string>,
    customerPhone: Option<string>,
    customerEmail: Option<string>,
    deliveryAddress: Option<string>,
    deliveryComment: Option<string>,
    items: seq<OrderItem>,
    createdAt: int,
    updatedAt: int,
    paidAt: Option<int>
  )

  function SnapshotOf(item: CartItem): OrderItem
  {
    OrderItem(item.product.productId, item.product.name, item.product.model, item.product.price, item.quantity)
  }

  /** The item snapshots `create_order` builds from the cart's items, in cart order. */
  function Snapshot(items: seq<CartItem>): (r: seq<OrderItem>)
    ensures |r| == |items|
    ensures forall i :: 0 <= i < |items| ==> r[i] == SnapshotOf(items[i])
  {
    if items == [] then [] else Snapshot(items[..|items| - 1]) + [SnapshotOf(items[|items| - 1])]
  }

  /** Σ price × quantity over an order's items. */
  function ItemsTotal(items: seq<OrderItem>): int
  {
    if items == [] then 0 else ItemsTotal(items[..|items| - 1]) + items[|items| - 1].price * items[|items| - 1].quantity
  }

  /** The snapshots are worth what the cart items were: the total survives the copy. */
  lemma {:induction false} SnapshotKeepsTotal(items: seq<CartItem>)
    ensures ItemsTotal(Snapshot(items)) == PriceTotal(items)
  {
    if items != [] {
      var init := items[..|items| - 1];
      SnapshotKeepsTotal(init);
      assert Snapshot(items)[..|items| - 1] == Snapshot(init);
    }
  }

  /**
   * `delivery_data.get(key, default)` for a text column: the default when the key is absent,
   * `None` for a stored None. The checkout stores only text or None under these keys. A
   * number under one of them is refused by the database driver, so the insert fails
   * (`Insertable`) and the `None` given for it here is never stored.
   */
  function TextField(data: Data, key: string, default: Option<string>): (r: Option<string>)
    ensures key !in data ==> r == default
    ensures key in data && data[key].Str? ==> r == Some(data[key].s)
    ensures key in data && (data[key] == Null || data[key].Num?) ==> r == None
  {
    if key !in data then default
    else match data[key]
      case Null => None
      case Str(s) => Some(s)
      case Num(_) => None
  }

  predicate NotNumber(data: Data, key: string) { key !in data || !data[key].Num? }

  /** A text value that fits a `String(width)` column; `None` is NULL. */
  predicate Fits(v: Option<string>, width: nat) { v.None? || |v.value| <= width }

  /**
   * The delivery data `create_order` can insert: no number under a text column's key, and
   * name, phone and email within their column widths. Address and comment are unbounded
   * `Text` columns. Anything else makes PostgreSQL refuse the row and the call raise.
   */
  predicate Insertable(delivery: Data)
  {
    && NotNumber(delivery, "name") && NotNumber(delivery, "phone") && NotNumber(delivery, "email")
    && NotNumber(delivery, "address") && NotNumber(delivery, "comment")
    && Fits(TextField(delivery, "name", Some("")), CUSTOMER_NAME_WIDTH)
    && Fits(TextField(delivery, "phone", Some("")), CUSTOMER_PHONE_WIDTH)
    && Fits(TextField(delivery, "email", None), CUSTOMER_EMAIL_WIDTH)
  }

  /** The row `create_order` inserts: a pending order for the cart's total, with no payment yet. */
  function NewOrder(id: int, userId: int, cart: CartView, delivery: Data, now: int): (o: Order)
    ensures o.id == id && o.userId == userId && o.status == PENDING
    ensures o.amount == cart.total && o.items == Snapshot(cart.items)
    ensures o.paymentLabel == None && o.opencartOrderId == None && o.paidAt == None
    ensures o.customerName == TextField(delivery, "name", Some(""))
    ensures o.customerPhone == TextField(delivery, "phone", Some(""))
    ensures o.customerEmail == TextField(delivery, "email", None)
    ensures o.deliveryAddress == TextField(delivery, "address", None)
    ensures o.deliveryComment == TextField(delivery, "comment", None)
  {
    Order(id, userId, None, None, cart.total, PENDING,
          TextField(delivery, "name", Some("")), TextField(delivery, "phone", Some("")),
          TextField(delivery, "email", None), TextField(delivery, "address", None),
          TextField(delivery, "comment", None), Snapshot(cart.items), now, now, None)
  }

  /**
   * For a cart as `get_cart` computes it, the amount charged equals the value of the items
   * recorded in the order.
   */
  lemma AmountMatchesItems(id: int, userId: int, cart: CartView, delivery: Data, now: int)
    requires cart.total == PriceTotal(cart.items)
    ensures var o := NewOrder(id, userId, cart, delivery, now); o.amount == ItemsTotal(o.items)
  {
    SnapshotKeepsTotal(cart.items);
  }

  /**
   * The row after `update_status`: the new status, `paid_at` stamped exactly when the new
   * status is "paid", and every other column as it was (there is no transition guard).
   */
  function WithStatus(o: Order, status: string, now: int): (r: Order)
    ensures r.status == status && r.updatedAt == now
    ensures r.paidAt == if status == PAID then Some(now) else o.paidAt
    ensures r.(status := o.status, updatedAt := o.updatedAt, paidAt := o.paidAt) == o
  {
    o.(status := status, updatedAt := now, paidAt := if status == PAID then Some(now) else o.paidAt)
  }

  class OrderService {
    var orders: map<int, Order>
    /** The id the next inserted order receives. */
    var nextId: int

    ghost predicate Valid()
      reads this
    {
      nextId >= 1 && forall id :: id in orders ==> orders[id].id == id && 1 <= id < nextId
    }

    constructor()
      ensures Valid() && orders == map[] && nextId == 1
    {
      orders := map[];
      nextId := 1;
    }

    /** `get_order` and `get_order_with_user` */
    function GetOrder(id: int): (r: Option<Order>)
      reads this
      ensures r.Some? <==> id in orders
      ensures r.Some? ==> r.value == orders[id]
    {
      if id in orders then Some(orders[id]) else None
    }

    /**
     * `create_order`: snapshots the cart items in a loop and inserts a pending order under
     * the next id. A failed commit, or a row the database refuses, rolls back and the
     * exception propagates.
     */
    method CreateOrder(userId: int, cart: CartView, delivery: Data, now: int, commitOk: bool) returns (r: Call<Order>)
      requires Valid()
      modifies this
      ensures Valid()
      ensures r.Returned? <==> commitOk && Insertable(delivery)
      ensures r.Returned? ==>
        && r.value == NewOrder(old(nextId), userId, cart, delivery, now)
        && orders == old(orders)[old(nextId) := r.value]
        && nextId == old(nextId) + 1
      ensures r.Raised? ==> orders == old(orders) && nextId == old(nextId)
    {
      var items: seq<OrderItem> := [];
      var i := 0;
      while i < |cart.items|
        invariant 0 <= i <= |cart.items|
        invariant items == Snapshot(cart.items[..i])
      {
        assert cart.items[..i + 1][..i] == cart.items[..i];
        items := items + [SnapshotOf(cart.items[i])];
        i := i + 1;
      }
      assert cart.items[..|cart.items|] == cart.items;
      if !commitOk || !Insertable(delivery) {
        return Raised;
      }
      var order := Order(nextId, userId, None, None, cart.total, PENDING,
                         TextField(delivery, "name", Some("")), TextField(delivery, "phone", Some("")),
                         TextField(delivery, "email", None), TextField(delivery, "address", None),
                         TextField(delivery, "comment", None), items, now, now, None);
      orders := orders[nextId := order];
      nextId := nextId + 1;
      r := Returned(order);
    }

    /** `update_status`: a missing id is no error; a failed commit rolls back. */
    method UpdateStatus(id: int, status: string, now: int, commitOk: bool) returns (ok: bool)
      requires Valid()
      modifies this
      ensures Valid() && ok == commitOk && nextId == old(nextId)
      ensures orders == if commitOk && id in old(orders)
        then old(orders)[id := WithStatus(old(orders)[id], status, now)]
        else old(orders)
    {
      if commitOk && id in orders {
        orders := orders[id := WithStatus(orders[id], status, now)];
      }
      ok := commitOk;
    }

    /** `update_payment_label`: records the payment label of the order. */
    method UpdatePaymentLabel(id: int, paymentLabel: string, now: int, commitOk: bool) returns (ok: bool)
      requires Valid()
      modifies this
      ensures Valid() && ok == commitOk && nextId == old(nextId)
      ensures orders == if commitOk && id in old(orders)
        then old(orders)[id := old(orders)[id].(paymentLabel := Some(paymentLabel), updatedAt := now)]
        else old(orders)
    {
      if commitOk && id in orders {
        orders := orders[id := orders[id].(paymentLabel := Some(paymentLabel), updatedAt := now)];
      }
      ok := commitOk;
    }

    /** `update_opencart_order_id`: links the order to the storefront's order. */
    method UpdateOpencartOrderId(id: int, opencartOrderId: int, now: int, commitOk: bool) returns (ok: bool)
      requires Valid()
      modifies this
      ensures Valid() && ok == commitOk && nextId == old(nextId)
      ensures orders == if commitOk && id in old(orders)
        then old(orders)[id := old(orders)[id].(opencartOrderId := Some(opencartOrderId), updatedAt := now)]
        else old(orders)
    {
      if commitOk && id in orders {
        orders := orders[id := orders[id].(opencartOrderId := Some(opencartOrderId), updatedAt := now)];
      }
      ok := commitOk;
    }

    /**
     * The stored orders that `keep` accepts, newest first, at most `limit`: every one listed
     * is accepted and stored, and an accepted order left out is older than all listed ones
     * and the limit was reached.
     */
    ghost predicate NewestAccepted(r: seq<Order>, keep: Order -> bool, limit: nat)
      reads this
    {
      && |r| <= limit
      && (forall i :: 0 <= i < |r| ==> r[i].id in orders && orders[r[i].id] == r[i] && keep(r[i]))
      && (forall i, j :: 0 <= i < j < |r| ==> r[i].id > r[j].id)
      && (forall id :: id in orders && keep(orders[id]) && (forall i :: 0 <= i < |r| ==> r[i].id != id) ==>
            |r| == limit && forall i :: 0 <= i < |r| ==> r[i].id > id)
    }

    function Newest(keep: Order -> bool, limit: nat): (r: seq<Order>)
      reads this
      requires Valid()
      ensures NewestAccepted(r, keep, limit)
    {
      NewestRows(orders, nextId, keep, limit, (x: Order) => x.id)
    }

    /** `get_user_orders` (default limit 10) */
    function GetUserOrders(userId: int, limit: nat): (r: seq<Order>)
      reads this
      requires Valid()
      ensures NewestAccepted(r, (o: Order) => o.userId == userId, limit)
    {
      Newest((o: Order) => o.userId == userId, limit)
    }

    /** `get_recent_orders` (default limit 20) */
    function GetRecentOrders(limit: nat): (r: seq<Order>)
      reads this
      requires Valid()
      ensures NewestAccepted(r, (o: Order) => true, limit)
    {
      Newest((o: Order) => true, limit)
    }

    /** `get_pending_orders`: every pending order, newest first. */
    function GetPendingOrders(): (r: seq<Order>)
      reads this
      requires Valid()
      ensures forall i :: 0 <= i < |r| ==> r[i].id in orders && orders[r[i].id] == r[i] && r[i].status == PENDING
      ensures forall i, j :: 0 <= i < j < |r| ==> r[i].id > r[j].id
      ensures forall id :: id in orders && orders[id].status == PENDING ==> orders[id] in r
    {
      AcceptedRows(orders, nextId, (o: Order) => o.status == PENDING, (o: Order) => o.id)
    }
  }
}
