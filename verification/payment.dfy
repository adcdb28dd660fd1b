/**
 * The payment handlers (app/handlers/payment.py): turning a confirmed checkout into an
 * order, reconciling it with the gateway's verdict, mirroring a paid order into the
 * storefront, and cancelling. The gateway and the storefront API are inputs: the
 * verdict of the payment check, and what the storefront answers to the customer and order
 * requests (or that the call raised). The requests themselves are returned so that their
 * contents can be stated.
 */
module Payment {
  import opened Text
  import opened Catalog
  import opened Fsm
  import opened CartStore
  import opened Users
  import opened Orders
  import opened Checkout

  /** What the gateway says about an order's payment; anything but success or pending is an error. */
  datatype Verdict = Success | Pending | Failure

  /** A storefront API call: it raised, or it answered with an id field that may be missing. */
  datatype StoreReply = StoreFailed | StoreReplied(id: Option<int>)

  datatype ConfirmResult = CartWasEmpty | OrderFailed | PaymentFailed(orderId: int) | AwaitingPayment(orderId: int)

  /**
   * The answers of `check_payment`. `CheckRaised` is its except branch ("Произошла ошибка
   * при проверке оплаты"), taken when the status update rolled back: the rollback expires
   * the loaded order, and the next read of it raises.
   */
  datatype CheckResult = OrderNotFound | AlreadyPaid | PaymentConfirmed | PaymentPending | CheckFailed | CheckRaised

  /** The answers of `cancel_payment`; `CancelRaised` is its except branch, for the same reason. */
  datatype CancelResult = CancelNotFound | CancelRefused | OrderCancelledByUser | CancelRaised

  const DELIVERY := "Доставка"
  const MIRROR_STATUS_PROCESSING := 2

  /** Python truthiness of an optional integer id. */
  predicate IdTruthy(o: Option<int>) { o.Some? && o.value != 0 }

  /** `a or default` for an optional text column. */
  function TextOr(a: Option<string>, default: string): (r: string)
    ensures Truthy(a) ==> r == a.value
    ensures !Truthy(a) ==> r == default
  {
    if Truthy(a) then a.value else default
  }

  /** The address used when the customer gave no email. */
  function FallbackEmail(userId: int): (r: string)
    ensures r != "" && '@' in r
  {
    var r := "tg" + IntToString(userId) + "@wifiobd.ru";
    assert r[|r| - 11] == '@';
    r
  }

  datatype CustomerRequest = CustomerRequest(firstname: Option<string>, lastname: string, email: string, telephone: string)

  datatype StoreProduct = StoreProduct(productId: int, name: string, model: string, quantity: int, price: int)

  datatype StoreOrderRequest = StoreOrderRequest(
    customerId: int,
    firstname: string,
    lastname: string,
    email: string,
    telephone: string,
    paymentMethod: string,
    shippingMethod: string,
    comment: string,
    products: seq<StoreProduct>,
    address: string,       // payment and shipping address line 1
    city: string,
    country: string,
    orderStatusId: int
  )

  /** The customer created in the storefront for a user that has none yet. */
  function CustomerRequestFor(o: Order, u: User): (r: CustomerRequest)
    ensures r.firstname == if Truthy(o.customerName) then o.customerName else u.firstName
    ensures r.email == TextOr(o.customerEmail, FallbackEmail(u.id)) && r.email != ""
    ensures r.telephone == TextOr(o.customerPhone, "")
  {
    CustomerRequest(if Truthy(o.customerName) then o.customerName else u.firstName, "Customer",
                    TextOr(o.customerEmail, FallbackEmail(u.id)), TextOr(o.customerPhone, ""))
  }

  function StoreProductOf(item: OrderItem): StoreProduct
  {
    StoreProduct(item.productId, item.name, item.model, item.quantity, item.price)
  }

  /** The `oc_products` list: one entry per order item, in order. */
  function ProductsOf(items: seq<OrderItem>): (r: seq<StoreProduct>)
    ensures |r| == |items|
    ensures forall i :: 0 <= i < |items| ==> r[i] == StoreProductOf(items[i])
  {
    if items == [] then [] else ProductsOf(items[..|items| - 1]) + [StoreProductOf(items[|items| - 1])]
  }

  /** Σ price × quantity over the mirrored products. */
  function ProductsTotal(products: seq<StoreProduct>): int
  {
    if products == [] then 0
    else ProductsTotal(products[..|products| - 1]) + products[|products| - 1].price * products[|products| - 1].quantity
  }

  lemma {:induction false} ProductsKeepTotal(items: seq<OrderItem>)
    ensures ProductsTotal(ProductsOf(items)) == ItemsTotal(items)
  {
    if items != [] {
      ProductsKeepTotal(items[..|items| - 1]);
      assert ProductsOf(items)[..|items| - 1] == ProductsOf(items[..|items| - 1]);
    }
  }

  /**
   * The order mirrored into the storefront: the linked customer id or 0, a name that is
   * never empty, the email fallback, pickup exactly when the stored address is the pickup
   * marker, and the order's items.
   */
  function OrderRequestFor(o: Order, u: User, customerId: Option<int>): (r: StoreOrderRequest)
    ensures r.customerId == if IdTruthy(customerId) then customerId.value else 0
    ensures r.firstname != "" && r.email != ""
    ensures Truthy(o.customerName) ==> r.firstname == o.customerName.value
    ensures r.email == TextOr(o.customerEmail, FallbackEmail(u.id))
    ensures r.telephone == TextOr(o.customerPhone, "")
    ensures r.shippingMethod == PICKUP <==> o.deliveryAddress == Some(PICKUP)
    ensures r.shippingMethod == PICKUP || r.shippingMethod == DELIVERY
    ensures r.products == ProductsOf(o.items)
    ensures r.orderStatusId == MIRROR_STATUS_PROCESSING
  {
    var name := TextOr(o.customerName, TextOr(u.firstName, "Customer"));
    StoreOrderRequest(
      if IdTruthy(customerId) then customerId.value else 0,
      name, "Telegram", TextOr(o.customerEmail, FallbackEmail(u.id)), TextOr(o.customerPhone, ""),
      "YooMoney", if o.deliveryAddress == Some(PICKUP) then PICKUP else DELIVERY,
      TextOr(o.deliveryComment, ""), ProductsOf(o.items), TextOr(o.deliveryAddress, ""),
      "Moscow", "Russia", MIRROR_STATUS_PROCESSING)
  }

  /**
   * An order placed from a confirmed checkout carries the validated details: a phone with
   * at least ten digits, an address that is the pickup marker or at least ten characters
   * long, and an email that is absent or has '@' and '.'.
   */
  lemma ConfirmedOrderCarriesDraft(id: int, userId: int, cart: CartView, data: Data, now: int)
    requires DraftValid(Confirm, data)
    ensures var o := NewOrder(id, userId, cart, data, now);
      && o.customerPhone.Some? && ValidPhone(o.customerPhone.value)
      && o.deliveryAddress.Some? && (o.deliveryAddress.value == PICKUP || ValidAddress(o.deliveryAddress.value))
      && (o.customerEmail.None? || ValidEmail(o.customerEmail.value))
  {
  }

  /**
   * The storefront sees the customer's phone exactly as typed, with at least ten digits,
   * and ships by pickup exactly when the address step was skipped: a typed address has at
   * least ten characters and the pickup marker has nine.
   */
  lemma MirrorOfConfirmedOrder(id: int, userId: int, cart: CartView, data: Data, now: int, u: User, customerId: Option<int>)
    requires DraftValid(Confirm, data)
    ensures var r := OrderRequestFor(NewOrder(id, userId, cart, data, now), u, customerId);
      && r.telephone == data["phone"].s && ValidPhone(r.telephone)
      && (r.shippingMethod == PICKUP <==> data["address"] == Str(PICKUP))
  {
    var p := data["phone"].s;
    assert |DigitsOf(p)| >= MIN_PHONE_DIGITS;
    assert |PICKUP| == 9;
  }

  /** The storefront order is worth what the customer was charged. */
  lemma MirrorTotalIsAmount(id: int, userId: int, cart: CartView, data: Data, now: int, u: User, customerId: Option<int>)
    requires cart.total == PriceTotal(cart.items)
    ensures var o := NewOrder(id, userId, cart, data, now);
      ProductsTotal(OrderRequestFor(o, u, customerId).products) == o.amount
  {
    var o := NewOrder(id, userId, cart, data, now);
    AmountMatchesItems(id, userId, cart, data, now);
    ProductsKeepTotal(o.items);
  }

  /**
   * `confirm_and_create_order` (in the confirm state): an empty cart creates nothing; else
   * the order is created, a payment is requested from the gateway (`paymentLabel` is its
   * label, or `None` when the request raised) and the label is recorded. The conversation
   * is cleared on every path.
   */
  method ConfirmAndCreateOrder(ctx: FsmContext, carts: CartService, catalog: Catalog, orders: OrderService,
                               userId: int, paymentLabel: Option<string>, now: int, commitOk: bool)
    returns (r: ConfirmResult, ghost view: CartView)
    requires ctx.state == Confirm && orders.Valid()
    modifies ctx, orders
    ensures ctx.state == NoState && ctx.data == map[]
    ensures orders.Valid()
    ensures ViewOf(view.items, carts.Lines(userId), catalog) && view.total == PriceTotal(view.items)
    ensures view.items == [] ==> r == CartWasEmpty
    ensures r.CartWasEmpty? || r.OrderFailed? ==> orders.orders == old(orders.orders) && orders.nextId == old(orders.nextId)
    ensures view.items != [] && !(commitOk && Insertable(old(ctx.data))) ==> r == OrderFailed
    ensures view.items != [] && commitOk && Insertable(old(ctx.data)) ==>
      var o := NewOrder(old(orders.nextId), userId, view, old(ctx.data), now);
      && orders.nextId == old(orders.nextId) + 1
      && r == (if paymentLabel.Some? then AwaitingPayment(o.id) else PaymentFailed(o.id))
      && orders.orders == old(orders.orders)[o.id :=
           if paymentLabel.Some? then o.(paymentLabel := paymentLabel, updatedAt := now) else o]
  {
    var data := ctx.data;
    var cart := carts.GetCart(userId, catalog);
    view := cart;
    if cart.items == [] {
      ctx.state, ctx.data := NoState, map[];
      return CartWasEmpty, view;
    }
    var created := orders.CreateOrder(userId, cart, data, now, commitOk);
    if created.Raised? {
      ctx.state, ctx.data := NoState, map[];
      return OrderFailed, view;
    }
    var order := created.value;
    if paymentLabel.None? {
      ctx.state, ctx.data := NoState, map[];
      return PaymentFailed(order.id), view;
    }
    var ok := orders.UpdatePaymentLabel(order.id, paymentLabel.value, now, commitOk);
    ctx.state, ctx.data := NoState, map[];
    r := AwaitingPayment(order.id);
  }

  /** The `oc_products` loop of `check_payment`. */
  method BuildProducts(items: seq<OrderItem>) returns (products: seq<StoreProduct>)
    ensures products == ProductsOf(items)
  {
    products := [];
    var i := 0;
    while i < |items|
      invariant 0 <= i <= |items|
      invariant products == ProductsOf(items[..i])
    {
      assert items[..i + 1][..i] == items[..i];
      products := products + [StoreProductOf(items[i])];
      i := i + 1;
    }
    assert items[..|items|] == items;
  }

  /** The storefront customer id the mirror order uses once the customer step is done. */
  function LinkedCustomer(u: User, customerReply: StoreReply): Option<int>
  {
    if !IdTruthy(u.opencartCustomerId) && customerReply.StoreReplied? && IdTruthy(customerReply.id)
    then customerReply.id else u.opencartCustomerId
  }

  /**
   * `check_payment`. Not found, already paid, pending and error change nothing. On
   * success the order is marked paid, then its owner's cart is cleared, then the order is
   * mirrored into the storefront as far as the storefront's answers allow; a failure
   * while mirroring is swallowed and the order stays paid. A rolled-back status update
   * ends in the except branch: the cart is kept and nothing is mirrored. One `commitOk`
   * stands for every commit of the call, so mirroring runs only after a successful update.
   */
  method CheckPayment(orders: OrderService, users: UserService, carts: CartService, orderId: int, verdict: Verdict,
                      customerReply: StoreReply, orderReply: StoreReply, now: int, commitOk: bool)
    returns (r: CheckResult, customerSent: Option<CustomerRequest>, orderSent: Option<StoreOrderRequest>)
    requires orders.Valid() && users.Valid() && carts.Valid()
    modifies orders, users, carts
    ensures orders.Valid() && users.Valid() && carts.Valid()
    ensures orders.nextId == old(orders.nextId) && users.joined == old(users.joined)
    ensures r == PaymentConfirmed <==>
      orderId in old(orders.orders) && old(orders.orders)[orderId].status != PAID && verdict == Success && commitOk
    ensures r == CheckRaised <==>
      orderId in old(orders.orders) && old(orders.orders)[orderId].status != PAID && verdict == Success && !commitOk
    ensures orderId !in old(orders.orders) ==> r == OrderNotFound
    ensures orderId in old(orders.orders) && old(orders.orders)[orderId].status == PAID ==> r == AlreadyPaid
    ensures r != PaymentConfirmed ==>
      && orders.orders == old(orders.orders) && users.users == old(users.users) && carts.store == old(carts.store)
      && customerSent == None && orderSent == None
    ensures r == PaymentConfirmed ==>
      var o := old(orders.orders)[orderId];
      var paid := old(orders.orders)[orderId := WithStatus(o, PAID, now)];
      && carts.Lines(o.userId) == map[]
      && (forall other :: other != o.userId ==> carts.Lines(other) == old(carts.Lines(other)))
      && (o.userId !in old(users.users) ==>
            customerSent == None && orderSent == None && users.users == old(users.users) && orders.orders == paid)
      && (o.userId in old(users.users) ==>
            var u := old(users.users)[o.userId];
            var creates := !IdTruthy(u.opencartCustomerId);
            var proceeds := !creates || customerReply.StoreReplied?;
            var linked := LinkedCustomer(u, customerReply);
            && customerSent == (if creates then Some(CustomerRequestFor(o, u)) else None)
            && users.users == (if linked != u.opencartCustomerId
                               then old(users.users)[o.userId := u.(opencartCustomerId := linked, updatedAt := now)]
                               else old(users.users))
            && orderSent == (if proceeds then Some(OrderRequestFor(o, u, linked)) else None)
            && orders.orders == (if proceeds && orderReply.StoreReplied? && IdTruthy(orderReply.id)
                                 then paid[orderId := paid[orderId].(opencartOrderId := orderReply.id, updatedAt := now)]
                                 else paid))
  {
    customerSent, orderSent := None, None;
    var found := orders.GetOrder(orderId);
    if found.None? {
      return OrderNotFound, customerSent, orderSent;
    }
    var order := found.value;
    if order.status == PAID {
      return AlreadyPaid, customerSent, orderSent;
    }
    if verdict == Pending {
      return PaymentPending, customerSent, orderSent;
    } else if verdict == Failure {
      return CheckFailed, customerSent, orderSent;
    }
    var statusOk := orders.UpdateStatus(order.id, PAID, now, commitOk);
    if !statusOk {
      return CheckRaised, customerSent, orderSent;
    }
    var cleared := carts.ClearCart(order.userId);
    forall other | other != order.userId ensures carts.Lines(other) == old(carts.Lines(other)) {
      carts.OtherCartsUnchanged(old(carts.store), order.userId, other);
    }
    r := PaymentConfirmed;
    // Mirroring into the storefront; every failure below ends it and is swallowed.
    var user := users.GetUser(order.userId);
    if user.None? {
      return;
    }
    var u := user.value;
    customerSent, orderSent := MirrorOrder(orders, users, order, u, customerReply, orderReply, now, commitOk);
  }

  /**
   * The storefront half of `check_payment`, for a paid order whose owner has a profile:
   * a profile without a storefront id first creates the customer, and a failed creation
   * ends the mirroring; a returned customer id is linked to the profile. The order request
   * goes out next, and a returned order id is recorded on the order.
   */
  method MirrorOrder(orders: OrderService, users: UserService, order: Order, u: User,
                     customerReply: StoreReply, orderReply: StoreReply, now: int, commitOk: bool)
    returns (customerSent: Option<CustomerRequest>, orderSent: Option<StoreOrderRequest>)
    requires orders.Valid() && users.Valid() && order.id in orders.orders && u.id in users.users && users.users[u.id] == u
    modifies orders, users
    ensures orders.Valid() && users.Valid() && orders.nextId == old(orders.nextId) && users.joined == old(users.joined)
    ensures var creates := !IdTruthy(u.opencartCustomerId);
      var proceeds := !creates || customerReply.StoreReplied?;
      var linked := LinkedCustomer(u, customerReply);
      && customerSent == (if creates then Some(CustomerRequestFor(order, u)) else None)
      && users.users == (if commitOk && linked != u.opencartCustomerId
                         then old(users.users)[u.id := u.(opencartCustomerId := linked, updatedAt := now)]
                         else old(users.users))
      && orderSent == (if proceeds then Some(OrderRequestFor(order, u, linked)) else None)
      && orders.orders == (if commitOk && proceeds && orderReply.StoreReplied? && IdTruthy(orderReply.id)
                           then old(orders.orders)[order.id := old(orders.orders)[order.id].(opencartOrderId := orderReply.id, updatedAt := now)]
                           else old(orders.orders))
  {
    customerSent, orderSent := None, None;
    var customerId := u.opencartCustomerId;
    if !IdTruthy(customerId) {
      customerSent := Some(CustomerRequestFor(order, u));
      if customerReply.StoreFailed? {
        return;
      }
      if IdTruthy(customerReply.id) {
        var linkOk := users.UpdateOpencartId(u.id, customerReply.id.value, now, commitOk);
        customerId := customerReply.id;
      }
    }
    var products := BuildProducts(order.items);
    var request := StoreOrderRequest(
      if IdTruthy(customerId) then customerId.value else 0,
      TextOr(order.customerName, TextOr(u.firstName, "Customer")), "Telegram",
      TextOr(order.customerEmail, FallbackEmail(u.id)), TextOr(order.customerPhone, ""),
      "YooMoney", if order.deliveryAddress == Some(PICKUP) then PICKUP else DELIVERY,
      TextOr(order.deliveryComment, ""), products, TextOr(order.deliveryAddress, ""),
      "Moscow", "Russia", MIRROR_STATUS_PROCESSING);
    orderSent := Some(request);
    if orderReply.StoreReplied? && IdTruthy(orderReply.id) {
      var mirrorOk := orders.UpdateOpencartOrderId(order.id, orderReply.id.value, now, commitOk);
    }
  }

  /**
   * `cancel_payment`: only a paid order is refused; any other status becomes "cancelled".
   * A rolled-back update ends in the except branch before the cancellation is announced.
   */
  method CancelPayment(orders: OrderService, orderId: int, now: int, commitOk: bool) returns (r: CancelResult)
    requires orders.Valid()
    modifies orders
    ensures orders.Valid() && orders.nextId == old(orders.nextId)
    ensures orderId !in old(orders.orders) ==> r == CancelNotFound && orders.orders == old(orders.orders)
    ensures orderId in old(orders.orders) && old(orders.orders)[orderId].status == PAID ==>
      r == CancelRefused && orders.orders == old(orders.orders)
    ensures orderId in old(orders.orders) && old(orders.orders)[orderId].status != PAID && commitOk ==>
      && r == OrderCancelledByUser
      && orders.orders == old(orders.orders)[orderId := WithStatus(old(orders.orders)[orderId], CANCELLED, now)]
    ensures orderId in old(orders.orders) && old(orders.orders)[orderId].status != PAID && !commitOk ==>
      r == CancelRaised && orders.orders == old(orders.orders)
  {
    var found := orders.GetOrder(orderId);
    if found.None? {
      return CancelNotFound;
    }
    if found.value.status == PAID {
      return CancelRefused;
    }
    var ok := orders.UpdateStatus(found.value.id, CANCELLED, now, commitOk);
    r := if ok then OrderCancelledByUser else CancelRaised;
  }
}
