/**
 * The cart buttons of the bot (app/handlers/cart.py): add, increase, decrease, remove and
 * clear, as operations on the cart store. Message texts and keyboards are not modelled;
 * each handler returns which answers it gives, in order. After a change the increase,
 * decrease and remove handlers redraw the cart with `format_cart_summary`, which raises
 * for a cart with items, so their error branch answers "Произошла ошибка" as well.
 */
module CartHandlers {
  import opened Text
  import opened Catalog
  import opened CartStore
  import opened Formatting

  datatype AddResult = ProductNotFound | OutOfStock | Added(count: int)

  /** The callback answers of the cart buttons; `Failed` is the error branch's "Произошла ошибка". */
  datatype Answer = NotInCart | QuantityChanged(quantity: int) | LineRemoved | Failed

  /** Whether the user's cart, as `get_cart` shows it, has items: some stored product resolves. */
  predicate ShowsItems(lines: map<int, Line>, catalog: Catalog)
  {
    lines.Keys * catalog.Keys != {}
  }

  /** What the redraw adds to the answers: the error answer when the summary of a non-empty cart raises. */
  function AfterRedraw(lines: map<int, Line>, catalog: Catalog): seq<Answer>
  {
    if ShowsItems(lines, catalog) then [Failed] else []
  }

  /**
   * The quantity the handlers' lookup loop finds: that of the first item for the product,
   * or 0 when no item has it.
   */
  function QuantityIn(items: seq<CartItem>, productId: int): int
  {
    if items == [] then 0
    else if items[0].productId == productId then items[0].quantity
    else QuantityIn(items[1..], productId)
  }

  /** The quantity of a product as `get_cart` shows it: 0 unless stored and resolvable. */
  ghost function VisibleQuantity(lines: map<int, Line>, catalog: Catalog, productId: int): int
  {
    if productId in lines && productId in catalog then lines[productId].quantity else 0
  }

  /** The for/break loop of `cart_increase_quantity` and `cart_decrease_quantity`. */
  method FindQuantity(items: seq<CartItem>, productId: int) returns (quantity: int)
    ensures quantity == QuantityIn(items, productId)
  {
    quantity := 0;
    var i := 0;
    while i < |items|
      invariant 0 <= i <= |items|
      invariant QuantityIn(items, productId) == QuantityIn(items[i..], productId)
    {
      assert items[i..][1..] == items[i + 1..];
      if items[i].productId == productId {
        quantity := items[i].quantity;
        break;
      }
      i := i + 1;
    }
  }

  /** On a view of the cart, the lookup finds exactly the stored quantity of a resolvable product. */
  lemma {:induction false} QuantityInView(items: seq<CartItem>, lines: map<int, Line>, catalog: Catalog, productId: int)
    requires ViewOf(items, lines, catalog)
    ensures QuantityIn(items, productId) == VisibleQuantity(lines, catalog, productId)
  {
    if productId in lines && productId in catalog {
      assert productId in ItemIds(items);
      var k :| 0 <= k < |items| && items[k].productId == productId;
      FirstMatch(items, productId, k);
    } else {
      NoMatch(items, productId);
    }
  }

  lemma {:induction false} FirstMatch(items: seq<CartItem>, productId: int, k: int)
    requires 0 <= k < |items| && items[k].productId == productId
    requires forall i :: 0 <= i < k ==> items[i].productId != productId
    ensures QuantityIn(items, productId) == items[k].quantity
  {
    if k > 0 {
      FirstMatch(items[1..], productId, k - 1);
    }
  }

  lemma {:induction false} NoMatch(items: seq<CartItem>, productId: int)
    requires productId !in ItemIds(items)
    ensures QuantityIn(items, productId) == 0
  {
    if items != [] {
      assert items[0].productId in ItemIds(items);
      assert ItemIds(items[1..]) <= ItemIds(items) by {
        forall id | id in ItemIds(items[1..]) ensures id in ItemIds(items) {
          var i :| 0 <= i < |items[1..]| && items[1..][i].productId == id;
          assert items[i + 1].productId == id;
        }
      }
      NoMatch(items[1..], productId);
    }
  }

  /**
   * `add_to_cart`: an unknown product or one out of stock leaves the cart as it is;
   * otherwise exactly one unit is added and the answer carries the number of lines.
   */
  method AddToCart(carts: CartService, catalog: Catalog, userId: int, productId: int) returns (r: AddResult)
    requires carts.Valid()
    modifies carts
    ensures carts.Valid()
    ensures productId !in catalog ==> r == ProductNotFound && carts.store == old(carts.store)
    ensures productId in catalog && !InStock(catalog[productId]) ==> r == OutOfStock && carts.store == old(carts.store)
    ensures productId in catalog && InStock(catalog[productId]) ==>
      && r == Added(|carts.Lines(userId).Keys|)
      && carts.Lines(userId).Keys == old(carts.Lines(userId)).Keys + {productId}
      && carts.Lines(userId)[productId].quantity ==
           (if productId in old(carts.Lines(userId)) then old(carts.Lines(userId))[productId].quantity + 1 else 1)
      && carts.Lines(userId) - {productId} == old(carts.Lines(userId)) - {productId}
    ensures forall u :: u != userId ==> carts.Lines(u) == old(carts.Lines(u))
  {
    if productId !in catalog {
      return ProductNotFound;
    }
    if !InStock(catalog[productId]) {
      return OutOfStock;
    }
    var before := carts.store;
    var ok := carts.AddItem(userId, productId, 1, None);
    var count := carts.GetItemCount(userId);
    r := Added(count);
    forall u | u != userId ensures carts.Lines(u) == old(carts.Lines(u)) {
      carts.OtherCartsUnchanged(before, userId, u);
    }
  }

  /**
   * The cart redraw after a change: `get_cart`, then `format_cart_summary` for a cart with
   * items, which raises; the answers gain the error answer exactly then.
   */
  method Redraw(carts: CartService, catalog: Catalog, userId: int, answers: seq<Answer>) returns (r: seq<Answer>)
    ensures r == answers + AfterRedraw(carts.Lines(userId), catalog)
  {
    var view := carts.GetCart(userId, catalog);
    EmptyViewIffNothingResolves(view.items, carts.Lines(userId), catalog);
    var summary := CartSummary(view);
    r := if summary.Raised? then answers + [Failed] else answers;
  }

  /**
   * `cart_increase_quantity`: a product that the cart view does not show is reported as
   * not in the cart and nothing changes; otherwise its quantity becomes the shown one + 1.
   * The redraw then raises whenever the cart still shows items, which it does when the
   * shown quantity was positive, so "Количество увеличено" is answered only for a cart
   * that became empty.
   */
  method IncreaseQuantity(carts: CartService, catalog: Catalog, userId: int, productId: int) returns (answers: seq<Answer>)
    requires carts.Valid()
    modifies carts
    ensures carts.Valid()
    ensures VisibleQuantity(old(carts.Lines(userId)), catalog, productId) == 0 ==>
      answers == [NotInCart] && carts.store == old(carts.store)
    ensures VisibleQuantity(old(carts.Lines(userId)), catalog, productId) != 0 ==>
      var q := VisibleQuantity(old(carts.Lines(userId)), catalog, productId);
      && carts.Lines(userId) == SetQuantity(old(carts.Lines(userId)), productId, q + 1)
      && answers == (if ShowsItems(carts.Lines(userId), catalog) then [Failed] else [QuantityChanged(q + 1)])
      && (q > 0 ==> answers == [Failed])
    ensures forall u :: u != userId ==> carts.Lines(u) == old(carts.Lines(u))
  {
    var view := carts.GetCart(userId, catalog);
    var current := FindQuantity(view.items, productId);
    QuantityInView(view.items, carts.Lines(userId), catalog, productId);
    if current == 0 {
      return [NotInCart];
    }
    var before := carts.store;
    var ok := carts.UpdateQuantity(userId, productId, current + 1);
    if current > 0 {
      assert productId in carts.Lines(userId).Keys * catalog.Keys;
    }
    answers := Redraw(carts, catalog, userId, []);
    if !ShowsItems(carts.Lines(userId), catalog) {
      answers := [QuantityChanged(current + 1)];
    }
    forall u | u != userId ensures carts.Lines(u) == old(carts.Lines(u)) {
      carts.OtherCartsUnchanged(before, userId, u);
    }
  }

  /**
   * `cart_decrease_quantity`: not shown means not in the cart; from 1 the line is removed,
   * from q > 1 the quantity becomes q − 1. That answer is given before the redraw, which
   * adds the error answer when the cart still shows items.
   */
  method DecreaseQuantity(carts: CartService, catalog: Catalog, userId: int, productId: int) returns (answers: seq<Answer>)
    requires carts.Valid()
    modifies carts
    ensures carts.Valid()
    ensures VisibleQuantity(old(carts.Lines(userId)), catalog, productId) == 0 ==>
      answers == [NotInCart] && carts.store == old(carts.store)
    ensures VisibleQuantity(old(carts.Lines(userId)), catalog, productId) != 0 ==>
      var q := VisibleQuantity(old(carts.Lines(userId)), catalog, productId);
      && answers == [if q - 1 <= 0 then LineRemoved else QuantityChanged(q - 1)] + AfterRedraw(carts.Lines(userId), catalog)
      && carts.Lines(userId) == SetQuantity(old(carts.Lines(userId)), productId, q - 1)
    ensures forall u :: u != userId ==> carts.Lines(u) == old(carts.Lines(u))
  {
    var view := carts.GetCart(userId, catalog);
    var current := FindQuantity(view.items, productId);
    QuantityInView(view.items, carts.Lines(userId), catalog, productId);
    if current == 0 {
      return [NotInCart];
    }
    var before := carts.store;
    var next := current - 1;
    if next <= 0 {
      var removed := carts.RemoveItem(userId, productId);
      answers := [LineRemoved];
    } else {
      var ok := carts.UpdateQuantity(userId, productId, next);
      answers := [QuantityChanged(next)];
    }
    answers := Redraw(carts, catalog, userId, answers);
    forall u | u != userId ensures carts.Lines(u) == old(carts.Lines(u)) {
      carts.OtherCartsUnchanged(before, userId, u);
    }
  }

  /**
   * `cart_remove_item`: "not found" exactly when no line existed, answered before the
   * redraw, which adds the error answer when the cart still shows items.
   */
  method RemoveFromCart(carts: CartService, catalog: Catalog, userId: int, productId: int) returns (answers: seq<Answer>)
    requires carts.Valid()
    modifies carts
    ensures carts.Valid()
    ensures answers == [if productId in old(carts.Lines(userId)) then LineRemoved else NotInCart]
                       + AfterRedraw(carts.Lines(userId), catalog)
    ensures carts.Lines(userId) == old(carts.Lines(userId)) - {productId}
    ensures forall u :: u != userId ==> carts.Lines(u) == old(carts.Lines(u))
  {
    var before := carts.store;
    var removed := carts.RemoveItem(userId, productId);
    answers := Redraw(carts, catalog, userId, [if removed then LineRemoved else NotInCart]);
    forall u | u != userId ensures carts.Lines(u) == old(carts.Lines(u)) {
      carts.OtherCartsUnchanged(before, userId, u);
    }
  }

  /** `clear_cart` (handler): the cart is empty afterwards. */
  method ClearCart(carts: CartService, userId: int)
    requires carts.Valid()
    modifies carts
    ensures carts.Valid()
    ensures carts.Lines(userId) == map[]
    ensures forall u :: u != userId ==> carts.Lines(u) == old(carts.Lines(u))
  {
    var before := carts.store;
    var ok := carts.ClearCart(userId);
    forall u | u != userId ensures carts.Lines(u) == old(carts.Lines(u)) {
      carts.OtherCartsUnchanged(before, userId, u);
    }
  }

  /**
   * Starting from positive quantities, increasing, decreasing and removing keep every
   * stored quantity positive: the decrease from 1 removes the line instead of storing 0.
   */
  lemma DecreaseKeepsPositive(lines: map<int, Line>, catalog: Catalog, productId: int)
    requires Positive(lines)
    ensures Positive(SetQuantity(lines, productId, VisibleQuantity(lines, catalog, productId) - 1))
    ensures Positive(SetQuantity(lines, productId, VisibleQuantity(lines, catalog, productId) + 1))
  {
    SetQuantityKeepsPositive(lines, productId, VisibleQuantity(lines, catalog, productId) - 1);
    SetQuantityKeepsPositive(lines, productId, VisibleQuantity(lines, catalog, productId) + 1);
  }
}
