/**
 * The per-user shopping cart kept in Redis (app/services/cart.py).
 *
 * Redis is modelled as a map from key to hash; a user's cart is the hash stored under
 * `cart:{user_id}`, whose fields are product ids and whose values are the stored lines.
 * A key whose hash has lost its last field does not exist (Redis deletes it), and a key's
 * time-to-live lives and dies with the key. Expiry itself (the clock) is not modelled.
 */
module CartStore {
  import opened Text
  import opened Catalog

  /** `settings.CART_EXPIRE_DAYS` (default "7"). */
  const CART_EXPIRE_DAYS: int := 7
  /** `CartService.expire_seconds` */
  const EXPIRE_SECONDS: int := CART_EXPIRE_DAYS * 24 * 3600

  /** The opaque options dictionary of a line. */
  type Options = map<string, string>

  /** The JSON document stored for one product. */
  datatype Line = Line(productId: int, quantity: int, options: Options)

  /** One Redis hash with the time-to-live set on its key, if any. */
  datatype Hash = Hash(fields: map<int, Line>, ttl: Option<int>)

  /** One entry of the `items` list returned by `get_cart`. */
  datatype CartItem = CartItem(productId: int, product: Product, quantity: int, options: Options, subtotal: int)

  /** The `{items, total}` dictionary returned by `get_cart`. */
  datatype CartView = CartView(items: seq<CartItem>, total: int)

  /** `_cart_key` */
  function CartKey(userId: int): string
  {
    "cart:" + IntToString(userId)
  }

  /** Different users never share a Redis key, so no operation on one cart touches another. */
  lemma CartKeyInjective(a: int, b: int)
    requires CartKey(a) == CartKey(b)
    ensures a == b
  {
    assert CartKey(a)[5..] == IntToString(a);
    assert CartKey(b)[5..] == IntToString(b);
    IntToStringInjective(a, b);
  }

  /** `options or {}` */
  function OptionsOrEmpty(options: Option<Options>): Options
  {
    if options.Some? then options.value else map[]
  }

  /** Every stored line has a positive quantity. */
  ghost predicate Positive(lines: map<int, Line>)
  {
    forall p :: p in lines ==> lines[p].quantity >= 1
  }

  /**
   * The cart after `update_quantity(product_id, quantity)` succeeds or refuses: a quantity
   * of zero or less removes the line, otherwise an existing line gets the new quantity and
   * an absent one stays absent.
   */
  ghost function SetQuantity(lines: map<int, Line>, productId: int, quantity: int): map<int, Line>
  {
    if quantity <= 0 then lines - {productId}
    else if productId in lines then lines[productId := lines[productId].(quantity := quantity)]
    else lines
  }

  /** The subtotal of one cart item as `get_cart` computes it. */
  function ItemOf(productId: int, line: Line, product: Product): CartItem
  {
    CartItem(productId, product, line.quantity, line.options, product.price * line.quantity)
  }

  /** Σ price × quantity over a list of cart items. */
  function PriceTotal(items: seq<CartItem>): int
  {
    if items == [] then 0
    else PriceTotal(items[..|items| - 1]) + items[|items| - 1].product.price * items[|items| - 1].quantity
  }

  function ItemIds(items: seq<CartItem>): set<int>
  {
    set i | 0 <= i < |items| :: items[i].productId
  }

  lemma ItemIdsAppend(items: seq<CartItem>, item: CartItem)
    ensures ItemIds(items + [item]) == ItemIds(items) + {item.productId}
  {
    var all := items + [item];
    forall id | id in ItemIds(all) ensures id in ItemIds(items) + {item.productId} {
      var i :| 0 <= i < |all| && all[i].productId == id;
      if i < |items| {
        assert items[i].productId == id;
      }
    }
    forall id | id in ItemIds(items) ensures id in ItemIds(all) {
      var i :| 0 <= i < |items| && items[i].productId == id;
      assert all[i].productId == id;
    }
    assert all[|items|].productId == item.productId;
  }

  /**
   * A view lists, once each, exactly the stored lines whose product the catalog resolves,
   * each with the catalog's product and its own quantity, options and subtotal.
   */
  ghost predicate ViewOf(items: seq<CartItem>, lines: map<int, Line>, catalog: Catalog)
  {
    && (forall i :: 0 <= i < |items| ==>
          items[i].productId in lines && items[i].productId in catalog &&
          items[i] == ItemOf(items[i].productId, lines[items[i].productId], catalog[items[i].productId]))
    && (forall i, j :: 0 <= i < j < |items| ==> items[i].productId != items[j].productId)
    && ItemIds(items) == lines.Keys * catalog.Keys
  }

  class CartService {
    /** The Redis keyspace. */
    var store: map<string, Hash>

    ghost predicate Valid()
      reads this
    {
      forall k :: k in store ==> store[k].fields != map[]
    }

    constructor ()
      ensures Valid() && store == map[]
    {
      store := map[];
    }

    /** The lines of a user's cart (`hgetall cart:{user_id}`). */
    function Lines(userId: int): map<int, Line>
      reads this
    {
      var key := CartKey(userId);
      if key in store then store[key].fields else map[]
    }

    /** The time-to-live on a user's cart key. */
    function Ttl(userId: int): Option<int>
      reads this
    {
      var key := CartKey(userId);
      if key in store then store[key].ttl else None
    }

    /** Only the key of `userId` differs between the two keyspaces. */
    ghost predicate OthersUnchanged(before: map<string, Hash>, userId: int)
      reads this
    {
      forall k :: k != CartKey(userId) ==> (k in store <==> k in before) && (k in store ==> store[k] == before[k])
    }

    lemma OtherCartsUnchanged(before: map<string, Hash>, userId: int, other: int)
      requires OthersUnchanged(before, userId)
      requires other != userId
      ensures Lines(other) == (if CartKey(other) in before then before[CartKey(other)].fields else map[])
    {
      if CartKey(other) == CartKey(userId) {
        CartKeyInjective(other, userId);
      }
    }

    /**
     * `add_item`: an existing line's quantity grows by `quantity` and keeps its options;
     * a new line gets `quantity` and the given options (or `{}`); the key's expiry is reset.
     */
    method AddItem(userId: int, productId: int, quantity: int, options: Option<Options>) returns (ok: bool)
      requires Valid()
      modifies this
      ensures Valid() && ok
      ensures Lines(userId).Keys == old(Lines(userId)).Keys + {productId}
      ensures productId in old(Lines(userId)) ==>
        Lines(userId)[productId] == old(Lines(userId))[productId].(quantity := old(Lines(userId))[productId].quantity + quantity)
      ensures productId !in old(Lines(userId)) ==>
        Lines(userId)[productId] == Line(productId, quantity, OptionsOrEmpty(options))
      ensures Lines(userId) - {productId} == old(Lines(userId)) - {productId}
      ensures Ttl(userId) == Some(EXPIRE_SECONDS)
      ensures OthersUnchanged(old(store), userId)
    {
      var key := CartKey(userId);
      var current := Lines(userId);
      var line;
      if productId in current {
        line := current[productId].(quantity := current[productId].quantity + quantity);
      } else {
        line := Line(productId, quantity, OptionsOrEmpty(options));
      }
      // HSET creates the key if needed; EXPIRE then sets its time-to-live
      var ttl := if key in store then store[key].ttl else None;
      store := store[key := Hash(current[productId := line], ttl)];
      store := store[key := store[key].(ttl := Some(EXPIRE_SECONDS))];
      ok := true;
    }

    /** `remove_item`: HDEL of the field; true iff the line existed. */
    method RemoveItem(userId: int, productId: int) returns (removed: bool)
      requires Valid()
      modifies this
      ensures Valid()
      ensures removed == (productId in old(Lines(userId)))
      ensures Lines(userId) == old(Lines(userId)) - {productId}
      ensures Lines(userId) != map[] ==> Ttl(userId) == old(Ttl(userId))
      ensures !removed ==> store == old(store)
      ensures OthersUnchanged(old(store), userId)
    {
      var key := CartKey(userId);
      var current := Lines(userId);
      removed := productId in current;
      if removed {
        var rest := current - {productId};
        if rest == map[] {
          store := store - {key};
        } else {
          store := store[key := store[key].(fields := rest)];
        }
      }
    }

    /**
     * `update_quantity`: a quantity of zero or less is `remove_item`; otherwise an absent
     * line is refused and an existing one gets the new quantity and a fresh expiry.
     */
    method UpdateQuantity(userId: int, productId: int, quantity: int) returns (ok: bool)
      requires Valid()
      modifies this
      ensures Valid()
      ensures Lines(userId) == SetQuantity(old(Lines(userId)), productId, quantity)
      ensures ok == (productId in old(Lines(userId)))
      ensures productId !in old(Lines(userId)) ==> store == old(store)
      ensures quantity > 0 && ok ==> Ttl(userId) == Some(EXPIRE_SECONDS)
      ensures quantity <= 0 && Lines(userId) != map[] ==> Ttl(userId) == old(Ttl(userId))
      ensures OthersUnchanged(old(store), userId)
    {
      if quantity <= 0 {
        ok := RemoveItem(userId, productId);
        return;
      }
      var key := CartKey(userId);
      var current := Lines(userId);
      if productId !in current {
        return false;
      }
      var line := current[productId].(quantity := quantity);
      store := store[key := store[key].(fields := current[productId := line])];
      store := store[key := store[key].(ttl := Some(EXPIRE_SECONDS))];
      ok := true;
    }

    /**
     * `get_cart`: joins the stored lines with the catalog in the order Redis returns them
     * (any order), drops the lines the catalog does not resolve without deleting them, and
     * totals price × quantity over the lines it keeps.
     */
    method GetCart(userId: int, catalog: Catalog) returns (view: CartView)
      ensures ViewOf(view.items, Lines(userId), catalog)
      ensures view.total == PriceTotal(view.items)
      ensures Lines(userId) == map[] ==> view == CartView([], 0)
    {
      var lines := Lines(userId);
      if lines == map[] {
        return CartView([], 0);
      }
      var items: seq<CartItem> := [];
      var total := 0;
      var pending := lines.Keys;
      while pending != {}
        invariant pending <= lines.Keys
        invariant forall i :: 0 <= i < |items| ==>
          items[i].productId in lines && items[i].productId in catalog &&
          items[i] == ItemOf(items[i].productId, lines[items[i].productId], catalog[items[i].productId])
        invariant forall i, j :: 0 <= i < j < |items| ==> items[i].productId != items[j].productId
        invariant ItemIds(items) == (lines.Keys - pending) * catalog.Keys
        invariant total == PriceTotal(items)
        decreases pending
      {
        assert exists p :: p in pending by {
          if forall p :: p !in pending { assert false; }
        }
        var productId :| productId in pending;
        var line := lines[productId];
        if productId in catalog {
          var product := catalog[productId];
          var subtotal := product.price * line.quantity;
          assert productId !in ItemIds(items);
          ghost var before := items;
          var item := CartItem(productId, product, line.quantity, line.options, subtotal);
          ItemIdsAppend(items, item);
          items := items + [item];
          assert items[..|items| - 1] == before;
          total := total + subtotal;
        }
        pending := pending - {productId};
      }
      view := CartView(items, total);
    }

    /** `get_item_count`: HLEN, the number of distinct products, not the sum of quantities. */
    method GetItemCount(userId: int) returns (count: int)
      ensures count == |Lines(userId).Keys|
    {
      count := |Lines(userId).Keys|;
    }

    /** `clear_cart`: DEL of the user's key. */
    method ClearCart(userId: int) returns (ok: bool)
      requires Valid()
      modifies this
      ensures Valid() && ok
      ensures Lines(userId) == map[] && Ttl(userId) == None
      ensures OthersUnchanged(old(store), userId)
    {
      store := store - {CartKey(userId)};
      ok := true;
    }
  }

  /** With positive stored quantities, a view holds no item with a quantity below 1. */
  lemma ViewQuantitiesPositive(items: seq<CartItem>, lines: map<int, Line>, catalog: Catalog)
    requires ViewOf(items, lines, catalog) && Positive(lines)
    ensures forall i :: 0 <= i < |items| ==> items[i].quantity >= 1 && items[i].subtotal == items[i].product.price * items[i].quantity
  {
  }

  /** Adding a positive amount, setting any quantity and removing keep every stored quantity positive. */
  lemma {:induction false} SetQuantityKeepsPositive(lines: map<int, Line>, productId: int, quantity: int)
    requires Positive(lines)
    ensures Positive(SetQuantity(lines, productId, quantity))
  {
    var r := SetQuantity(lines, productId, quantity);
    forall p | p in r ensures r[p].quantity >= 1 {
      if quantity > 0 && p == productId {
      } else {
        assert p in lines;
      }
    }
  }

  /** A view that lists no item means no stored line resolves in the catalog, and conversely. */
  lemma EmptyViewIffNothingResolves(items: seq<CartItem>, lines: map<int, Line>, catalog: Catalog)
    requires ViewOf(items, lines, catalog)
    ensures items == [] <==> lines.Keys * catalog.Keys == {}
  {
    if items != [] {
      assert items[0].productId in ItemIds(items);
    }
  }
}
