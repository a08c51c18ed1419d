/**
 * The server's in-memory cart store: a map from session id to that
 * session's ordered `{product_id: quantity}` cart, and `get_cart`'s
 * derivation of line items, total and item count against a catalog.
 */
module CartService {
  import opened Wrappers
  import opened Seqs
  import opened Catalog
  import opened CartLines

  /** One entry of `get_cart`'s `items` list. */
  datatype CartItem = CartItem(
    productId: string,
    title: string,
    price: int,
    quantity: int,
    subtotal: int,
    image: string)

  /** The dict `get_cart` returns. */
  datatype CartView = CartView(sessionId: string, items: seq<CartItem>, total: int, itemCount: int)

  function ItemOf(l: Line, p: Product): CartItem {
    CartItem(l.productId, p.title, p.price, l.quantity, p.price * l.quantity, p.image)
  }

  /** The items for the lines of `ls` whose product is in the catalog, in cart order. */
  function ItemsOf(ls: Lines, catalog: seq<Product>): seq<CartItem> {
    if ls == [] then []
    else
      var l := ls[|ls| - 1];
      ItemsOf(ls[..|ls| - 1], catalog)
      + match FindByKey(catalog, l.productId)
        case Some(p) => [ItemOf(l, p)]
        case None => []
  }

  function TotalOf(items: seq<CartItem>): int {
    if items == [] then 0 else TotalOf(items[..|items| - 1]) + items[|items| - 1].subtotal
  }

  function CartViewOf(sessionId: string, ls: Lines, catalog: seq<Product>): CartView {
    var items := ItemsOf(ls, catalog);
    CartView(sessionId, items, TotalOf(items), TotalQuantity(ls))
  }

  function ItemIds(items: seq<CartItem>): (r: seq<string>)
    ensures |r| == |items|
    ensures forall i :: 0 <= i < |items| ==> r[i] == items[i].productId
  {
    seq(|items|, i requires 0 <= i < |items| => items[i].productId)
  }

  function InCatalog(catalog: seq<Product>): string -> bool {
    (k: string) => FindByKey(catalog, k).Some?
  }

  /** `get_cart`'s loop over the cart accumulating `items` and `total`. */
  method BuildCartView(sessionId: string, ls: Lines, catalog: seq<Product>) returns (v: CartView)
    ensures v == CartViewOf(sessionId, ls, catalog)
  {
    var items: seq<CartItem> := [];
    var total := 0;
    var i := 0;
    while i < |ls|
      invariant 0 <= i <= |ls|
      invariant items == ItemsOf(ls[..i], catalog)
      invariant total == TotalOf(items)
    {
      var l := ls[i];
      assert ls[..i + 1][..i] == ls[..i];
      var found := FindByKey(catalog, l.productId);
      if found.Some? {
        var item := ItemOf(l, found.value);
        items := items + [item];
        total := total + item.subtotal;
        assert items[..|items| - 1] == ItemsOf(ls[..i], catalog);
      }
      i := i + 1;
    }
    assert ls[..|ls|] == ls;
    v := CartView(sessionId, items, total, TotalQuantity(ls));
  }

  lemma {:induction false} LookupSnoc(ls: Lines, l: Line, k: string)
    ensures Lookup(ls + [l], k) == if Lookup(ls, k).Some? then Lookup(ls, k)
                                   else if l.productId == k then Some(l.quantity) else None
  {
    if ls != [] {
      assert (ls + [l])[1..] == ls[1..] + [l];
      LookupSnoc(ls[1..], l, k);
    }
  }

  /**
   * The items list exactly the cart's product ids that the catalog knows,
   * in the cart's order: lines for unknown ids are skipped.
   */
  lemma {:induction false} ItemsFollowCart(ls: Lines, catalog: seq<Product>)
    ensures ItemIds(ItemsOf(ls, catalog)) == Filter(Keys(ls), InCatalog(catalog))
  {
    if ls != [] {
      var p := ls[..|ls| - 1];
      var l := ls[|ls| - 1];
      var f := InCatalog(catalog);
      ItemsFollowCart(p, catalog);
      KeysSnoc(ls);
      FilterSnoc(Keys(p), l.productId, f);
      var tail := match FindByKey(catalog, l.productId) case Some(pr) => [ItemOf(l, pr)] case None => [];
      assert ItemIds(tail) == if f(l.productId) then [l.productId] else [];
      ItemIdsAppend(ItemsOf(p, catalog), tail);
    }
  }

  lemma ItemIdsAppend(a: seq<CartItem>, b: seq<CartItem>)
    ensures ItemIds(a + b) == ItemIds(a) + ItemIds(b)
  {
  }

  /**
   * Each item carries its product's title, price and image from the catalog,
   * the quantity stored in the cart, and subtotal = price * quantity.
   */
  lemma {:induction false} ItemsCarryCatalogAndQuantity(ls: Lines, catalog: seq<Product>, i: nat)
    requires WellFormed(ls)
    requires i < |ItemsOf(ls, catalog)|
    ensures var it := ItemsOf(ls, catalog)[i];
      FindByKey(catalog, it.productId).Some?
      && var p := FindByKey(catalog, it.productId).value;
      it.title == p.title && it.price == p.price && it.image == p.image
      && Lookup(ls, it.productId) == Some(it.quantity)
      && it.subtotal == p.price * it.quantity
  {
    var p := ls[..|ls| - 1];
    var l := ls[|ls| - 1];
    KeysSnoc(ls);
    assert ls == p + [l];
    WellFormedPrefix(ls);
    var items := ItemsOf(ls, catalog);
    var it := items[i];
    LookupSnoc(p, l, it.productId);
    if i < |ItemsOf(p, catalog)| {
      ItemsCarryCatalogAndQuantity(p, catalog, i);
    } else {
      assert it == ItemOf(l, FindByKey(catalog, l.productId).value);
      assert l.productId !in Keys(p);
      LookupIffKey(p, l.productId);
    }
  }

  /** The total is the sum of the item subtotals, so ids unknown to the catalog add nothing. */
  lemma {:induction false} TotalOfUnknown(ls: Lines, catalog: seq<Product>)
    requires forall i :: 0 <= i < |ls| ==> FindByKey(catalog, ls[i].productId).None?
    ensures ItemsOf(ls, catalog) == [] && CartViewOf("", ls, catalog).total == 0
  {
    if ls != [] {
      TotalOfUnknown(ls[..|ls| - 1], catalog);
    }
  }

  function Inner(carts: map<string, Lines>, s: string): Lines {
    if s in carts then carts[s] else []
  }

  ghost predicate StoreWellFormed(carts: map<string, Lines>) {
    forall s :: s in carts ==> WellFormed(carts[s])
  }

  /** The store after `get_cart`: an empty cart is created for an unknown session. */
  function AfterGet(carts: map<string, Lines>, s: string): map<string, Lines> {
    carts[s := Inner(carts, s)]
  }

  lemma AfterGetPresent(carts: map<string, Lines>, s: string)
    requires s in carts
    ensures AfterGet(carts, s) == carts
  {
  }

  lemma UpdateTwice(carts: map<string, Lines>, s: string, a: Lines, b: Lines)
    ensures carts[s := a][s := b] == carts[s := b]
  {
  }

  /** Lines 61-72 of `add_to_cart`: an unknown product changes nothing, a known one is added. */
  function AddLines(ls: Lines, productId: string, quantity: int, catalog: seq<Product>): Lines {
    if FindByKey(catalog, productId).None? then ls
    else Put(ls, productId, Lookup(ls, productId).GetOr(0) + quantity)
  }

  /** Lines 103-109 of `update_quantity`. */
  function UpdateLines(ls: Lines, productId: string, quantity: int): Lines {
    if quantity <= 0 then Delete(ls, productId) else Put(ls, productId, quantity)
  }

  /** The store after `add_to_cart`. */
  function AfterAdd(carts: map<string, Lines>, s: string, productId: string, quantity: int,
                    catalog: seq<Product>): map<string, Lines> {
    carts[s := AddLines(Inner(carts, s), productId, quantity, catalog)]
  }

  /** The store after `remove_from_cart`. */
  function AfterRemove(carts: map<string, Lines>, s: string, productId: string): map<string, Lines> {
    carts[s := Delete(Inner(carts, s), productId)]
  }

  /** The store after `update_quantity`. */
  function AfterUpdate(carts: map<string, Lines>, s: string, productId: string, quantity: int): map<string, Lines> {
    carts[s := UpdateLines(Inner(carts, s), productId, quantity)]
  }

  /** The store after `clear_cart`. */
  function AfterClear(carts: map<string, Lines>, s: string): map<string, Lines> {
    carts[s := []]
  }

  /**
   * Every cart operation leaves the session present and every other
   * session's cart exactly as it was.
   */
  lemma OnlySessionTouched(carts: map<string, Lines>, s: string, productId: string, quantity: int,
                           catalog: seq<Product>)
    ensures forall r :: r in {AfterGet(carts, s), AfterAdd(carts, s, productId, quantity, catalog),
                              AfterRemove(carts, s, productId), AfterUpdate(carts, s, productId, quantity),
                              AfterClear(carts, s)} ==>
      r.Keys == carts.Keys + {s} && forall t :: t in carts && t != s ==> r[t] == carts[t]
  {
  }

  /** Replacing one session's cart by a well-formed cart keeps the whole store well formed. */
  lemma StoreWellFormedUpdate(carts: map<string, Lines>, s: string, ls: Lines)
    requires StoreWellFormed(carts) && WellFormed(ls)
    ensures StoreWellFormed(carts[s := ls])
  {
  }

  lemma InnerWellFormed(carts: map<string, Lines>, s: string)
    requires StoreWellFormed(carts)
    ensures WellFormed(Inner(carts, s))
  {
  }

  /**
   * Add, remove and update keep a cart's keys distinct; with
   * `StoreWellFormedUpdate` and `InnerWellFormed`, every store operation
   * keeps every cart well formed.
   */
  lemma OperationsKeepCartWellFormed(ls: Lines, productId: string, quantity: int, catalog: seq<Product>)
    requires WellFormed(ls)
    ensures WellFormed(AddLines(ls, productId, quantity, catalog))
    ensures WellFormed(Delete(ls, productId))
    ensures WellFormed(UpdateLines(ls, productId, quantity))
  {
    AddKeepsCartWellFormed(ls, productId, quantity, catalog);
    UpdateKeepsCartWellFormed(ls, productId, quantity);
  }

  lemma AddKeepsCartWellFormed(ls: Lines, productId: string, quantity: int, catalog: seq<Product>)
    requires WellFormed(ls)
    ensures WellFormed(AddLines(ls, productId, quantity, catalog))
  {
    PutWellFormed(ls, productId, Lookup(ls, productId).GetOr(0) + quantity);
  }

  lemma UpdateKeepsCartWellFormed(ls: Lines, productId: string, quantity: int)
    requires WellFormed(ls)
    ensures WellFormed(Delete(ls, productId))
    ensures WellFormed(UpdateLines(ls, productId, quantity))
  {
    PutWellFormed(ls, productId, quantity);
    DeleteWellFormed(ls, productId);
  }

  /**
   * Adding an unknown product changes no quantity (though `AfterAdd` has
   * already created the session's cart); adding a known one increases its
   * quantity, or inserts it, and leaves every other product alone.
   */
  lemma AddSemantics(ls: Lines, productId: string, quantity: int, catalog: seq<Product>, other: string)
    requires other != productId
    ensures var r := AddLines(ls, productId, quantity, catalog);
      (FindByKey(catalog, productId).None? ==> r == ls)
      && (FindByKey(catalog, productId).Some? ==>
            Lookup(r, productId) == Some(Lookup(ls, productId).GetOr(0) + quantity)
            && Lookup(r, other) == Lookup(ls, other)
            && TotalQuantity(r) == TotalQuantity(ls) + quantity)
  {
    PutOthers(ls, productId, Lookup(ls, productId).GetOr(0) + quantity, other);
  }

  /**
   * A non-positive quantity removes the product exactly as `remove_from_cart`
   * does; a positive one sets it, with no catalog check. Other products keep
   * their quantities.
   */
  lemma UpdateSemantics(carts: map<string, Lines>, s: string, productId: string, quantity: int, other: string)
    requires StoreWellFormed(carts) && other != productId
    ensures quantity <= 0 ==> AfterUpdate(carts, s, productId, quantity) == AfterRemove(carts, s, productId)
    ensures var r := UpdateLines(Inner(carts, s), productId, quantity);
      (quantity <= 0 ==> Lookup(r, productId).None?)
      && (quantity > 0 ==> Lookup(r, productId) == Some(quantity))
      && Lookup(r, other) == Lookup(Inner(carts, s), other)
  {
    InnerWellFormed(carts, s);
    DeleteWellFormed(Inner(carts, s), productId);
    PutOthers(Inner(carts, s), productId, quantity, other);
  }

  /**
   * After a removal the product has no entry, whether it had one or not;
   * other products keep their quantities, and removing an absent product
   * changes nothing beyond creating the session's cart.
   */
  lemma RemoveSemantics(carts: map<string, Lines>, s: string, productId: string, other: string)
    requires StoreWellFormed(carts) && other != productId
    ensures var r := Delete(Inner(carts, s), productId);
      Lookup(r, productId).None? && Lookup(r, other) == Lookup(Inner(carts, s), other)
    ensures Lookup(Inner(carts, s), productId).None? ==> AfterRemove(carts, s, productId) == AfterGet(carts, s)
  {
    InnerWellFormed(carts, s);
    DeleteWellFormed(Inner(carts, s), productId);
    if Lookup(Inner(carts, s), productId).None? {
      DeleteAbsent(Inner(carts, s), productId);
    }
  }

  /** After a clear the session's cart view is empty, whether or not the session existed. */
  lemma ClearSemantics(carts: map<string, Lines>, s: string, catalog: seq<Product>)
    ensures var v := CartViewOf(s, AfterClear(carts, s)[s], catalog);
      v.items == [] && v.total == 0 && v.itemCount == 0
  {
  }

  /**
   * What `get_cart` returns for the stored lines `ls` once its
   * `get_products()` call has produced `f`: the view, or the raised
   * exception passed on.
   */
  function ViewOrRaise(s: string, ls: Lines, f: Fetch): Result<CartView, string> {
    match f
    case Failure(e) => Failure(e)
    case Success(catalog) => Success(CartViewOf(s, ls, catalog))
  }

  /**
   * The store after `add_to_cart` whose own `get_products()` produced
   * `check`: a raise there leaves only the session's (possibly new) cart.
   */
  function AddStore(carts: map<string, Lines>, s: string, productId: string, quantity: int, check: Fetch)
    : map<string, Lines>
  {
    match check
    case Failure(_) => AfterGet(carts, s)
    case Success(catalog) => AfterAdd(carts, s, productId, quantity, catalog)
  }

  /** The server's cart store. */
  class CartStore {
    var carts: map<string, Lines>

    constructor()
      ensures carts == map[]
    {
      carts := map[];
    }

    /** `get_cart(session_id)`; `f` is what its `get_products()` call produced. */
    method GetCart(s: string, f: Fetch) returns (r: Result<CartView, string>)
      modifies this
      ensures carts == AfterGet(old(carts), s)
      ensures r == ViewOrRaise(s, carts[s], f)
      ensures r.Success? ==> r.value.itemCount == old(ItemCount(s))
    {
      if s !in carts {
        carts := carts[s := []];
      }
      match f {
        case Failure(e) =>
          return Failure(e);
        case Success(catalog) =>
          var v := BuildCartView(s, carts[s], catalog);
          return Success(v);
      }
    }

    /**
     * `add_to_cart(session_id, product_id, quantity)`: `check` is what its own
     * `get_products()` call produced, `view` what the one inside the final
     * `get_cart` produced. A failure carries the raised exception's text.
     */
    method AddToCart(s: string, productId: string, quantity: int, check: Fetch, view: Fetch)
      returns (r: Result<CartView, string>)
      modifies this
      ensures carts == AddStore(old(carts), s, productId, quantity, check)
      ensures check.Failure? ==> r == Failure(check.error)
      ensures check.Success? && FindByKey(check.value, productId).None?
              ==> r == Failure("Product " + productId + " not found")
      ensures check.Success? && FindByKey(check.value, productId).Some? ==> r == ViewOrRaise(s, carts[s], view)
    {
      if s !in carts {
        carts := carts[s := []];
      } else {
        AfterGetPresent(carts, s);
      }
      assert carts == AfterGet(old(carts), s);
      if check.Failure? {
        return Failure(check.error);
      }
      var catalog := check.value;
      var product := FindByKey(catalog, productId);
      if product.None? {
        assert AfterAdd(old(carts), s, productId, quantity, catalog) == AfterGet(old(carts), s);
        return Failure("Product " + productId + " not found");
      }
      var ls := carts[s];
      assert ls == Inner(old(carts), s) && carts == old(carts)[s := ls];
      ghost var added := AddLines(ls, productId, quantity, catalog);
      var current := Lookup(ls, productId);
      assert added == Put(ls, productId, current.GetOr(0) + quantity);
      if current.Some? {
        carts := carts[s := Put(ls, productId, current.value + quantity)];
      } else {
        carts := carts[s := Put(ls, productId, quantity)];
      }
      assert carts == old(carts)[s := ls][s := added];
      UpdateTwice(old(carts), s, ls, added);
      AfterGetPresent(carts, s);
      r := GetCart(s, view);
    }

    /** `remove_from_cart(session_id, product_id)`; `f` feeds its final `get_cart`. */
    method RemoveFromCart(s: string, productId: string, f: Fetch) returns (r: Result<CartView, string>)
      modifies this
      ensures carts == AfterRemove(old(carts), s, productId)
      ensures r == ViewOrRaise(s, carts[s], f)
    {
      if s in carts && Lookup(carts[s], productId).Some? {
        carts := carts[s := Delete(carts[s], productId)];
      } else if s in carts {
        DeleteAbsent(carts[s], productId);
      }
      r := GetCart(s, f);
    }

    /** `update_quantity(session_id, product_id, quantity)`; `f` feeds its final `get_cart`. */
    method UpdateQuantity(s: string, productId: string, quantity: int, f: Fetch)
      returns (r: Result<CartView, string>)
      modifies this
      ensures carts == AfterUpdate(old(carts), s, productId, quantity)
      ensures r == ViewOrRaise(s, carts[s], f)
    {
      if quantity <= 0 {
        r := RemoveFromCart(s, productId, f);
        return;
      }
      if s !in carts {
        carts := carts[s := []];
      } else {
        AfterGetPresent(carts, s);
      }
      var ls := carts[s];
      carts := carts[s := Put(ls, productId, quantity)];
      UpdateTwice(old(carts), s, ls, UpdateLines(ls, productId, quantity));
      AfterGetPresent(carts, s);
      r := GetCart(s, f);
    }

    /** `clear_cart(session_id)`; `f` feeds its final `get_cart`. */
    method ClearCart(s: string, f: Fetch) returns (r: Result<CartView, string>)
      modifies this
      ensures carts == AfterClear(old(carts), s)
      ensures r == ViewOrRaise(s, carts[s], f)
    {
      if s in carts {
        carts := carts[s := []];
      }
      r := GetCart(s, f);
    }

    /** `get_cart_item_count(session_id)`: 0 for an unknown session, without creating it. */
    function ItemCount(s: string): (n: int)
      reads this
      ensures s !in carts ==> n == 0
      ensures s in carts ==> n == TotalQuantity(carts[s])
    {
      if s !in carts then 0 else TotalQuantity(carts[s])
    }
  }
}
