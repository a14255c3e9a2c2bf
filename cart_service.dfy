/**
 * The cart service: one HTTP request per operation, followed by either the
 * server's data or a thrown `Error` whose message is chosen per operation.
 * Every call is a function of its arguments and of the reply the backend
 * gives to the single request it makes.
 */
module CartService {

  import opened Js
  import opened Http

  /** A line of a cart, as the backend returns it. */
  datatype CartItem = CartItem(
    id: int,
    menuItemId: int,
    menuItemName: string,
    menuItemPrice: real,
    quantity: int,
    menuItemDescription: Option<string>)

  datatype Cart = Cart(id: int, userId: int, cartItems: seq<CartItem>)

  const CREATE_CART_FAILED := "Ошибка при создании корзины"
  const LOAD_ITEMS_FAILED := "Ошибка загрузки корзины"
  const ADD_ITEM_FAILED := "Ошибка добавления товара"
  const UPDATE_QUANTITY_FAILED := "Ошибка обновления количества"
  const REMOVE_ITEM_FAILED := "Ошибка удаления товара"
  const CLEAR_CART_FAILED := "Ошибка очистки корзины"
  const COUNT_FAILED := "Ошибка подсчета товаров"

  /** The quantity `addToCart` sends when its caller gives none. */
  const DEFAULT_QUANTITY := 1

  function CartItemsPath(cartId: int): string
  {
    "/Carts/" + IntToString(cartId) + "/items"
  }

  function CartItemPath(itemId: int): string
  {
    "/CartItems/" + IntToString(itemId)
  }

  /**
   * `getOrCreateCart(userId)`: a single create call with `{userId}`; the
   * server's cart comes back unchanged. A failure surfaces the server's
   * `message` when it has one, otherwise the fixed fallback.
   */
  function GetOrCreateCart(userId: int, reply: Response<Cart>): (r: ServiceCall<Cart>)
    ensures r.request == Request(Post, "/Carts", UserIdBody(userId))
    ensures reply.Success? ==> r.outcome == Ok(reply.data)
    ensures reply.HttpError? ==> r.outcome.Thrown? && r.outcome.error.responseStatus == None
    ensures reply.HttpError? && StrTruthy(reply.serverMessage) ==> r.outcome.error.message == reply.serverMessage.value
    ensures reply.HttpError? && !StrTruthy(reply.serverMessage) ==> r.outcome.error.message == CREATE_CART_FAILED
  {
    ServiceCall(Request(Post, "/Carts", UserIdBody(userId)),
      match reply
      case Success(cart) => Ok(cart)
      case HttpError(_, message) => Fail(OrElse(message, CREATE_CART_FAILED)))
  }

  /** `getCartItems(cartId)`: the items in server order; any failure gives the fixed message. */
  function GetCartItems(cartId: int, reply: Response<seq<CartItem>>): (r: ServiceCall<seq<CartItem>>)
    ensures r.request == Request(Get, CartItemsPath(cartId), NoBody)
    ensures reply.Success? ==> r.outcome == Ok(reply.data)
    ensures reply.HttpError? ==> r.outcome == Fail(LOAD_ITEMS_FAILED)
  {
    ServiceCall(Request(Get, CartItemsPath(cartId), NoBody),
      match reply
      case Success(items) => Ok(items)
      case HttpError(_, _) => Fail(LOAD_ITEMS_FAILED))
  }

  /**
   * `addToCart(cartId, menuItemId, quantity = 1)`: posts exactly
   * `{menuItemId, quantity}` to the cart's item list. A caller that passes no
   * quantity gets `DEFAULT_QUANTITY`.
   */
  function AddToCart(cartId: int, menuItemId: int, quantity: int := DEFAULT_QUANTITY, reply: Response<CartItem>): (r: ServiceCall<CartItem>)
    ensures r.request == Request(Post, CartItemsPath(cartId), AddItemBody(menuItemId, quantity))
    ensures reply.Success? ==> r.outcome == Ok(reply.data)
    ensures reply.HttpError? ==> r.outcome.Thrown? && r.outcome.error.responseStatus == None
    ensures reply.HttpError? && StrTruthy(reply.serverMessage) ==> r.outcome.error.message == reply.serverMessage.value
    ensures reply.HttpError? && !StrTruthy(reply.serverMessage) ==> r.outcome.error.message == ADD_ITEM_FAILED
  {
    ServiceCall(Request(Post, CartItemsPath(cartId), AddItemBody(menuItemId, quantity)),
      match reply
      case Success(item) => Ok(item)
      case HttpError(_, message) => Fail(OrElse(message, ADD_ITEM_FAILED)))
  }

  /** A call that leaves out the quantity adds exactly one unit of the dish to the given cart. */
  lemma DefaultQuantityAddsOne(cartId: int, menuItemId: int, reply: Response<CartItem>)
    ensures AddToCart(cartId, menuItemId, reply := reply).request
         == Request(Post, CartItemsPath(cartId), AddItemBody(menuItemId, 1))
  {
  }

  /** `updateCartItemQuantity(itemId, newQuantity)`: sends only `{quantity}`; there is no range check here. */
  function UpdateCartItemQuantity(itemId: int, newQuantity: int, reply: Response<()>): (r: ServiceCall<()>)
    ensures r.request == Request(Put, CartItemPath(itemId), QuantityBody(newQuantity))
    ensures r.outcome == if reply.Success? then Ok(()) else Fail(UPDATE_QUANTITY_FAILED)
  {
    ServiceCall(Request(Put, CartItemPath(itemId), QuantityBody(newQuantity)),
      if reply.Success? then Ok(()) else Fail(UPDATE_QUANTITY_FAILED))
  }

  /** `removeFromCart(itemId)`. */
  function RemoveFromCart(itemId: int, reply: Response<()>): (r: ServiceCall<()>)
    ensures r.request == Request(Delete, CartItemPath(itemId), NoBody)
    ensures r.outcome == if reply.Success? then Ok(()) else Fail(REMOVE_ITEM_FAILED)
  {
    ServiceCall(Request(Delete, CartItemPath(itemId), NoBody),
      if reply.Success? then Ok(()) else Fail(REMOVE_ITEM_FAILED))
  }

  /** `clearCart(cartId)`: one delete of the cart's whole item list. */
  function ClearCart(cartId: int, reply: Response<()>): (r: ServiceCall<()>)
    ensures r.request == Request(Delete, CartItemsPath(cartId), NoBody)
    ensures r.outcome == if reply.Success? then Ok(()) else Fail(CLEAR_CART_FAILED)
  {
    ServiceCall(Request(Delete, CartItemsPath(cartId), NoBody),
      if reply.Success? then Ok(()) else Fail(CLEAR_CART_FAILED))
  }

  /** The `reduce((sum, item) => sum + item.quantity, 0)` over the items, folded from the left. */
  function TotalQuantity(items: seq<CartItem>): (total: int)
    ensures items == [] ==> total == 0
    ensures (forall i :: 0 <= i < |items| ==> items[i].quantity >= 0) ==> total >= 0
  {
    if items == [] then 0 else TotalQuantity(items[..|items| - 1]) + items[|items| - 1].quantity
  }

  /**
   * `getTotalCartItems(cartId)`: fetches the items and sums their quantities.
   * Whatever fails inside, the caller sees only the counting message.
   */
  function GetTotalCartItems(cartId: int, reply: Response<seq<CartItem>>): (r: ServiceCall<int>)
    ensures r.request == GetCartItems(cartId, reply).request
    ensures reply.Success? ==> r.outcome == Ok(TotalQuantity(reply.data))
    ensures reply.HttpError? ==> r.outcome == Fail(COUNT_FAILED)
  {
    var inner := GetCartItems(cartId, reply);
    ServiceCall(inner.request,
      match inner.outcome
      case Ok(items) => Ok(TotalQuantity(items))
      case Thrown(_) => Fail(COUNT_FAILED))
  }

  // ---------------------------------------------------------------------
  // Properties of the quantity total.
  // ---------------------------------------------------------------------

  /** The total of a concatenation is the sum of the totals. */
  lemma {:induction false} TotalQuantityAppend(a: seq<CartItem>, b: seq<CartItem>)
    ensures TotalQuantity(a + b) == TotalQuantity(a) + TotalQuantity(b)
    decreases |b|
  {
    if b == [] {
      assert a + b == a;
    } else {
      var ab := a + b;
      assert ab[..|ab| - 1] == a + b[..|b| - 1];
      TotalQuantityAppend(a, b[..|b| - 1]);
    }
  }

  /** The total read front to back: the first item's quantity plus the rest. */
  lemma TotalQuantityCons(x: CartItem, rest: seq<CartItem>)
    ensures TotalQuantity([x] + rest) == x.quantity + TotalQuantity(rest)
  {
    TotalQuantityAppend([x], rest);
    assert [x][..0] == [];
  }

  /** With every quantity at least one the total is at least the number of lines. */
  lemma {:induction false} TotalQuantityAtLeastLength(items: seq<CartItem>)
    requires forall i :: 0 <= i < |items| ==> items[i].quantity >= 1
    ensures TotalQuantity(items) >= |items|
  {
    if items != [] {
      TotalQuantityAtLeastLength(items[..|items| - 1]);
    }
  }

  /** An empty cart counts 0; lines of 2, 3 and 1 count 6. */
  lemma TotalQuantityExamples(a: CartItem, b: CartItem, c: CartItem)
    requires a.quantity == 2 && b.quantity == 3 && c.quantity == 1
    ensures TotalQuantity([]) == 0
    ensures TotalQuantity([a, b, c]) == 6
  {
    assert [a, b, c][..2] == [a, b];
    assert [a, b][..1] == [a];
    assert [a][..0] == [];
    assert TotalQuantity([a]) == 2;
    assert TotalQuantity([a, b]) == 5;
  }

  // ---------------------------------------------------------------------
  // Which message each call surfaces.
  // ---------------------------------------------------------------------

  /** Every fixed fallback is a non-empty string, so callers' `err.message || ...` never reaches their own fallback. */
  lemma ServiceMessagesNonEmpty(userId: int, cartId: int, itemId: int, menuItemId: int, quantity: int,
                                status: Option<int>, message: Option<string>)
    ensures GetOrCreateCart(userId, HttpError(status, message)).outcome.error.message != ""
    ensures AddToCart(cartId, menuItemId, quantity, HttpError(status, message)).outcome.error.message != ""
    ensures GetCartItems(cartId, HttpError(status, message)).outcome.error.message != ""
    ensures UpdateCartItemQuantity(itemId, quantity, HttpError(status, message)).outcome.error.message != ""
    ensures RemoveFromCart(itemId, HttpError(status, message)).outcome.error.message != ""
    ensures ClearCart(cartId, HttpError(status, message)).outcome.error.message != ""
    ensures GetTotalCartItems(cartId, HttpError(status, message)).outcome.error.message != ""
  {
  }

  /**
   * getCartItems, updateCartItemQuantity, removeFromCart, clearCart and
   * getTotalCartItems ignore the server's detail: two failures differing in
   * status and message surface the same error.
   */
  lemma FixedMessagesIgnoreServerDetail(cartId: int, itemId: int, quantity: int,
                                        s1: Option<int>, m1: Option<string>, s2: Option<int>, m2: Option<string>)
    ensures GetCartItems(cartId, HttpError(s1, m1)) == GetCartItems(cartId, HttpError(s2, m2))
    ensures UpdateCartItemQuantity(itemId, quantity, HttpError(s1, m1)) == UpdateCartItemQuantity(itemId, quantity, HttpError(s2, m2))
    ensures RemoveFromCart(itemId, HttpError(s1, m1)) == RemoveFromCart(itemId, HttpError(s2, m2))
    ensures ClearCart(cartId, HttpError(s1, m1)) == ClearCart(cartId, HttpError(s2, m2))
    ensures GetTotalCartItems(cartId, HttpError(s1, m1)) == GetTotalCartItems(cartId, HttpError(s2, m2))
  {
  }

  /** Counting hides the inner message: the load failure's message is replaced by the counting message. */
  lemma CountingHidesLoadMessage(cartId: int, status: Option<int>, message: Option<string>)
    ensures GetCartItems(cartId, HttpError(status, message)).outcome.error.message == LOAD_ITEMS_FAILED
    ensures GetTotalCartItems(cartId, HttpError(status, message)).outcome.error.message == COUNT_FAILED
    ensures COUNT_FAILED != LOAD_ITEMS_FAILED
  {
  }

  /** No service error carries a response, so `err.response?.status` is always undefined at the callers. */
  lemma ServiceErrorsCarryNoStatus(userId: int, cartId: int, menuItemId: int, quantity: int,
                                   status: Option<int>, message: Option<string>)
    ensures GetOrCreateCart(userId, HttpError(status, message)).outcome.error.responseStatus == None
    ensures AddToCart(cartId, menuItemId, quantity, HttpError(status, message)).outcome.error.responseStatus == None
    ensures GetCartItems(cartId, HttpError(status, message)).outcome.error.responseStatus == None
  {
  }
}
