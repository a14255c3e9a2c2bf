/**
 * The cart screen of `screens/Bin/index.tsx`: it loads the user's cart, and
 * its handlers remove a line, change a quantity and empty the list after
 * checkout. Each handler changes the local list only after the service call
 * succeeds. The pure functions below say what one handler does to the list;
 * the `Bin` class holds the screen's state and applies them.
 */
module CartScreen {

  import opened Js
  import opened Http
  import opened CartService
  import Seqs

  const AUTH_REQUIRED := "Требуется авторизация"
  const LOAD_FALLBACK := "Ошибка загрузки корзины"
  const REMOVE_FALLBACK := "Не удалось удалить товар"
  const UPDATE_FALLBACK := "Не удалось обновить количество"
  const SUCCESS_TITLE := "Успех"
  const ERROR_TITLE := "Ошибка"
  const REMOVED_TEXT := "Товар удалён из корзины"
  const ORDER_PLACED_TEXT := "Заказ успешно оформлен!"

  /**
   * `prev.filter(item => item.id !== itemId)`: keeps exactly the lines whose
   * id differs, each as often as before.
   */
  function RemoveById(items: seq<CartItem>, itemId: int): (r: seq<CartItem>)
    ensures forall x :: x in r ==> x in items && x.id != itemId
    ensures forall x :: x in items && x.id != itemId ==> multiset(r)[x] == multiset(items)[x]
  {
    Seqs.Filter(items, (item: CartItem) => item.id != itemId)
  }

  /** The lines `RemoveById` drops. */
  function WithId(items: seq<CartItem>, itemId: int): seq<CartItem>
  {
    Seqs.Filter(items, (item: CartItem) => item.id == itemId)
  }

  /**
   * `prev.map(item => item.id === itemId ? {...item, quantity} : item)`: only
   * the quantity of the matching lines changes; length, order, ids and every
   * other field stay.
   */
  function SetQuantity(items: seq<CartItem>, itemId: int, quantity: int): (r: seq<CartItem>)
    ensures |r| == |items|
    ensures forall i :: 0 <= i < |items| && items[i].id == itemId ==> r[i] == items[i].(quantity := quantity)
    ensures forall i :: 0 <= i < |items| && items[i].id != itemId ==> r[i] == items[i]
  {
    Seqs.Map(items, (item: CartItem) => if item.id == itemId then item.(quantity := quantity) else item)
  }

  /** What a handler does: the list afterwards, the service request it made, and the alert it shows. */
  datatype Handled = Handled(items: seq<CartItem>, request: Option<Request>, alert: Option<Alert>)

  /** `handleRemoveItem(itemId)` applied to the list `items`. */
  function RemoveItem(items: seq<CartItem>, itemId: int, reply: Response<()>): (r: Handled)
    ensures r.request == Some(Request(Delete, CartItemPath(itemId), NoBody))
    ensures reply.Success? ==> r.items == RemoveById(items, itemId) && r.alert == Some(Alert(SUCCESS_TITLE, REMOVED_TEXT))
    ensures reply.HttpError? ==> r.items == items && r.alert == Some(Alert(ERROR_TITLE, REMOVE_ITEM_FAILED))
  {
    var call := RemoveFromCart(itemId, reply);
    match call.outcome
    case Ok(_) => Handled(RemoveById(items, itemId), Some(call.request), Some(Alert(SUCCESS_TITLE, REMOVED_TEXT)))
    case Thrown(e) => Handled(items, Some(call.request), Some(Alert(ERROR_TITLE, OrElse(Some(e.message), REMOVE_FALLBACK))))
  }

  /** `handleUpdateQuantity(itemId, newQuantity)` applied to the list `items`. */
  function UpdateQuantity(items: seq<CartItem>, itemId: int, newQuantity: int, reply: Response<()>): (r: Handled)
    ensures newQuantity < 1 ==> r == Handled(items, None, None)
    ensures newQuantity >= 1 ==> r.request == Some(Request(Put, CartItemPath(itemId), QuantityBody(newQuantity)))
    ensures newQuantity >= 1 && reply.Success? ==> r.items == SetQuantity(items, itemId, newQuantity) && r.alert == None
    ensures newQuantity >= 1 && reply.HttpError? ==> r.items == items && r.alert == Some(Alert(ERROR_TITLE, UPDATE_QUANTITY_FAILED))
  {
    if newQuantity < 1 then Handled(items, None, None)
    else
      var call := UpdateCartItemQuantity(itemId, newQuantity, reply);
      match call.outcome
      case Ok(_) => Handled(SetQuantity(items, itemId, newQuantity), Some(call.request), None)
      case Thrown(e) => Handled(items, Some(call.request), Some(Alert(ERROR_TITLE, OrElse(Some(e.message), UPDATE_FALLBACK))))
  }

  /** What the mount effect `fetchCart` leaves behind. */
  datatype CartLoad = CartLoad(requests: seq<Request>, cartId: Option<int>, items: Option<seq<CartItem>>, error: Option<string>)

  /**
   * `fetchCart()` for the session's `userId`: no truthy id means no call at
   * all; otherwise the cart is resolved first and its items are then fetched
   * with `cart.id`. The error shown is the service's own message.
   */
  function LoadCart(userId: Option<Num>, cartReply: Response<Cart>, itemsReply: Response<seq<CartItem>>): (r: CartLoad)
    ensures !NumTruthy(userId) ==> r == CartLoad([], None, None, Some(AUTH_REQUIRED))
    ensures NumTruthy(userId) ==> 1 <= |r.requests| <= 2 && r.requests[0] == Request(Post, "/Carts", UserIdBody(userId.value.n))
    ensures NumTruthy(userId) && cartReply.Success? ==> |r.requests| == 2
    ensures |r.requests| == 2 ==>
              cartReply.Success? && r.cartId == Some(cartReply.data.id) && r.requests[1] == Request(Get, CartItemsPath(cartReply.data.id), NoBody)
    ensures r.items.Some? <==> NumTruthy(userId) && cartReply.Success? && itemsReply.Success?
    ensures r.items.Some? ==> r.items.value == itemsReply.data && r.error == None
    ensures NumTruthy(userId) && cartReply.HttpError? ==>
              |r.requests| == 1 && r.cartId == None && r.error == Some(GetOrCreateCart(userId.value.n, cartReply).outcome.error.message)
    ensures NumTruthy(userId) && cartReply.Success? && itemsReply.HttpError? ==> r.error == Some(LOAD_ITEMS_FAILED)
  {
    if !NumTruthy(userId) then CartLoad([], None, None, Some(AUTH_REQUIRED))
    else
      var cartCall := GetOrCreateCart(userId.value.n, cartReply);
      match cartCall.outcome
      case Thrown(e) => CartLoad([cartCall.request], None, None, Some(OrElse(Some(e.message), LOAD_FALLBACK)))
      case Ok(cart) =>
        var itemsCall := GetCartItems(cart.id, itemsReply);
        match itemsCall.outcome
        case Thrown(e) => CartLoad([cartCall.request, itemsCall.request], Some(cart.id), None, Some(OrElse(Some(e.message), LOAD_FALLBACK)))
        case Ok(items) => CartLoad([cartCall.request, itemsCall.request], Some(cart.id), Some(items), None)
  }

  // ---------------------------------------------------------------------
  // Properties of the list operations.
  // ---------------------------------------------------------------------

  /** Removal keeps the original order: it distributes over any split of the list. */
  lemma RemoveByIdPreservesOrder(a: seq<CartItem>, b: seq<CartItem>, itemId: int)
    ensures RemoveById(a + b, itemId) == RemoveById(a, itemId) + RemoveById(b, itemId)
  {
    Seqs.FilterAppend(a, b, (item: CartItem) => item.id != itemId);
  }

  /** Removing an id that no line has leaves the list as it is. */
  lemma RemoveAbsentIdIsIdentity(items: seq<CartItem>, itemId: int)
    requires forall i :: 0 <= i < |items| ==> items[i].id != itemId
    ensures RemoveById(items, itemId) == items
  {
    Seqs.FilterAllPass(items, (item: CartItem) => item.id != itemId);
  }

  /** Removal drops exactly the quantities of the removed lines from the total. */
  lemma {:induction false} TotalAfterRemoval(items: seq<CartItem>, itemId: int)
    ensures TotalQuantity(items) == TotalQuantity(RemoveById(items, itemId)) + TotalQuantity(WithId(items, itemId))
  {
    if items != [] {
      var x := items[0];
      var rest := items[1..];
      assert items == [x] + rest;
      TotalAfterRemoval(rest, itemId);
      TotalQuantityCons(x, rest);
      if x.id == itemId {
        TotalQuantityCons(x, WithId(rest, itemId));
      } else {
        TotalQuantityCons(x, RemoveById(rest, itemId));
      }
    }
  }

  /** How the three list operations unfold on a first line `x`. */
  lemma ListOpsCons(x: CartItem, rest: seq<CartItem>, itemId: int, quantity: int)
    ensures SetQuantity([x] + rest, itemId, quantity)
         == [if x.id == itemId then x.(quantity := quantity) else x] + SetQuantity(rest, itemId, quantity)
    ensures RemoveById([x] + rest, itemId) == (if x.id == itemId then [] else [x]) + RemoveById(rest, itemId)
    ensures WithId([x] + rest, itemId) == (if x.id == itemId then [x] else []) + WithId(rest, itemId)
  {
    assert ([x] + rest)[1..] == rest;
  }

  /** Helper for `TotalAfterUpdate`: one more matching line adds the new quantity once more. */
  lemma OneMoreTimes(a: int, n: int)
    ensures a * (n + 1) == a * n + a
  {
  }

  /** After a successful update the total counts the new quantity once for every matching line. */
  lemma {:induction false} TotalAfterUpdate(items: seq<CartItem>, itemId: int, quantity: int)
    ensures TotalQuantity(SetQuantity(items, itemId, quantity))
         == TotalQuantity(RemoveById(items, itemId)) + quantity * |WithId(items, itemId)|
  {
    if items != [] {
      var x := items[0];
      var rest := items[1..];
      assert items == [x] + rest;
      var updated := SetQuantity(rest, itemId, quantity);
      var kept := RemoveById(rest, itemId);
      var n := |WithId(rest, itemId)|;
      TotalAfterUpdate(rest, itemId, quantity);
      ListOpsCons(x, rest, itemId, quantity);
      if x.id == itemId {
        assert SetQuantity(items, itemId, quantity) == [x.(quantity := quantity)] + updated;
        assert RemoveById(items, itemId) == kept;
        assert |WithId(items, itemId)| == n + 1;
        TotalQuantityCons(x.(quantity := quantity), updated);
        OneMoreTimes(quantity, n);
      } else {
        assert SetQuantity(items, itemId, quantity) == [x] + updated;
        assert RemoveById(items, itemId) == [x] + kept;
        assert |WithId(items, itemId)| == n;
        TotalQuantityCons(x, updated);
        TotalQuantityCons(x, kept);
      }
    }
  }

  /** The "−" button asks for `quantity - 1`: at quantity 1 (or below) it does nothing at all. */
  lemma MinusAtOneIsNoOp(items: seq<CartItem>, i: nat, reply: Response<()>)
    requires i < |items| && items[i].quantity <= 1
    ensures UpdateQuantity(items, items[i].id, items[i].quantity - 1, reply) == Handled(items, None, None)
  {
  }

  /** The failure paths of the handlers leave the list untouched, whatever the server said. */
  lemma FailedHandlersKeepList(items: seq<CartItem>, itemId: int, q: int, status: Option<int>, message: Option<string>)
    ensures RemoveItem(items, itemId, HttpError(status, message)).items == items
    ensures UpdateQuantity(items, itemId, q, HttpError(status, message)).items == items
  {
  }

  /** The screen's state. */
  class Bin {
    var cartItems: seq<CartItem>
    var cartId: Option<int>
    var loading: bool
    var error: Option<string>
    var isCheckoutOpen: bool

    constructor ()
      ensures cartItems == [] && cartId == None && loading && error == None && !isCheckoutOpen
    {
      cartItems, cartId, loading, error, isCheckoutOpen := [], None, true, None, false;
    }

    /** The mount effect `fetchCart`; loading ends on every path. */
    method FetchCart(userId: Option<Num>, cartReply: Response<Cart>, itemsReply: Response<seq<CartItem>>)
      returns (requests: seq<Request>)
      modifies this
      ensures var load := LoadCart(userId, cartReply, itemsReply);
        && requests == load.requests
        && cartId == (if load.cartId.Some? then load.cartId else old(cartId))
        && cartItems == (if load.items.Some? then load.items.value else old(cartItems))
        && error == (if load.error.Some? then load.error else old(error))
      ensures !loading && isCheckoutOpen == old(isCheckoutOpen)
    {
      if !NumTruthy(userId) {
        error := Some(AUTH_REQUIRED);
        loading := false;
        return [];
      }
      var cartCall := GetOrCreateCart(userId.value.n, cartReply);
      requests := [cartCall.request];
      match cartCall.outcome {
        case Thrown(e) =>
          error := Some(OrElse(Some(e.message), LOAD_FALLBACK));
        case Ok(cart) =>
          cartId := Some(cart.id);
          var itemsCall := GetCartItems(cart.id, itemsReply);
          requests := requests + [itemsCall.request];
          match itemsCall.outcome {
            case Thrown(e) =>
              error := Some(OrElse(Some(e.message), LOAD_FALLBACK));
            case Ok(items) =>
              cartItems := items;
          }
      }
      loading := false;
    }

    /** `handleRemoveItem(itemId)`. */
    method HandleRemoveItem(itemId: int, reply: Response<()>) returns (request: Request, alert: Alert)
      modifies this
      ensures var h := RemoveItem(old(cartItems), itemId, reply);
        cartItems == h.items && Some(request) == h.request && Some(alert) == h.alert
      ensures cartId == old(cartId) && loading == old(loading) && error == old(error) && isCheckoutOpen == old(isCheckoutOpen)
    {
      var call := RemoveFromCart(itemId, reply);
      request := call.request;
      match call.outcome {
        case Ok(_) =>
          cartItems := RemoveById(cartItems, itemId);
          alert := Alert(SUCCESS_TITLE, REMOVED_TEXT);
        case Thrown(e) =>
          alert := Alert(ERROR_TITLE, OrElse(Some(e.message), REMOVE_FALLBACK));
      }
    }

    /** `handleUpdateQuantity(itemId, newQuantity)`. */
    method HandleUpdateQuantity(itemId: int, newQuantity: int, reply: Response<()>) returns (request: Option<Request>, alert: Option<Alert>)
      modifies this
      ensures var h := UpdateQuantity(old(cartItems), itemId, newQuantity, reply);
        cartItems == h.items && request == h.request && alert == h.alert
      ensures cartId == old(cartId) && loading == old(loading) && error == old(error) && isCheckoutOpen == old(isCheckoutOpen)
    {
      if newQuantity < 1 {
        return None, None;
      }
      var call := UpdateCartItemQuantity(itemId, newQuantity, reply);
      request := Some(call.request);
      match call.outcome {
        case Ok(_) =>
          cartItems := SetQuantity(cartItems, itemId, newQuantity);
          alert := None;
        case Thrown(e) =>
          alert := Some(Alert(ERROR_TITLE, OrElse(Some(e.message), UPDATE_FALLBACK)));
      }
    }

    /** The "−" button of line `i`: asks for one less. */
    method PressMinus(i: nat, reply: Response<()>) returns (request: Option<Request>, alert: Option<Alert>)
      requires i < |cartItems|
      modifies this
      ensures var h := UpdateQuantity(old(cartItems), old(cartItems)[i].id, old(cartItems)[i].quantity - 1, reply);
        cartItems == h.items && request == h.request && alert == h.alert
      ensures cartId == old(cartId) && loading == old(loading) && error == old(error) && isCheckoutOpen == old(isCheckoutOpen)
    {
      request, alert := HandleUpdateQuantity(cartItems[i].id, cartItems[i].quantity - 1, reply);
    }

    /** The "+" button of line `i`: asks for one more. */
    method PressPlus(i: nat, reply: Response<()>) returns (request: Option<Request>, alert: Option<Alert>)
      requires i < |cartItems|
      modifies this
      ensures var h := UpdateQuantity(old(cartItems), old(cartItems)[i].id, old(cartItems)[i].quantity + 1, reply);
        cartItems == h.items && request == h.request && alert == h.alert
      ensures cartId == old(cartId) && loading == old(loading) && error == old(error) && isCheckoutOpen == old(isCheckoutOpen)
    {
      request, alert := HandleUpdateQuantity(cartItems[i].id, cartItems[i].quantity + 1, reply);
    }

    /** The checkout button opens the confirmation dialog. */
    method OpenCheckout()
      modifies this
      ensures isCheckoutOpen
      ensures cartItems == old(cartItems) && cartId == old(cartId) && loading == old(loading) && error == old(error)
    {
      isCheckoutOpen := true;
    }

    /** "Отмена" (or the back gesture) closes the dialog and changes nothing else. */
    method CancelCheckout()
      modifies this
      ensures !isCheckoutOpen
      ensures cartItems == old(cartItems) && cartId == old(cartId) && loading == old(loading) && error == old(error)
    {
      isCheckoutOpen := false;
    }

    /** `handleCheckoutSuccess()`: empties the local list and closes the dialog, with no service call. */
    method HandleCheckoutSuccess() returns (alert: Alert)
      modifies this
      ensures cartItems == [] && !isCheckoutOpen
      ensures alert == Alert(SUCCESS_TITLE, ORDER_PLACED_TEXT)
      ensures cartId == old(cartId) && loading == old(loading) && error == old(error)
    {
      cartItems := [];
      isCheckoutOpen := false;
      alert := Alert(SUCCESS_TITLE, ORDER_PLACED_TEXT);
    }
  }
}
