/**
 * The item card of `components/CategoryPageItem.tsx`. Its cart button
 * resolves the signed-in user's cart and adds one unit of the card's dish,
 * falling back to dish 18 when the card was given no usable id.
 */
module CategoryPageItem {

  import opened Js
  import opened Http
  import opened CartService

  const FALLBACK_FOOD_ID := 18
  const AUTH_REQUIRED := "Требуется авторизация"
  const INVALID_ID := "Некорректный идентификатор товара"
  const ADD_FALLBACK := "Не удалось добавить товар в корзину"
  const ADDED_SUFFIX := " добавлен в корзину!"
  const SUCCESS_TITLE := "Успех"
  const ERROR_TITLE := "Ошибка"

  /** `foodId && !isNaN(foodId) && foodId > 0 ? foodId : 18`; `None` is a card given no id. */
  function EffectiveFoodId(foodId: Option<Num>): (r: int)
    ensures r > 0
    ensures foodId.Some? && foodId.value.Int? && foodId.value.n > 0 ==> r == foodId.value.n
    ensures !(foodId.Some? && foodId.value.Int? && foodId.value.n > 0) ==> r == FALLBACK_FOOD_ID
  {
    if NumTruthy(foodId) && foodId.value.Int? && foodId.value.n > 0 then foodId.value.n else FALLBACK_FOOD_ID
  }

  /** The guard after it: `!id || isNaN(id) || id <= 0` on an integer, where the `!id` test adds nothing to `id <= 0`. */
  predicate InvalidFoodId(id: int)
    ensures InvalidFoodId(id) <==> id <= 0
  {
    id == 0 || id <= 0
  }

  /** What a press of the cart button does: the requests it makes, in order, and the alert it ends with. */
  datatype AddResult = AddResult(requests: seq<Request>, alert: Alert)

  /** `handleAddToCart()` for the session's `userId` and the card's `foodName` and `foodId`. */
  function HandleAddToCart(userId: Option<Num>, foodName: string, foodId: Option<Num>,
                           cartReply: Response<Cart>, addReply: Response<CartItem>): (r: AddResult)
    ensures !NumTruthy(userId) ==> r == AddResult([], Alert(ERROR_TITLE, AUTH_REQUIRED))
    ensures NumTruthy(userId) ==> 1 <= |r.requests| <= 2 && r.requests[0] == Request(Post, "/Carts", UserIdBody(userId.value.n))
    ensures |r.requests| == 2 ==>
              cartReply.Success?
              && r.requests[1] == Request(Post, CartItemsPath(cartReply.data.id), AddItemBody(EffectiveFoodId(foodId), 1))
    ensures NumTruthy(userId) && cartReply.Success? ==> |r.requests| == 2
    ensures r.alert.title == SUCCESS_TITLE <==> NumTruthy(userId) && cartReply.Success? && addReply.Success?
    ensures r.alert.title == SUCCESS_TITLE ==> r.alert.message == foodName + ADDED_SUFFIX
    ensures NumTruthy(userId) && cartReply.HttpError? ==>
              r.alert == Alert(ERROR_TITLE, GetOrCreateCart(userId.value.n, cartReply).outcome.error.message)
    ensures NumTruthy(userId) && cartReply.Success? && addReply.HttpError? ==>
              r.alert == Alert(ERROR_TITLE, AddToCart(cartReply.data.id, EffectiveFoodId(foodId), 1, addReply).outcome.error.message)
  {
    if !NumTruthy(userId) then AddResult([], Alert(ERROR_TITLE, AUTH_REQUIRED))
    else
      var effectiveFoodId := EffectiveFoodId(foodId);
      if InvalidFoodId(effectiveFoodId) then AddResult([], Alert(ERROR_TITLE, INVALID_ID))
      else
        var cartCall := GetOrCreateCart(userId.value.n, cartReply);
        match cartCall.outcome
        case Thrown(e) => AddResult([cartCall.request], Alert(ERROR_TITLE, OrElse(Some(e.message), ADD_FALLBACK)))
        case Ok(cart) =>
          var addCall := AddToCart(cart.id, effectiveFoodId, 1, addReply);
          match addCall.outcome
          case Thrown(e) => AddResult([cartCall.request, addCall.request], Alert(ERROR_TITLE, OrElse(Some(e.message), ADD_FALLBACK)))
          case Ok(_) => AddResult([cartCall.request, addCall.request], Alert(SUCCESS_TITLE, foodName + ADDED_SUFFIX))
  }

  /**
   * The fallback id is always valid, so the invalid-id branch never runs: a
   * signed-in press always goes on to ask for the cart.
   */
  lemma InvalidIdBranchUnreachable(userId: Option<Num>, foodName: string, foodId: Option<Num>,
                                   cartReply: Response<Cart>, addReply: Response<CartItem>)
    ensures !InvalidFoodId(EffectiveFoodId(foodId))
    ensures NumTruthy(userId) ==> HandleAddToCart(userId, foodName, foodId, cartReply, addReply).requests != []
  {
  }

  /** Cards given no id, a NaN id, or a non-positive id all add dish 18. */
  lemma MissingIdsFallBack(n: int)
    requires n <= 0
    ensures EffectiveFoodId(None) == FALLBACK_FOOD_ID
    ensures EffectiveFoodId(Some(NaN)) == FALLBACK_FOOD_ID
    ensures EffectiveFoodId(Some(Int(n))) == FALLBACK_FOOD_ID
  {
  }
}
