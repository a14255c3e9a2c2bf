/**
 * The category screen of `screens/CategoryPage/index.tsx`: the shared
 * category lookup, and the props each dish card is rendered with.
 */
module CategoryPage {

  import opened Js
  import opened Http
  import opened Catalogue
  import CategoryPageItem
  import CartService

  const NO_DESCRIPTION := "Описание отсутствует"

  /** The props this screen gives a card; the price text is left out, and no `foodId` is passed. */
  datatype CardProps = CardProps(img: string, foodName: string, foodDesc: string, foodId: Option<Num>)

  /** `renderItem({item})`: falsy image and description fall back to fixed texts. */
  function RenderItem(item: MenuItem): (p: CardProps)
    ensures p.foodName == item.name && p.foodId == None
    ensures StrTruthy(item.imageUrl) ==> p.img == item.imageUrl.value
    ensures !StrTruthy(item.imageUrl) ==> p.img == PLACEHOLDER_IMAGE
    ensures StrTruthy(item.description) ==> p.foodDesc == item.description.value
    ensures !StrTruthy(item.description) ==> p.foodDesc == NO_DESCRIPTION
  {
    CardProps(OrElse(item.imageUrl, PLACEHOLDER_IMAGE), item.name, OrElse(item.description, NO_DESCRIPTION), None)
  }

  /**
   * Because no id is passed, every card on this screen adds dish 18,
   * whichever dish it shows.
   */
  lemma EveryCardAddsFallbackDish(item: MenuItem, userId: Option<Num>, cart: CartService.Cart,
                                  addReply: Response<CartService.CartItem>)
    requires NumTruthy(userId)
    ensures var card := RenderItem(item);
      CategoryPageItem.HandleAddToCart(userId, card.foodName, card.foodId, Success(cart), addReply).requests[1]
        == Request(Post, CartService.CartItemsPath(cart.id), AddItemBody(CategoryPageItem.FALLBACK_FOOD_ID, 1))
  {
  }

  /** The screen's state. */
  class Page {
    var menuItems: seq<MenuItem>
    var categoryDisplayName: string
    var loading: bool
    var error: Option<string>

    constructor ()
      ensures menuItems == [] && categoryDisplayName == "" && loading && error == None
    {
      menuItems, categoryDisplayName, loading, error := [], "", true, None;
    }

    /** The mount effect `fetchCategoryData()` for the route's `categoryName`; loading ends on every path. */
    method FetchCategoryData(categoryName: string, decode: string -> string, lower: string -> string,
                             categoriesReply: Response<seq<Category>>, itemsReply: Response<seq<MenuItem>>)
      returns (requests: seq<Request>)
      modifies this
      ensures var l := LoadCategory(RouteKey(categoryName, decode, lower), lower, categoriesReply, itemsReply);
        && requests == l.requests
        && categoryDisplayName == (if l.displayName.Some? then l.displayName.value else old(categoryDisplayName))
        && menuItems == (if l.items.Some? then l.items.value else old(menuItems))
        && error == (if l.error.Some? then l.error else old(error))
      ensures !loading
    {
      var key := RouteKey(categoryName, decode, lower);
      requests := [CATEGORIES_REQUEST];
      match categoriesReply {
        case HttpError(_, _) =>
          error := Some(LOAD_FAILED);
        case Success(categories) =>
          var category := FindCategory(categories, key, lower);
          if category.None? {
            error := Some(CATEGORY_NOT_FOUND);
          } else {
            categoryDisplayName := category.value.name;
            requests := requests + [ITEMS_REQUEST];
            match itemsReply {
              case HttpError(_, _) =>
                error := Some(LOAD_FAILED);
              case Success(items) =>
                menuItems := ItemsOf(items, category.value.id);
            }
          }
      }
      loading := false;
    }
  }
}
