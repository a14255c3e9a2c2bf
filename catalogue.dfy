/**
 * The category lookup that `screens/CategoryPage/index.tsx` and
 * `components/MenuItem.tsx` both run on mount: fetch every category, pick
 * the one whose slug matches the route, then fetch every menu item and keep
 * that category's items. The two screens carry identical copies of this
 * code; it is defined once here and each screen's state is its own class.
 *
 * `decodeURIComponent` and Unicode `toLowerCase` are taken as given
 * functions, passed in as parameters.
 */
module Catalogue {

  import opened Js
  import opened Http
  import Seqs

  datatype Category = Category(id: int, name: string, slug: string)

  datatype MenuItem = MenuItem(
    id: int,
    categoryId: int,
    name: string,
    description: Option<string>,
    price: real,
    imageUrl: Option<string>,
    categoryName: string)

  const CATEGORIES_REQUEST := Request(Get, "/MenuCategories", NoBody)
  const ITEMS_REQUEST := Request(Get, "/MenuItems", NoBody)

  const CATEGORY_NOT_FOUND := "Категория не найдена"
  const LOAD_FAILED := "Не удалось загрузить данные. Попробуйте позже."
  const PLACEHOLDER_IMAGE := "https://via.placeholder.com/150"

  /** Lower-casing a lower-cased text changes nothing. */
  ghost predicate Idempotent(lower: string -> string)
  {
    forall x :: lower(lower(x)) == lower(x)
  }

  /** `decodeURIComponent(categoryName).toLowerCase()`: the key is already in lower case. */
  function RouteKey(categoryName: string, decode: string -> string, lower: string -> string): (key: string)
    ensures Idempotent(lower) ==> lower(key) == key
  {
    lower(decode(categoryName))
  }

  /** `categories.find(cat => cat.slug.toLowerCase() === key)`. */
  function FindCategory(categories: seq<Category>, key: string, lower: string -> string): (r: Option<Category>)
    ensures r.Some? ==> exists i :: 0 <= i < |categories| && categories[i] == r.value && lower(categories[i].slug) == key
                          && forall j :: 0 <= j < i ==> lower(categories[j].slug) != key
    ensures r.None? <==> forall i :: 0 <= i < |categories| ==> lower(categories[i].slug) != key
  {
    Seqs.Find(categories, (c: Category) => lower(c.slug) == key)
  }

  /**
   * A route named by a category's own slug finds a category
   * with that slug up to case: the first one in server order.
   */
  lemma OwnSlugFindsCategory(categories: seq<Category>, c: Category, decode: string -> string, lower: string -> string)
    requires c in categories && decode(c.slug) == c.slug
    ensures var r := FindCategory(categories, RouteKey(c.slug, decode, lower), lower);
      r.Some? && lower(r.value.slug) == lower(c.slug)
  {
    var key := RouteKey(c.slug, decode, lower);
    var i :| 0 <= i < |categories| && categories[i] == c;
    assert lower(categories[i].slug) == key;
  }

  /**
   * `items.filter(item => item.categoryId === categoryId)`: exactly the items
   * of the category, each as often as the server sent it.
   */
  function ItemsOf(items: seq<MenuItem>, categoryId: int): (r: seq<MenuItem>)
    ensures forall x :: x in r ==> x in items && x.categoryId == categoryId
    ensures forall x :: x in items && x.categoryId == categoryId ==> multiset(r)[x] == multiset(items)[x]
  {
    Seqs.Filter(items, (item: MenuItem) => item.categoryId == categoryId)
  }

  /** What the mount effect leaves behind: requests made, the display name, the item list, and the error text. */
  datatype CategoryLoad = CategoryLoad(
    requests: seq<Request>,
    displayName: Option<string>,
    items: Option<seq<MenuItem>>,
    error: Option<string>)

  /**
   * `fetchCategoryData()`. Any non-OK answer throws, and the catch replaces
   * it with one generic text; a missing category stops before the items are
   * fetched. The display name is set as soon as the category is found, so a
   * failure of the items fetch leaves it set.
   */
  function LoadCategory(key: string, lower: string -> string, categoriesReply: Response<seq<Category>>,
                        itemsReply: Response<seq<MenuItem>>): (r: CategoryLoad)
    ensures |r.requests| >= 1 && r.requests[0] == CATEGORIES_REQUEST
    ensures categoriesReply.HttpError? ==> r == CategoryLoad([CATEGORIES_REQUEST], None, None, Some(LOAD_FAILED))
    ensures categoriesReply.Success? && FindCategory(categoriesReply.data, key, lower).None? ==>
              r == CategoryLoad([CATEGORIES_REQUEST], None, None, Some(CATEGORY_NOT_FOUND))
    ensures |r.requests| == 2 <==> categoriesReply.Success? && FindCategory(categoriesReply.data, key, lower).Some?
    ensures |r.requests| == 2 ==> r.requests[1] == ITEMS_REQUEST
                                  && r.displayName == Some(FindCategory(categoriesReply.data, key, lower).value.name)
    ensures r.items.Some? <==> |r.requests| == 2 && itemsReply.Success?
    ensures r.items.Some? ==> r.error == None
                              && r.items.value == ItemsOf(itemsReply.data, FindCategory(categoriesReply.data, key, lower).value.id)
    ensures r.items.None? ==> r.error.Some?
  {
    match categoriesReply
    case HttpError(_, _) => CategoryLoad([CATEGORIES_REQUEST], None, None, Some(LOAD_FAILED))
    case Success(categories) =>
      match FindCategory(categories, key, lower)
      case None => CategoryLoad([CATEGORIES_REQUEST], None, None, Some(CATEGORY_NOT_FOUND))
      case Some(category) =>
        match itemsReply
        case HttpError(_, _) => CategoryLoad([CATEGORIES_REQUEST, ITEMS_REQUEST], Some(category.name), None, Some(LOAD_FAILED))
        case Success(items) =>
          CategoryLoad([CATEGORIES_REQUEST, ITEMS_REQUEST], Some(category.name), Some(ItemsOf(items, category.id)), None)
  }

  // ---------------------------------------------------------------------
  // Properties of the selection.
  // ---------------------------------------------------------------------

  /** The first matching category wins: a match at the front hides any later category with the same slug. */
  lemma FirstMatchWins(first: Category, rest: seq<Category>, key: string, lower: string -> string)
    requires lower(first.slug) == key
    ensures FindCategory([first] + rest, key, lower) == Some(first)
  {
    var s := [first] + rest;
    assert s[0] == first;
  }

  /** A category whose slug does not match is skipped, whatever its name. */
  lemma NonMatchingSkipped(first: Category, rest: seq<Category>, key: string, lower: string -> string)
    requires lower(first.slug) != key
    ensures FindCategory([first] + rest, key, lower) == FindCategory(rest, key, lower)
  {
    var s := [first] + rest;
    var p := (c: Category) => lower(c.slug) == key;
    assert s[1..] == rest;
    assert Seqs.FindIndex(s, p) == match Seqs.FindIndex(rest, p) case None => None case Some(k) => Some(k + 1);
  }

  /** The kept items stay in server order: filtering distributes over any split of the list. */
  lemma ItemsOfPreservesOrder(a: seq<MenuItem>, b: seq<MenuItem>, categoryId: int)
    ensures ItemsOf(a + b, categoryId) == ItemsOf(a, categoryId) + ItemsOf(b, categoryId)
  {
    Seqs.FilterAppend(a, b, (item: MenuItem) => item.categoryId == categoryId);
  }

  /** A list already of one category is shown whole. */
  lemma ItemsOfOneCategory(items: seq<MenuItem>, categoryId: int)
    requires forall i :: 0 <= i < |items| ==> items[i].categoryId == categoryId
    ensures ItemsOf(items, categoryId) == items
  {
    Seqs.FilterAllPass(items, (item: MenuItem) => item.categoryId == categoryId);
  }

  /** Every failure shows one of two texts, and only a missing category shows the second. */
  lemma LoadErrorTexts(key: string, lower: string -> string, categoriesReply: Response<seq<Category>>,
                       itemsReply: Response<seq<MenuItem>>)
    ensures var r := LoadCategory(key, lower, categoriesReply, itemsReply);
      r.error.Some? ==> r.error.value in {LOAD_FAILED, CATEGORY_NOT_FOUND}
    ensures var r := LoadCategory(key, lower, categoriesReply, itemsReply);
      r.error == Some(CATEGORY_NOT_FOUND) <==> categoriesReply.Success? && FindCategory(categoriesReply.data, key, lower).None?
  {
  }
}
