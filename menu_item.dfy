/**
 * The dish list of `components/MenuItem.tsx`: the same category lookup as
 * the category screen, a detail modal for the tapped dish, and a title with
 * its first character upper-cased. `toUpperCase` is a given function.
 */
module MenuItemScreen {

  import opened Js
  import opened Http
  import opened Catalogue

  const NO_DESCRIPTION := "Без описания"

  /** `s.charAt(0)`: the first character, or the empty string. */
  function CharAt0(s: string): (r: string)
    ensures |r| <= 1 && |r| <= |s| && r == s[..|r|]
    ensures s != [] ==> r == [s[0]]
  {
    if s == [] then "" else s[..1]
  }

  /** `name.charAt(0).toUpperCase() + name.slice(1)`: the title ends with everything after the first character. */
  function Title(name: string, upper: string -> string): (r: string)
    ensures name != [] ==> |r| >= |name| - 1 && r[|r| - (|name| - 1)..] == name[1..]
  {
    upper(CharAt0(name)) + name[|CharAt0(name)|..]
  }

  /** Only the first character goes through `upper`: the rest of the title is the display name's own text. */
  lemma TitleKeepsRest(name: string, upper: string -> string)
    requires name != ""
    ensures Title(name, upper) == upper([name[0]]) + name[1..]
    ensures |upper([name[0]])| == 1 ==> |Title(name, upper)| == |name| && Title(name, upper)[1..] == name[1..]
  {
  }

  /** An empty display name gives whatever upper-casing the empty string gives. */
  lemma TitleOfEmpty(upper: string -> string)
    ensures Title("", upper) == upper("")
  {
  }

  /**
   * The props passed to the detail modal for the chosen dish. The local modal
   * component displays the name, description and image; it never reads `foodId`.
   */
  datatype ModalProps = ModalProps(foodName: string, description: string, image: string, foodId: int)

  function Modal(item: MenuItem): (p: ModalProps)
    ensures p.foodName == item.name && p.foodId == item.id
    ensures StrTruthy(item.description) ==> p.description == item.description.value
    ensures !StrTruthy(item.description) ==> p.description == NO_DESCRIPTION
    ensures StrTruthy(item.imageUrl) ==> p.image == item.imageUrl.value
    ensures !StrTruthy(item.imageUrl) ==> p.image == PLACEHOLDER_IMAGE
  {
    ModalProps(item.name, OrElse(item.description, NO_DESCRIPTION), OrElse(item.imageUrl, PLACEHOLDER_IMAGE), item.id)
  }

  /** The screen's state. */
  class Screen {
    var menuItems: seq<MenuItem>
    var categoryDisplayName: string
    var selectedFood: Option<MenuItem>
    var loading: bool
    var error: Option<string>

    constructor ()
      ensures menuItems == [] && categoryDisplayName == "" && selectedFood == None && loading && error == None
    {
      menuItems, categoryDisplayName, selectedFood, loading, error := [], "", None, true, None;
    }

    /** The mount effect `fetchCategoryData()`, identical to the category screen's; the modal is not touched. */
    method FetchCategoryData(categoryName: string, decode: string -> string, lower: string -> string,
                             categoriesReply: Response<seq<Category>>, itemsReply: Response<seq<MenuItem>>)
      returns (requests: seq<Request>)
      modifies this
      ensures var l := LoadCategory(RouteKey(categoryName, decode, lower), lower, categoriesReply, itemsReply);
        && requests == l.requests
        && categoryDisplayName == (if l.displayName.Some? then l.displayName.value else old(categoryDisplayName))
        && menuItems == (if l.items.Some? then l.items.value else old(menuItems))
        && error == (if l.error.Some? then l.error else old(error))
      ensures !loading && selectedFood == old(selectedFood)
    {
      var key := RouteKey(categoryName, decode, lower);
      requests := [CATEGORIES_REQUEST];
      match categoriesReply {
        case HttpError(_, _) =>
          error := Some(LOAD_FAILED);
        case Success(categories) =>
          var category := FindCategory(categories, key, lower);
          if category.None? {
            error := Some(CATEGORY_NOT_FOUND);
          } else {
            categoryDisplayName := category.value.name;
            requests := requests + [ITEMS_REQUEST];
            match itemsReply {
              case HttpError(_, _) =>
                error := Some(LOAD_FAILED);
              case Success(items) =>
                menuItems := ItemsOf(items, category.value.id);
            }
          }
      }
      loading := false;
    }

    /** `openModal(item)`: the tapped dish becomes the modal's dish. */
    method OpenModal(item: MenuItem) returns (props: ModalProps)
      modifies this
      ensures selectedFood == Some(item) && props == Modal(item)
      ensures menuItems == old(menuItems) && categoryDisplayName == old(categoryDisplayName)
      ensures loading == old(loading) && error == old(error)
    {
      selectedFood := Some(item);
      props := Modal(item);
    }

    /** `closeModal()`: no dish is selected and the modal is not shown. */
    method CloseModal()
      modifies this
      ensures selectedFood == None
      ensures menuItems == old(menuItems) && categoryDisplayName == old(categoryDisplayName)
      ensures loading == old(loading) && error == old(error)
    {
      selectedFood := None;
    }
  }
}
