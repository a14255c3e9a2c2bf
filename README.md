# Food-ordering client: cart, orders, session and forms

This project models the client-side logic of a React Native food-ordering app.

- A customer browses six menu categories and adds dishes to a server-side cart.
- In the cart screen the customer changes quantities, removes lines and checks out.
- Customers register and sign in through two forms.
- A courier administrator lists every order and sets each order's status.

Every backend call is a parameter: the reply the server gives to the one request the call sends. A call is `Success(data)` or `HttpError(status, serverMessage)`. Each operation returns the requests it sent, in order, together with what it produced.

The Dafny files:

- `js.dfy`: the JavaScript semantics the code depends on.
  - Optional values and numbers that may be NaN, with their truthiness.
  - `Error` objects, `a || b`, `String.prototype.trim`, and `Number.prototype.toString` with its `parseInt` read-back.
- `http.dfy`: a request as its verb, its path below the API root and its JSON body.
- `seqs.dfy`: `filter`, `map` and `find` on sequences.
- `cart_service.dfy`: `services/CartService.tsx`. This file is pure: one request per function, with its error mapping.
- `orders.dfy`: `services/api.ts` and `services/OrderService.ts`.
  - The shared calls.
  - The write-once status cache: a class `StatusCache` holding `cachedStatuses`, plus a function `FetchStatuses` that specifies one call.
  - The two status-update payloads.
- `auth.dfy`: `services/AuthContext.tsx`.
  - The session state, as class `AuthState`.
  - The key-value storage, as class `Storage`.
  - The save and load effects.
- `cart_screen.dfy`: `screens/Bin/index.tsx`. Class `Bin` holds the screen state; the pure list operations each handler applies are separate functions.
- `admin_panel.dfy`: `screens/CourierAdminPanel/index.tsx`. Class `Panel` holds the screen state; the load, the access guard and replace-by-id are modelled as functions.
- `register.dfy` and `login.dfy`: the two forms. Each has a class for its state and a pure `Submit` function for its submit handler.
- `catalogue.dfy`: the category lookup. `screens/CategoryPage/index.tsx` and `components/MenuItem.tsx` both contain it, so it is modelled once here.
- `category_page.dfy` and `menu_item.dfy`: the state of those two screens, and the props they render.
- `category_page_item.dfy`: the add-to-cart button of a dish card.
- `menu_collection.dfy`: the six menu links, and the slug taken from the last path segment.

Behaviour of the code worth knowing:

- `getOrCreateCart` sends a single create call. It does no lookup first and never retries.
- The session holds no role. `isCourierAdmin` is not provided by the session store at all (`services/AuthContext.tsx:72`). The admin panel's mount effect calls it (`screens/CourierAdminPanel/index.tsx:24`), so as written that call throws a `TypeError` on mount and neither the redirect nor the load runs. The model takes the answer as a boolean parameter and models the guard the code evidently intends.
- A failed status fetch has no fallback status catalogue, and the status cache cannot be reset.
- The add-to-cart button substitutes dish 18 for a missing or invalid id. It does not reject the id.
- The services wrap every failure in a plain `Error` with no response, so the admin panel's 404 text can never be shown. The lemma `AdminPanel.LoadNeverReportsMissingEndpoint` proves this.
- `services/OrderService.ts` points at a placeholder server address. The admin panel uses `services/api.ts`.

## Model

| member | source | states |
|---|---|---|
| Js.TrimStart | components/Register.tsx:79 | the result is a suffix of the input; only whitespace was removed, and it starts with a non-whitespace character (or is empty) |
| Js.TrimEnd | components/Register.tsx:79 | the result is a prefix of the input; only whitespace was removed, and it ends with a non-whitespace character (or is empty) |
| Js.TrimIdentity | components/Register.tsx:79 | trimming a string that neither starts nor ends with whitespace leaves it unchanged |
| Js.Trim | components/Register.tsx:79 | `trim` leaves a text that starts and ends with a non-whitespace character (or is empty), and that sits in the input with only whitespace before and after it |
| Js.NatToString | services/AuthContext.tsx:49 | `toString` of a natural number is a non-empty string of decimal digits with no leading zero |
| Js.IntToString | services/AuthContext.tsx:49 | `toString` of an integer starts with a minus sign exactly when it is negative, and the rest is decimal digits |
| Js.DigitPrefixLength | services/AuthContext.tsx:28 | `parseInt` reads exactly the longest run of digits at the front |
| Js.NatToStringValue | services/AuthContext.tsx:49 | the decimal digits written for `n` have the value `n` |
| Js.ParseIntOfNatToString | services/AuthContext.tsx:28 | `parseInt` of the decimal text of a natural number gives that number back |
| Js.ParseIntOfNegative | services/AuthContext.tsx:28 | `parseInt` of `-` followed by the digits of `m` gives `-m` |
| Js.ParseIntOfIntToString | services/AuthContext.tsx:28-49 | `parseInt(n.toString()) == n` for every integer: the stored user id reads back unchanged |
| Js.ParseInt | services/AuthContext.tsx:28 | `parseInt` gives NaN for an empty or blank text and for one whose first non-blank character is neither a digit nor a sign; a first digit 1-9 always gives a number |
| Js.ParseIntSkipsLeadingWhitespace | services/AuthContext.tsx:28 | any leading whitespace is skipped: it does not change the number read |
| Js.TrimStartSkips | components/Register.tsx:79 | whitespace in front of a text does not change what trimming its start leaves |
| Js.ParseIntReadsHexPrefix | services/AuthContext.tsx:28 | a `0x` prefix selects base 16 and reading stops at the first non-digit: `parseInt("0x1fz")` is 31 |
| Seqs.Filter | screens/Bin/index.tsx:60 | `filter` keeps only elements that pass, each exactly as often as in the input, and drops every element that fails |
| Seqs.FilterAppend | screens/CategoryPage/index.tsx:49-51 | `filter` distributes over concatenation, so the kept elements stay in their original order |
| Seqs.FilterAllPass | screens/CategoryPage/index.tsx:49-51 | filtering a list whose every element passes returns the list |
| Seqs.FilterIdempotent | screens/Bin/index.tsx:60 | filtering twice by the same test is filtering once |
| Seqs.Map | screens/Bin/index.tsx:74-76 | `map` keeps the length and applies the function at every index |
| Seqs.FindIndex | screens/CategoryPage/index.tsx:33-35 | `find` stops at the first element that passes: every earlier element fails; with no result, no element passes |
| Seqs.Find | screens/CategoryPage/index.tsx:33-35 | `find` returns an element exactly when one passes, and the one it returns is the first that passes |
| CartService.GetOrCreateCart | services/CartService.tsx:20-34 | one POST `/Carts` with `{userId}`; the server's cart unchanged; on failure the server's message if non-empty, else the fixed text, with no response attached |
| CartService.GetCartItems | services/CartService.tsx:36-46 | one GET of the cart's items; the server's list unchanged; any failure gives the fixed message |
| CartService.AddToCart | services/CartService.tsx:48-66 | one POST to the cart's items with exactly `{menuItemId, quantity}`; failure messages as in `getOrCreateCart` with its own fallback |
| CartService.DefaultQuantityAddsOne | services/CartService.tsx:51-57 | a call that leaves out the quantity (a default parameter) sends quantity 1 |
| CartService.UpdateCartItemQuantity | services/CartService.tsx:68-81 | one PUT with only `{quantity}` and no range check; any failure gives the fixed message |
| CartService.RemoveFromCart | services/CartService.tsx:83-90 | one DELETE of the line; any failure gives the fixed message |
| CartService.ClearCart | services/CartService.tsx:92-99 | one DELETE of the cart's whole item list; any failure gives the fixed message |
| CartService.GetTotalCartItems | services/CartService.tsx:101-109 | the total is the sum of the items' quantities; any failure inside, including a failed item fetch, gives only the counting message |
| CartService.TotalQuantityAppend | services/CartService.tsx:104 | the total of two lists joined is the sum of their totals |
| CartService.TotalQuantity | services/CartService.tsx:104 | the `reduce` total of no lines is 0, and of lines with non-negative quantities is non-negative |
| CartService.TotalQuantityCons | services/CartService.tsx:104 | the total is the first line's quantity plus the total of the rest |
| CartService.TotalQuantityAtLeastLength | services/CartService.tsx:104 | with every quantity at least 1, the total is at least the number of lines |
| CartService.TotalQuantityExamples | services/CartService.tsx:101-104 | an empty cart totals 0; quantities 2, 3 and 1 total 6 |
| CartService.ServiceMessagesNonEmpty | services/CartService.tsx:30-108 | every service failure carries a non-empty message |
| CartService.FixedMessagesIgnoreServerDetail | services/CartService.tsx:42-108 | five calls surface the same error whatever status and message the server sent |
| CartService.CountingHidesLoadMessage | services/CartService.tsx:102-108 | the item-load message is replaced by the counting message, and the two texts differ |
| CartService.ServiceErrorsCarryNoStatus | services/CartService.tsx:30-65 | service errors carry no HTTP response, so callers never see a status code |
| Orders.FetchOrders | services/api.ts:18-26 | one GET `/orders`; the server's list unchanged; on failure a plain error with the fixed message and no response |
| Orders.UpdateOrderStatusByName | services/api.ts:42-57 | PATCH `/orders/{id}` with `{status}` (a name); the server's order unchanged; any failure gives the fixed message |
| Orders.UpdateOrderStatusById | services/OrderService.ts:33-48 | PATCH `/orders/{id}` with `{statusId}` (a number); the server's order unchanged; any failure gives the fixed message |
| Orders.UpdateVariantsDiffer | services/OrderService.ts:38-41 | both update variants address the same path, but their payloads never coincide |
| Orders.FetchStatuses | services/api.ts:28-40 | a populated cache answers alone with no request; an empty cache sends the request; only a success fills the cache; a failure leaves it empty and throws the fixed message |
| Orders.FetchSequence | services/api.ts:16-40 | a run of calls yields one outcome per call |
| Orders.PopulatedCacheAnswersAlone | services/api.ts:30-35 | once populated, the cache is never cleared or overwritten, no further request is sent, and every call returns the cached list |
| Orders.FirstSuccessIsTheOnlyRequest | services/api.ts:30-35 | from an empty cache, a successful first fetch is the only request of the whole run, and every call returns its list |
| Orders.RequestsUntilFirstSuccess | services/api.ts:33-39 | failures leave the cache empty: the run sends one request per call up to and including the first success, and the cache then holds that success's list |
| Orders.EmptyListIsCached | services/api.ts:30 | an empty status list counts as populated: the next call sends no request |
| Orders.StatusCache.constructor | services/api.ts:16 | the cache starts empty |
| Orders.StatusCache.FetchOrderStatuses | services/OrderService.ts:19-31 | the call's request, outcome and new cache are those `FetchStatuses` specifies, and a populated cache is left as it was |
| Auth.Storage.constructor | services/AuthContext.tsx:23-24 | the storage holds the given entries |
| Auth.SavedEntries | services/AuthContext.tsx:40-56 | saving touches only the `user` and `userId` keys |
| Auth.SaveUser | services/AuthContext.tsx:42-46 | the `user` key holds the stringified user when there is one and is removed otherwise; every other key is untouched |
| Auth.SaveUserId | services/AuthContext.tsx:48-52 | the `userId` key is present exactly when the id is truthy, and then `parseInt` of it gives the id back; every other key is untouched |
| Auth.Loaded | services/AuthContext.tsx:20-34 | a failed read restores nothing; a field whose stored string is missing or empty keeps its in-memory value |
| Auth.SaveThenLoad | services/AuthContext.tsx:27-52 | a session saved without failure, with a non-zero id and a user that round-trips through JSON, is restored exactly by the next load |
| Auth.ZeroIdIsNotPersisted | services/AuthContext.tsx:48-52 | an id of 0 is falsy: the stored id is removed, and the next load keeps the in-memory id |
| Auth.LoggedOutSaveClearsSession | services/AuthContext.tsx:42-52 | with no user and no id, saving removes both keys and keeps every other entry |
| Auth.CorruptUserRestoresNothing | services/AuthContext.tsx:27-30 | a stored user that does not parse stops the load before the id is read, so neither field changes |
| Auth.AuthState.constructor | services/AuthContext.tsx:15-17 | no user, no id, and not ready |
| Auth.AuthState.Login | services/AuthContext.tsx:61-64 | sets user and id to the arguments; readiness is unchanged |
| Auth.AuthState.Logout | services/AuthContext.tsx:66-69 | clears user and id; readiness is unchanged |
| Auth.AuthState.LoadAuthData | services/AuthContext.tsx:19-37 | the session fields become `Loaded` of storage and the old fields; `isAuthReady` is true afterwards on every path |
| Auth.AuthState.SaveAuthData | services/AuthContext.tsx:39-59 | the storage becomes `SavedEntries`; a throwing write only stops the writes after it, and the in-memory session is untouched |
| Auth.UseAuth | services/AuthContext.tsx:78-84 | the enclosing provider's state, or an error with the fixed text when there is none |
| CartScreen.RemoveItem | screens/Bin/index.tsx:56-66 | one DELETE; on success the list minus the lines with that id plus a success alert; on failure the list unchanged plus the service's message |
| CartScreen.UpdateQuantity | screens/Bin/index.tsx:68-82 | below 1: nothing happens and no request is sent; otherwise one PUT; on success only the matching lines get the new quantity; on failure the list unchanged plus the service's message |
| CartScreen.LoadCart | screens/Bin/index.tsx:29-51 | no truthy user id: the authorization error and no request; otherwise the cart is resolved first, and its items are fetched with `cart.id` exactly when the cart call succeeds; the items are shown only if both succeed; errors carry the service's message |
| CartScreen.RemoveById | screens/Bin/index.tsx:60 | every line kept was in the list and has a different id, and every line of the list whose id differs is kept as often as before |
| CartScreen.RemoveByIdPreservesOrder | screens/Bin/index.tsx:60 | removal distributes over any split of the list, so the order of the kept lines is unchanged |
| CartScreen.RemoveAbsentIdIsIdentity | screens/Bin/index.tsx:60 | removing an id that no line has leaves the list unchanged |
| CartScreen.TotalAfterRemoval | screens/Bin/index.tsx:60 | the old total equals the total after removal plus the quantities of the removed lines |
| CartScreen.SetQuantity | screens/Bin/index.tsx:73-77 | a quantity update keeps the length; lines with the id change only their quantity; every other line is unchanged |
| CartScreen.ListOpsCons | screens/Bin/index.tsx:60-77 | how removal, selection and the quantity update act on a list's first line |
| CartScreen.TotalAfterUpdate | screens/Bin/index.tsx:73-77 | after the update, the total is the total of the untouched lines plus the new quantity once per matching line |
| CartScreen.MinusAtOneIsNoOp | screens/Bin/index.tsx:148 | pressing "−" at quantity 1 asks for 0, which is rejected before any request: nothing changes |
| CartScreen.FailedHandlersKeepList | screens/Bin/index.tsx:56-82 | a failed removal or update leaves the list unchanged |
| CartScreen.Bin.constructor | screens/Bin/index.tsx:23-27 | empty list, no cart, loading, no error, checkout closed |
| CartScreen.Bin.FetchCart | screens/Bin/index.tsx:30-51 | the requests and the new cart id, items and error are those `LoadCart` gives; loading is false on every exit path |
| CartScreen.Bin.HandleRemoveItem | screens/Bin/index.tsx:56-66 | the list, request and alert are those `RemoveItem` gives; nothing else changes |
| CartScreen.Bin.HandleUpdateQuantity | screens/Bin/index.tsx:68-82 | the list, request and alert are those `UpdateQuantity` gives; nothing else changes |
| CartScreen.Bin.PressMinus | screens/Bin/index.tsx:148 | the "−" button asks for the line's quantity minus one |
| CartScreen.Bin.PressPlus | screens/Bin/index.tsx:157 | the "+" button asks for the line's quantity plus one |
| CartScreen.Bin.OpenCheckout | screens/Bin/index.tsx:178 | opens the confirmation dialog and changes nothing else |
| CartScreen.Bin.CancelCheckout | screens/Bin/index.tsx:190 | closes the dialog and changes nothing else |
| CartScreen.Bin.HandleCheckoutSuccess | screens/Bin/index.tsx:84-88 | empties the local list and closes the dialog with no service call; the order-placed alert |
| AdminPanel.LoadErrorMessage | screens/CourierAdminPanel/index.tsx:44-48 | the 404 text appears exactly when the error carries status 404; any other error gives the load-failure prefix and a closing full stop |
| AdminPanel.UpdateErrorMessage | screens/CourierAdminPanel/index.tsx:63-65 | the status-change failure text is the fixed prefix, the error's message and a full stop |
| AdminPanel.UpdateTextIsNotLoadText | screens/CourierAdminPanel/index.tsx:44-48 | a failed status change never shows a text the load can show, the 404 text included |
| AdminPanel.Load | screens/CourierAdminPanel/index.tsx:31-52 | the requests are exactly the orders request, followed by the status request when the cache is empty; both lists are kept only when both fetches succeed; the orders error wins when both fail; the status fetch may fill the cache even when the orders fail |
| AdminPanel.LoadNeverReportsMissingEndpoint | screens/CourierAdminPanel/index.tsx:44-48 | since service errors carry no response, a load never shows the 404 text |
| AdminPanel.ReloadWithCachedStatuses | screens/CourierAdminPanel/index.tsx:34-37 | with the statuses cached, a load asks only for the orders, and the status reply does not matter |
| AdminPanel.FailedLoadCanFillCache | screens/CourierAdminPanel/index.tsx:80-102 | a load whose orders fail still caches the statuses, so the retry sends only the orders request |
| AdminPanel.ReplaceById | screens/CourierAdminPanel/index.tsx:62 | replace-by-id keeps the length, puts the server's order at every index whose id matches, and leaves the others in place |
| AdminPanel.ReplaceAbsentIdIsIdentity | screens/CourierAdminPanel/index.tsx:62 | replacing an id that no order has changes nothing |
| AdminPanel.ReplaceByIdIdempotent | screens/CourierAdminPanel/index.tsx:62 | applying the same update twice gives the same list as applying it once |
| AdminPanel.Panel.constructor | screens/CourierAdminPanel/index.tsx:17-20 | no orders, no statuses, loading, no error |
| AdminPanel.Panel.LoadData | screens/CourierAdminPanel/index.tsx:31-52 | the requests, cache, lists and error are those `Load` gives; a failed load keeps the old lists; loading ends |
| AdminPanel.Panel.Mount | screens/CourierAdminPanel/index.tsx:24-55 | a non-admin is sent to Login with no request and nothing changed, so the spinner stays; an admin gets `LoadData` |
| AdminPanel.Panel.RetryLoad | screens/CourierAdminPanel/index.tsx:80-102 | the error is cleared before reloading, so afterwards it is exactly the reload's error; loading is false afterwards |
| AdminPanel.Panel.HandleStatusChange | screens/CourierAdminPanel/index.tsx:57-67 | PATCH with the status name; on success replace-by-id with the server's order; on failure the orders are unchanged and the error is the update-failure text |
| AdminPanel.Panel.PickStatus | screens/CourierAdminPanel/index.tsx:164-176 | the picker sends the chosen status's name, never its id |
| AdminPanel.Panel.HandleLogout | screens/CourierAdminPanel/index.tsx:69-78 | the session is cleared and the screen goes to Login |
| Register.WithField | components/Register.tsx:40-42 | the named field takes the value and every other field keeps its own |
| Register.Validate | components/Register.tsx:59-69 | the form passes exactly when all nine fields are non-empty and the passwords match; an empty field is reported before a password mismatch |
| Register.NewUser | components/Register.tsx:77-85 | the body carries login, birth date, phone and email as entered, the trimmed "last first middle" full name, the password as `passwordHash`, and role 4 |
| Register.FullName | components/Register.tsx:79 | the full name is the template `last first middle` with only whitespace cut from either end: it sits in the template with only whitespace before and after it, never starts or ends with whitespace, and is never longer than the three parts with two spaces |
| Register.ErrorMessageFor | components/Register.tsx:93-105 | login conflict first, then email conflict, then any other non-empty message verbatim, else the default; a body that is not JSON or whose message is missing or of a type without `includes` gives the server-failure text |
| Register.Submit | components/Register.tsx:52-113 | a request is sent exactly when validation passes; an OK answer navigates to Login with no error; a non-OK answer shows the text `ErrorMessageFor` picks from its body; every other path shows a non-empty error; no answer gives the connection text |
| Register.ContainsInfix | components/Register.tsx:96-98 | `includes` finds a phrase wherever it sits in the message |
| Register.Contains | components/Register.tsx:96-98 | `includes` of the empty text always holds, and a text longer than the message never occurs in it |
| Register.LoginConflictWins | components/Register.tsx:96-99 | a message naming both conflicts is reported as the login conflict |
| Register.EmailConflictRecognised | components/Register.tsx:98-99 | a message with the email phrase and not the login phrase gives the email text |
| Register.EmptyFieldReportedFirst | components/Register.tsx:59-69 | with an empty field and differing passwords, the empty-field error wins and nothing is sent |
| Register.ConfirmationNotSent | components/Register.tsx:77-85 | the confirmation field never reaches the request body |
| Register.FullNameOfCleanParts | components/Register.tsx:79 | with no outer whitespace, the full name is last, first and middle joined by single spaces |
| Register.FilledFormIsSent | components/Register.tsx:40-86 | filling all fields of the empty form with matching passwords gives a form that is sent |
| Register.RegisterScreen.constructor | components/Register.tsx:17-32 | empty form, no error or success, not loading, passwords hidden |
| Register.RegisterScreen.HandleInputChange | components/Register.tsx:40-42 | only the named field of the form changes |
| Register.RegisterScreen.ToggleShowPassword | components/Register.tsx:37 | flips password visibility and nothing else |
| Register.RegisterScreen.ToggleShowConfirmPassword | components/Register.tsx:38 | flips confirmation visibility and nothing else |
| Register.RegisterScreen.HandleSubmit | components/Register.tsx:52-113 | the request, error and navigation are those `Submit` gives; `success` stays unset; loading is false on every path; the form is kept |
| Login.WithField | components/Login.tsx:22-24 | only the named field changes |
| Login.SessionOf | components/Login.tsx:49-57 | a session exists exactly when the body is a JSON object whose `data` has a non-zero id and a non-empty full name; it is that user and id |
| Login.Submit | components/Login.tsx:26-69 | an empty field gives the credentials error and no request; a session is signed in exactly when the answer is OK with a usable user, and then the screen navigates to Welcome; a rejection with a JSON object body shows the server's `error` or the fixed text; a rejection whose body is other JSON (a string, number or array) shows the fixed text; no answer, an OK answer without a usable user, or a rejection whose body is not JSON or is null each give the connection text |
| Login.SignedInSessionSurvivesRestart | components/Login.tsx:57 | a successful sign-in is saved and restored by the next start |
| Login.ZeroIdIsRejected | components/Login.tsx:53-55 | an OK answer whose user has id 0 gives no session and the connection text |
| Login.RejectionText | components/Login.tsx:59-62 | a rejected sign-in shows the server's `error` text if non-empty, else the fixed text |
| Login.LoginScreen.constructor | components/Login.tsx:16-18 | empty form, no error, not loading |
| Login.LoginScreen.HandleInputChange | components/Login.tsx:22-24 | only the named field changes |
| Login.LoginScreen.HandleSubmit | components/Login.tsx:26-69 | the request, error and navigation are those `Submit` gives; the session is signed in with the answered user exactly when `Submit` gives a session, and is otherwise untouched; loading is false on every path |
| Catalogue.FindCategory | screens/CategoryPage/index.tsx:33-35 | the result is the first category whose lower-cased slug equals the key; none exactly when no category matches |
| Catalogue.RouteKey | screens/CategoryPage/index.tsx:19 | the key is decoded and lower-cased, so lower-casing it again changes nothing; OwnSlugFindsCategory is its partner, showing that a category's own slug finds that category |
| Catalogue.OwnSlugFindsCategory | screens/CategoryPage/index.tsx:19-35 | a route named by a category's own slug always finds a category with that slug up to case |
| Catalogue.LoadCategory | screens/CategoryPage/index.tsx:27-59 | categories are fetched first; no match gives "category not found" and the items are not fetched; items are shown only if both fetches succeed; every other failure gives the single generic text; the display name is set once the category is found |
| Catalogue.FirstMatchWins | screens/CategoryPage/index.tsx:33-35 | a match at the front hides any later category with the same slug |
| Catalogue.NonMatchingSkipped | screens/CategoryPage/index.tsx:33-35 | a category whose slug does not match is skipped |
| Catalogue.ItemsOf | screens/CategoryPage/index.tsx:49-51 | the shown items are exactly those of the category, each as often as the server sent it |
| Catalogue.ItemsOfPreservesOrder | screens/CategoryPage/index.tsx:49-51 | the shown items stay in server order |
| Catalogue.ItemsOfOneCategory | screens/CategoryPage/index.tsx:49-51 | a list that is all of one category is shown whole |
| Catalogue.LoadErrorTexts | screens/CategoryPage/index.tsx:28-58 | only two error texts can appear, and "category not found" appears exactly when the categories arrived and none matched |
| CategoryPageItem.EffectiveFoodId | components/CategoryPageItem.tsx:43 | the id used is always positive: the card's id when it is a positive number, otherwise 18 |
| CategoryPageItem.InvalidFoodId | components/CategoryPageItem.tsx:46 | on an integer the rejected-id guard (`!id`, or `isNaN(id)`, or `id <= 0`) holds exactly when the id is not positive |
| CategoryPageItem.HandleAddToCart | components/CategoryPageItem.tsx:36-63 | no truthy user id: an alert and no request; otherwise the cart first, then one unit of the effective dish added to `cart.id`; success exactly when both succeed; failures show the service's message |
| CategoryPageItem.InvalidIdBranchUnreachable | components/CategoryPageItem.tsx:43-50 | the invalid-id rejection can never run, so a signed-in press always asks for the cart |
| CategoryPageItem.MissingIdsFallBack | components/CategoryPageItem.tsx:43 | no id, NaN, and any non-positive id all fall back to dish 18 |
| CategoryPage.RenderItem | screens/CategoryPage/index.tsx:81-89 | a card shows the dish name, the image or a placeholder, and the description or a fixed text; it gets no `foodId` |
| CategoryPage.EveryCardAddsFallbackDish | screens/CategoryPage/index.tsx:82-88 | a signed-in press on any card of this screen adds dish 18, whichever dish the card shows |
| CategoryPage.Page.constructor | screens/CategoryPage/index.tsx:21-24 | no items, empty name, loading, no error |
| CategoryPage.Page.FetchCategoryData | screens/CategoryPage/index.tsx:26-62 | the requests, display name, items and error are those `LoadCategory` gives for the decoded, lower-cased route name; loading is false on every path |
| MenuItemScreen.CharAt0 | components/MenuItem.tsx:102 | `charAt(0)` is the first character, or empty for an empty string |
| MenuItemScreen.Title | components/MenuItem.tsx:102 | the title ends with everything after the first character of the display name |
| MenuItemScreen.TitleKeepsRest | components/MenuItem.tsx:102 | only the first character goes through upper-casing; the rest of the title is the display name's own text |
| MenuItemScreen.TitleOfEmpty | components/MenuItem.tsx:102 | an empty name gives the upper-casing of the empty string |
| MenuItemScreen.Modal | components/MenuItem.tsx:116-125 | the modal is passed the dish's name and id, and its description and image or their fallbacks; the local modal component (`components/MenuItem.tsx:201`) displays the name, description and image but never reads the id |
| MenuItemScreen.Screen.constructor | components/MenuItem.tsx:20-24 | no items, empty name, no dish selected, loading, no error |
| MenuItemScreen.Screen.FetchCategoryData | components/MenuItem.tsx:26-62 | same as the category screen's load; the selected dish is untouched |
| MenuItemScreen.Screen.OpenModal | components/MenuItem.tsx:64-66 | the tapped dish becomes the selected dish |
| MenuItemScreen.Screen.CloseModal | components/MenuItem.tsx:68-70 | no dish is selected |
| MenuCollection.Split | screens/MenuCollection/index.tsx:15 | `split` gives at least one piece, no piece holds the separator, and the last piece is the text after the last separator |
| MenuCollection.SplitEndsAtSeparator | screens/MenuCollection/index.tsx:15 | a separator at the end of the text opens a new, empty last piece |
| MenuCollection.SplitExtendsLastPiece | screens/MenuCollection/index.tsx:15 | any other last character extends the last piece |
| MenuCollection.JoinSnoc | screens/MenuCollection/index.tsx:15 | appending a piece appends the separator and the piece to the joined text |
| MenuCollection.JoinExtendLast | screens/MenuCollection/index.tsx:15 | appending a character to the last piece appends it to the joined text |
| MenuCollection.JoinSplit | screens/MenuCollection/index.tsx:15 | joining the pieces of `split` with the separator gives back the original string |
| MenuCollection.LastSegment | screens/MenuCollection/index.tsx:15 | `split('/').pop()` is the text after the last '/': it holds no '/', is a suffix of the link, and is preceded by '/' unless it is the whole link |
| MenuCollection.NoSlashIsWhole | screens/MenuCollection/index.tsx:15 | a link without '/' is its own category name |
| MenuCollection.TrailingSlashIsEmpty | screens/MenuCollection/index.tsx:15 | a link ending in '/' gives the empty name |
| MenuCollection.CategoryRoute | screens/MenuCollection/index.tsx:14-16 | the name a menu entry passes to the category screen never holds '/' |
| MenuCollection.SlashBeforeSuffix | screens/MenuCollection/index.tsx:15 | a '/' lies before any suffix that holds none |
| MenuCollection.MenuLinkGivesSlug | screens/MenuCollection/index.tsx:29-34 | `/Menu/<slug>` gives `<slug>` for every slug without '/' |
| MenuCollection.EntryOpensSlug | screens/MenuCollection/index.tsx:29-34 | an entry linking to `/Menu/<slug>` opens the category `<slug>` |
| MenuCollection.LinksAreMenuSlugs | screens/MenuCollection/index.tsx:29-34 | every menu link is `/Menu/` followed by a slug that holds no '/' |
| MenuCollection.SixLinksGiveTheirSlugs | screens/MenuCollection/index.tsx:29-34 | each of the six entries opens its own slug, e.g. `/Menu/zakuski` opens `zakuski` |

## Left out

- HTTP transport, base URLs, headers, the axios logging interceptor and response decoding. Each call is its reply, passed as a parameter.
- A network failure and an HTTP error are both `HttpError`. Each service maps both the same way.
- Rendering, styles, console logging, and the native alert's display are left out. An alert is the title and text it would show.
- Navigation wiring, `App.tsx`, `screens/MainAppRouter.tsx` and `screens/WelcomeImage/index.tsx` are not part of this model. The navigation target a handler chooses is returned as a value.
- React effect scheduling and concurrency: each effect and handler runs to completion in one step.
  - `Promise.all` runs as two sequential calls, orders first. Both requests are always sent.
  - When both fail, the orders error is reported. The real race could report either.
- `handleStatusChange` reads `orders` from its closure. A stale closure could overwrite newer orders; the model applies it to the current list.
- Floating point: the cart total `menuItemPrice * quantity`, prices and every `toFixed` text. Prices are carried as `real` and never computed with.
- Dates: the birth-date picker's ISO formatting and the admin panel's `toLocaleString`. The birth date is a plain string field.
- The admin panel's display fallbacks for missing phone, address or item name are rendering only.
- `decodeURIComponent`, Unicode `toLowerCase` and `toUpperCase` are given functions. A `decodeURIComponent` that throws on malformed input is not modelled.
- `JSON.stringify` and `JSON.parse` of the stored user are given functions. A stored `"null"` user parses to no user in the model, which the real code would accept as `null`.
- Members of the wrong JSON type (a numeric `fullName`, a string `id`, a non-string `error` in a rejected sign-in) are not modelled. The server bodies are typed. A sign-in body that is not an object at all is modelled (`Login.Submit`).
- `charAt` and `slice` work on UTF-16 code units in JavaScript and on characters here.
- Numbers are unbounded integers. Ids above 2^53 would lose precision in JavaScript, and fractional quantities are not modelled.
- `AdminPanel.Panel.Mount`: `isCourierAdmin` is a boolean parameter. The session store provides no such function, so the code as written throws on mount; the model states the intended guard instead of that crash.
- `AdminPanel.LoadErrorMessage`: states the prefix and the closing full stop of the non-404 text, not the whole quoted message. `AdminPanel.Load` states the exact texts.
- `Auth.SavedEntries`: states only that other keys are untouched. `Auth.SaveUser` and `Auth.SaveUserId` state what each write leaves in its key; `Auth.SaveThenLoad`, `Auth.ZeroIdIsNotPersisted` and `Auth.LoggedOutSaveClearsSession` state the two keys' contents after a whole save.
- `Auth.Loaded`: states the failure and missing-key cases. Restoration itself is stated by `Auth.SaveThenLoad` and `Auth.CorruptUserRestoresNothing`.
- `CartScreen.Bin.PressMinus` and `CartScreen.Bin.PressPlus`: the rows only wire the buttons to `HandleUpdateQuantity`. The no-op at quantity 1 is stated by `CartScreen.MinusAtOneIsNoOp`.
- `MenuItemScreen.Screen` has no card-props function. Its list renders a local card component of its own (`components/MenuItem.tsx:162-169`) that shows the image, name, price and description and only opens the modal. It has no add-to-cart button, so nothing about carts applies there.
- Register's `success` state is cleared on submit and never set. The model keeps it to show that.
