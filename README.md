# UaiFood web client, modelled in Dafny

UaiFood is a food-ordering web application. Its React client has:

- a cart kept in local storage;
- a session held in the authentication context;
- a checkout page;
- a menu page that groups the catalogue by category;
- four route guards;
- account pages: addresses, password change, sign-up and sign-in;
- an admin area for users, orders, catalogue items and categories.

This project models the client-side state handling of those parts.

- **Pure logic.** The cart reducer, the totals, the route guards, the
  filters and the error-message rules are Dafny functions. Lemmas prove the
  properties the code promises about them.
- **Stateful parts.** The cart provider, the session provider and each
  page's handlers are classes. Their fields are what the handlers update:
  component state, the local-storage entries and the API client's
  Authorization header.
- **Method contracts.** Each method's `ensures` ties the new state, the
  request sent and the notice shown to a pure function of the old state
  and the inputs. The lemmas are about that function.

How the outside world enters the model:

- **API answers.** Every answer is an input `Response<T>`:
  - `Ok(data)`;
  - `Failed(HttpError(status, message, firstError))`, where `message` is the
    body's `message` and `firstError` is `errors[0].message`;
  - `Failed(NoResponse)`, for any failure without a response.
- **`GET /users/me`** is an oracle `me: string -> Response<User>` from the
  token sent to the answer. The sign-in page triggers two of these
  requests, and each gets its own oracle (`me`, then `meAgain`), so the
  second may fail or name another user.
- **`window.confirm`** is a boolean input.
- **Prices** in the cart and in orders are integer cents.
- **Requests** are values `Post(path, body)`, `Put`, `Patch` and
  `Delete(path)` that the handlers return.
- **Notices** (toasts) are values that the handlers return.

Modules, one per source file (plus `Common` for shared types):

| module | file | flavour |
|---|---|---|
| `Common` | `common.dfy` | datatypes, JavaScript `\|\|` on strings, the shared error mappings |
| `Cart` | `cart.dfy` | reducer `Step`, totals, rehydration, class `CartStore` |
| `CartPage` | `checkout.dfy` | checkout outcome, quantity buttons, default address, class `CartPageState` |
| `Menu` | `menu.dfy` | menu-to-cart line, grouping by category |
| `Auth` | `auth.dfy` | session transitions, class `Session` |
| `Routes` | `routes.dfy` | the four guards |
| `AdminUsers` | `admin_users.dfy` | role change, delete, role filter, class `AdminUsersPage` |
| `AdminOrders` | `admin_orders.dfy` | status change, order total, class `AdminOrdersPage` |
| `AdminItems` | `admin_items.dfy` | item form, category filter, class `AdminItemsPage` |
| `AdminCategories` | `admin_categories.dfy` | category form and delete, class `AdminCategoriesPage` |
| `Addresses` | `addresses.dfy` | address form, class `AddressesPage` |
| `ChangePassword` | `change_password.dfy` | password form, class `ChangePasswordPage` |
| `Register` | `register.dfy` | sign-up form, class `RegisterPage` |
| `Login` | `login.dfy` | sign-in form with the double hand-over of the token, class `LoginPage` |

Behaviour of the code that the model reproduces on purpose:

- A stored token that fails validation at start-up is removed from
  storage. The Authorization header set from it stays in place.
- The sign-in page hands the token to the session twice, so it fetches
  the profile twice. The redirect uses the second result. If the second
  fetch fails after the first succeeded, the session logs out and the page
  shows the error without navigating. The success notice is shown before the profile
  is fetched, so a failed profile fetch pops a success notice and then an
  error notice.
- Saving an item in the admin area triggers a reload. That reload runs in
  the closure of the render that started the submit, so it still sees the
  edit id from before the save. After an edit, the reload therefore does
  not reset the form's category. After a create, it puts the first
  category in the form.
- A conflict (409) when saving a category shows the server's `message` as
  it is.
- The sign-up page shows different texts for missing consent: a longer
  one on the error line and a shorter one in the notice. An empty field is
  reported on the error line only.
- The address page's delete handler has an empty body.
- `if (editingId)` is false for the empty string as well as for null
  (`Common.Editing`).

## Model

| member | source | states |
|---|---|---|
| Common.Or | src/pages/Cart/index.tsx:84-86 | `a \|\| b` on strings is one of its operands; it is `a` when `a` is non-empty, and empty only when both are |
| Common.ServerMessageOr | src/pages/Login/index.tsx:54-63 | an HTTP error shows the server's `message`, or the fallback when there is none; any other failure shows the "unexpected" text |
| Common.FirstErrorOr | src/pages/AdminItems/index.tsx:122-128 | an HTTP error shows the first validation message, or the fallback when there is none; any other failure shows the "unexpected" text |
| Cart.AddQuantity | src/contexts/CartContext.tsx:45-49 | same length; lines with the id gain `q` units; every other line is unchanged |
| Cart.SetQuantity | src/contexts/CartContext.tsx:74-78 | same length; lines with the id get quantity `q`; every other line is unchanged |
| Cart.Without | src/contexts/CartContext.tsx:64 | the filtered list is never longer than the cart |
| Cart.Rehydrate | src/contexts/CartContext.tsx:108-116 | a missing entry or one that does not parse gives the empty cart |
| Cart.Step | src/contexts/CartContext.tsx:36-90 | the reducer; (no ensures; specified by `AddExisting`, `AddNew`, `RemoveSpec`, `RemovePresent`, `UpdateNonPositiveRemoves`, `UpdatePositive`, `UpdateTotals`, `ClearAndSet` and `StepPreservesWellFormed`) |
| Cart.TotalItems | src/contexts/CartContext.tsx:152-154 | the `reduce` item count; (no ensures; specified by `TotalsSmall`, `TotalsConcat`, `TotalsAfterLineChange` and `TotalsWithoutLine`) |
| Cart.TotalPrice | src/contexts/CartContext.tsx:148-150 | the `reduce` price in cents; (no ensures; specified by `TotalsSmall`, `TotalsConcat`, `TotalsAfterLineChange` and `TotalsWithoutLine`) |
| Cart.WithoutMembers | src/contexts/CartContext.tsx:64 | the lines kept are exactly the cart's lines whose id differs |
| Cart.WithoutConcat | src/contexts/CartContext.tsx:64 | filtering commutes with concatenation, so the kept lines stay in their original order |
| Cart.WithoutAbsent | src/contexts/CartContext.tsx:60-66 | removing an id that no line carries changes nothing |
| Cart.WithoutUnique | src/contexts/CartContext.tsx:60-66 | removal keeps at most one line per id |
| Cart.WithoutPositive | src/contexts/CartContext.tsx:60-66 | removal keeps every quantity at one or more |
| Cart.TotalsConcat | src/contexts/CartContext.tsx:148-154 | both totals of a concatenation are the sums of the parts' totals |
| Cart.TotalsAfterLineChange | src/contexts/CartContext.tsx:148-154 | changing one line moves each total by exactly that line's difference |
| Cart.TotalsSmall | src/contexts/CartContext.tsx:148-154 | the empty cart totals 0 items and 0 cents; a lone line contributes its quantity and unitPrice × quantity |
| Cart.AddExisting | src/contexts/CartContext.tsx:40-50 | adding a present id raises that line by the payload's quantity; other lines and the length are kept |
| Cart.AddExistingTotals | src/contexts/CartContext.tsx:40-50 | adding a present id grows the item count by exactly the payload's quantity, and the price by the line's unit price times it |
| Cart.AddNew | src/contexts/CartContext.tsx:51-56 | adding a new id appends the payload as the last line, keeps earlier lines, and adds its quantity and subtotal to the totals |
| Cart.RemoveSpec | src/contexts/CartContext.tsx:60-66 | after removal no line has that id; the remaining lines are exactly those of other ids; an absent id is a no-op |
| Cart.RemoveIdempotent | src/contexts/CartContext.tsx:60-66 | removing twice equals removing once |
| Cart.WithoutAt | src/contexts/CartContext.tsx:64 | when no other line shares line k's id, filtering that id out removes exactly line k |
| Cart.TotalsWithoutLine | src/contexts/CartContext.tsx:148-154 | dropping line k lowers the item count by its quantity and the price by its subtotal |
| Cart.RemovePresent | src/contexts/CartContext.tsx:60-66 | with unique ids, removing line k leaves the lines before and after it, and lowers both totals by that line |
| Cart.UpdateNonPositiveRemoves | src/contexts/CartContext.tsx:68-71 | a quantity of zero or less is the removal of that id |
| Cart.UpdatePositive | src/contexts/CartContext.tsx:72-80 | a positive quantity changes only the matching line's quantity; ids, descriptions, prices, order and length are kept; an absent id changes nothing |
| Cart.UpdateTotals | src/contexts/CartContext.tsx:68-80 | with unique ids, setting line k to q moves the item count from its old quantity to q, and the price likewise |
| Cart.ClearAndSet | src/contexts/CartContext.tsx:82-86 | CLEAR_CART gives the empty cart with both totals 0; SET_STATE gives its payload |
| Cart.StepPreservesWellFormed | src/contexts/CartContext.tsx:37-80 | ADD_ITEM, REMOVE_ITEM, UPDATE_QUANTITY and CLEAR_CART keep at most one line per id; with added quantities ≥ 1 they also keep every quantity ≥ 1 |
| Cart.RestartRestores | src/contexts/CartContext.tsx:108-121 | rehydrating a snapshot gives back its state; this holds by the definition of `Rehydrate`, and the link to what the store writes is `CartStore.Valid()` (storage holds the snapshot of the current state), kept by every method |
| Cart.CartStore.constructor | src/contexts/CartContext.tsx:108-121 | the state is the stored snapshot when it parses, else the empty cart, and storage then holds a snapshot of it |
| Cart.CartStore.Dispatch | src/contexts/CartContext.tsx:118-121 | the state is the reducer applied to the old state and the action, and storage holds a snapshot of the new state |
| Cart.CartStore.Add | src/contexts/CartContext.tsx:124-134 | dispatches ADD_ITEM and returns the "one more" notice for a present id and the "added to cart" notice otherwise |
| Cart.CartStore.Remove | src/contexts/CartContext.tsx:136-138 | dispatches REMOVE_ITEM, storage kept in step |
| Cart.CartStore.SetLineQuantity | src/contexts/CartContext.tsx:140-142 | dispatches UPDATE_QUANTITY, storage kept in step |
| Cart.CartStore.Clear | src/contexts/CartContext.tsx:144-146 | the cart is empty, storage kept in step |
| CartPage.OrderLines | src/pages/Cart/index.tsx:69-72 | one `(itemId, quantity)` line per cart line, same length and order |
| CartPage.CheckoutNeedsAddress | src/pages/Cart/index.tsx:57-60 | with no address, checkout is rejected with the address notice whatever the payment: no request, no clearing, no navigation |
| CartPage.CheckoutNeedsPayment | src/pages/Cart/index.tsx:61-64 | with an address but no payment method, checkout is rejected with the payment notice and sends nothing |
| CartPage.Checkout | src/pages/Cart/index.tsx:56-89 | `handleCheckout`; (no ensures; specified by `CheckoutNeedsAddress`, `CheckoutNeedsPayment`, `CheckoutPayload`, `CheckoutSettles` and `PayloadUnits`) |
| CartPage.Payload | src/pages/Cart/index.tsx:66-73 | the order body: the two selections and the mapped lines; (no ensures; specified by `CheckoutPayload` and `PayloadUnits`) |
| CartPage.OrderedUnits | src/pages/Cart/index.tsx:69-72 | the units an order asks for, summed over its lines; (no ensures; specified by `PayloadUnits`) |
| CartPage.CheckoutPayload | src/pages/Cart/index.tsx:66-77 | a request is sent exactly when both selections are present; it carries them and the cart lines mapped in order |
| CartPage.CheckoutSettles | src/pages/Cart/index.tsx:77-88 | success clears the cart and targets `/meus-pedidos`; failure keeps the cart and shows the server's message or the fallback |
| CartPage.PayloadUnits | src/pages/Cart/index.tsx:69-72 | the order asks for exactly as many units as the cart's item count |
| CartPage.MinusButton | src/pages/Cart/index.tsx:145-147 | the minus button's UPDATE_QUANTITY to one less; (no ensures; specified by `MinusAtOneRemoves` and `MinusLowers`) |
| CartPage.PlusButton | src/pages/Cart/index.tsx:156-158 | the plus button's UPDATE_QUANTITY to one more; (no ensures; specified by `PlusRaises`) |
| CartPage.MinusAtOneRemoves | src/pages/Cart/index.tsx:145-147 | minus on a one-unit line removes that line and keeps the others in order |
| CartPage.MinusLowers | src/pages/Cart/index.tsx:145-147 | minus on a larger line lowers it, and the item count, by one |
| CartPage.PlusRaises | src/pages/Cart/index.tsx:156-158 | plus raises the line, and the item count, by one |
| CartPage.DefaultAddress | src/pages/Cart/index.tsx:44-46 | a non-empty list selects its first address; an empty one keeps the selection |
| CartPage.CartPageState.constructor | src/pages/Cart/index.tsx:32-34 | no addresses and both selections empty |
| CartPage.CartPageState.LoadAddresses | src/pages/Cart/index.tsx:37-54 | only for a signed-in user and a successful fetch: the list is stored and the default address chosen; otherwise nothing changes |
| CartPage.CartPageState.SelectAddress | src/pages/Cart/index.tsx:33 | sets the selected address only |
| CartPage.CartPageState.SelectPayment | src/pages/Cart/index.tsx:34 | sets the selected payment only |
| CartPage.CartPageState.HandleCheckout | src/pages/Cart/index.tsx:56-89 | the outcome is `Checkout` of the selections and the cart; the cart is emptied exactly when the outcome clears it, and storage stays in step |
| CartPage.EndToEnd | src/pages/Cart/index.tsx:56-89 | for any menu line of quantity 1 (as `Menu.ToCartLine` builds, Menu/index.tsx:49-57), two adds to an empty cart give one line of quantity 2, totals 2 and twice its price; checking out then sends that one line and clears the cart |
| Menu.ToCartLine | src/pages/Menu/index.tsx:49-55 | the cart line has the item's id and description, its parsed price and quantity 1 |
| Menu.ItemsInCategory | src/pages/Menu/index.tsx:73-75 | a section is never longer than the catalogue |
| Menu.ItemsInCategoryMembers | src/pages/Menu/index.tsx:73-75 | a section holds exactly the items of that category |
| Menu.ItemsInCategoryConcat | src/pages/Menu/index.tsx:73-75 | grouping commutes with concatenation, so the catalogue order is kept |
| Menu.Sections | src/pages/Menu/index.tsx:71-75 | one section per category, in category order; the per-index clause repeats the body, and what a section holds is stated by `ItemsInCategoryMembers` and `OrphanHidden` |
| Menu.OrphanHidden | src/pages/Menu/index.tsx:72-75 | an item whose category is not in the list appears in no section |
| Menu.AddTimes | src/pages/Menu/index.tsx:49-57 | n presses of an item's add button; (no ensures; specified by `AddedNTimes`) |
| Menu.AddedNTimes | src/pages/Menu/index.tsx:49-57 | from a cart without the item, n ≥ 1 presses of its add button leave the earlier lines and one last line for it with quantity n |
| Auth.Consistent | src/contexts/AuthContext.tsx:49-50 | the signed-in invariant; (no ensures; specified by `TransitionsKeepConsistent`) |
| Auth.Startup | src/contexts/AuthContext.tsx:37-58 | `loadStorageData`; (no ensures; specified by `StartupWithoutToken`, `StartupWithToken` and `TransitionsKeepConsistent`) |
| Auth.LoginStep | src/contexts/AuthContext.tsx:63-86 | `login`; (no ensures; specified by `LoginSucceeds`, `LoginFails` and `TransitionsKeepConsistent`) |
| Auth.LoggedOut | src/contexts/AuthContext.tsx:89-94 | `logout`; (no ensures; specified by `LogoutIdempotent` and `TransitionsKeepConsistent`) |
| Auth.RendersChildren | src/contexts/AuthContext.tsx:99 | the render gate `!loading && children`; (no ensures; specified by `StartupWithoutToken`) |
| Auth.StartupWithoutToken | src/contexts/AuthContext.tsx:39-57 | without a (non-empty) stored token, start-up ends with no user, no token, not loading, and children rendered |
| Auth.StartupWithToken | src/contexts/AuthContext.tsx:41-57 | a token that validates signs in the fetched user with that token; one that fails is removed from storage and nobody is signed in, while the header from it remains; loading ends either way |
| Auth.LoginSucceeds | src/contexts/AuthContext.tsx:63-77 | success stores and holds the token, sets the header, signs in the fetched user, returns that user and ends loading |
| Auth.LoginFails | src/contexts/AuthContext.tsx:79-85 | failure rethrows the error and ends logged out with loading over |
| Auth.LogoutIdempotent | src/contexts/AuthContext.tsx:89-94 | logout clears user, token, stored token and header, leaves loading, and a second logout changes nothing |
| Auth.TransitionsKeepConsistent | src/contexts/AuthContext.tsx:49-50 | after start-up, login or logout, a token comes with a user, and the stored token and header match it |
| Auth.Session.constructor | src/contexts/AuthContext.tsx:32-34 | loading, nobody signed in, storage as found |
| Auth.Session.LoadStorageData | src/contexts/AuthContext.tsx:37-58 | the new state is `Startup` of the old one |
| Auth.Session.Login | src/contexts/AuthContext.tsx:63-86 | the new state and the result are `LoginStep` of the old state |
| Auth.Session.Logout | src/contexts/AuthContext.tsx:89-94 | the new state is `LoggedOut` of the old one |
| Routes.PrivateRoute | src/components/PrivateRoute.tsx:8-26 | loading view exactly while loading; redirect to `/login` exactly when loaded without a user; the outlet exactly when loaded with one |
| Routes.GuestRoute | src/components/GuestRoute.tsx:8-18 | nothing exactly while loading; redirect to `/` exactly when loaded with a user; the outlet exactly when loaded without one |
| Routes.AdminRoute | src/components/AdminRoute.tsx:11-17 | the outlet exactly for an ADMIN; everyone else, nobody included, is sent to `/`; loading is not an input |
| Routes.ClientOnlyRoute | src/components/ClientOnlyRoute.tsx:12-17 | an ADMIN exactly is sent to `/admin/pedidos`; a CLIENT and nobody get the outlet |
| Routes.GuestComplementsPrivate | src/components/GuestRoute.tsx:13-18 | once loaded, the guest guard renders exactly when the private guard redirects, and the reverse |
| Routes.AdminComplementsClientOnly | src/components/ClientOnlyRoute.tsx:12-17 | for every user value exactly one of the admin and client-only guards renders its outlet |
| AdminUsers.WithRole | src/pages/AdminUsers/index.tsx:55-59 | same length; users with the id get the role; every other user is unchanged |
| AdminUsers.FilteredUsers | src/pages/AdminUsers/index.tsx:91-96 | the filtered list is never longer than the user list |
| AdminUsers.IsSelf | src/pages/AdminUsers/index.tsx:46 | `userId === adminUser?.id`, the guard of both handlers (also :70); (no ensures; specified by `RoleChangeSelfGuard` and `DeleteNotices`) |
| AdminUsers.Reloaded | src/pages/AdminUsers/index.tsx:28-38 | `fetchUsers`: the answer, or the current list on failure; (no ensures; specified by `RoleChangeFails` and `DeleteNotices`) |
| AdminUsers.RoleChange | src/pages/AdminUsers/index.tsx:44-67 | `handleRoleChange`; (no ensures; specified by `RoleChangeSelfGuard`, `RoleChangeSucceeds` and `RoleChangeFails`) |
| AdminUsers.DeleteUser | src/pages/AdminUsers/index.tsx:69-89 | `handleDelete`; (no ensures; specified by `DeleteNotices`) |
| AdminUsers.RoleChangeSelfGuard | src/pages/AdminUsers/index.tsx:46-49 | a role change aimed at the signed-in admin sends nothing, keeps the list and shows the self-edit notice |
| AdminUsers.RoleChangeSucceeds | src/pages/AdminUsers/index.tsx:51-59 | success sends PUT `/users/{id}` and gives the role to exactly the users with that id, keeping length and order |
| AdminUsers.RoleChangeFails | src/pages/AdminUsers/index.tsx:61-66 | failure does not edit the list; it is replaced by the reload, or kept when the reload fails |
| AdminUsers.DeleteNotices | src/pages/AdminUsers/index.tsx:69-89 | deleting oneself sends nothing and shows the self notice, whatever the dialog and the server answer; a declined dialog sends nothing; a confirmed delete sends DELETE `/users/{id}` and, on success, takes the reload with the success notice; a failure keeps the list, with the "has orders" notice for 409 and the generic one otherwise |
| AdminUsers.FilterAllKeepsEveryone | src/pages/AdminUsers/index.tsx:92-94 | the "all" filter keeps every user |
| AdminUsers.FilterRoleMembers | src/pages/AdminUsers/index.tsx:95 | a role filter keeps exactly the users of that role |
| AdminUsers.FilterConcat | src/pages/AdminUsers/index.tsx:91-96 | filtering commutes with concatenation, so list order is kept |
| AdminUsers.AdminUsersPage.constructor | src/pages/AdminUsers/index.tsx:20-25 | no users and the "all" filter |
| AdminUsers.AdminUsersPage.FetchUsers | src/pages/AdminUsers/index.tsx:28-38 | the list becomes the answer, or is kept on failure; the filter is kept |
| AdminUsers.AdminUsersPage.SetRoleFilter | src/pages/AdminUsers/index.tsx:25 | sets the filter only |
| AdminUsers.AdminUsersPage.HandleRoleChange | src/pages/AdminUsers/index.tsx:44-67 | request, notice and new list are `RoleChange` of the old list |
| AdminUsers.AdminUsersPage.HandleDelete | src/pages/AdminUsers/index.tsx:69-89 | request, notice and new list are `DeleteUser` of the old list |
| AdminOrders.StatusesListed | src/pages/AdminOrders/index.tsx:33-39 | the selector offers all five statuses, each once |
| AdminOrders.WithStatus | src/pages/AdminOrders/index.tsx:92-96 | same length; orders with the id get the status; every other order is unchanged |
| AdminOrders.StatusChange | src/pages/AdminOrders/index.tsx:82-102 | `handleStatusChange`; (no ensures; specified by `StatusChangeSucceeds`, `StatusChangeIdempotent`, `StatusChangeFails` and `StatusChangeKeepsTotals`) |
| AdminOrders.OrderTotal | src/pages/AdminOrders/index.tsx:122-124 | the order's `reduce` total in cents; (no ensures; specified by `OrderTotalConcat` and `StatusChangeKeepsTotals`) |
| AdminOrders.StatusChangeSucceeds | src/pages/AdminOrders/index.tsx:92-96 | success sets the status of exactly the orders with that id, keeping the others, the length and the order |
| AdminOrders.StatusChangeIdempotent | src/pages/AdminOrders/index.tsx:92-96 | applying the same change twice gives the list of applying it once |
| AdminOrders.StatusChangeFails | src/pages/AdminOrders/index.tsx:98-101 | failure leaves the list untouched and shows the failure notice |
| AdminOrders.OrderTotalConcat | src/pages/AdminOrders/index.tsx:122-124 | no lines total 0, and the total of a concatenation is the sum of the totals |
| AdminOrders.StatusChangeKeepsTotals | src/pages/AdminOrders/index.tsx:92-96 | a status change never alters an order's total |
| AdminOrders.AdminOrdersPage.constructor | src/pages/AdminOrders/index.tsx:61 | no orders |
| AdminOrders.AdminOrdersPage.FetchOrders | src/pages/AdminOrders/index.tsx:64-76 | the list becomes the answer, or is kept on failure |
| AdminOrders.AdminOrdersPage.HandleStatusChange | src/pages/AdminOrders/index.tsx:82-102 | request, notice and new list are `StatusChange` of the old list |
| AdminItems.FilteredItems | src/pages/AdminItems/index.tsx:135-140 | the filtered list is never longer than the catalogue |
| AdminItems.FilterAllKeepsEverything | src/pages/AdminItems/index.tsx:136-138 | the "all" filter keeps every item |
| AdminItems.FilterCategoryMembers | src/pages/AdminItems/index.tsx:139 | any other filter keeps exactly the items of that category |
| AdminItems.FilterConcat | src/pages/AdminItems/index.tsx:135-140 | filtering commutes with concatenation, so catalogue order is kept |
| AdminItems.DefaultCategoryId | src/pages/AdminItems/index.tsx:53-61 | the first category's id, or "" (also the cancel at :89-93); (no ensures; specified by `LoadPicksDefaultCategory`, `CancelResets` and `SubmitReloadCategory`) |
| AdminItems.Load | src/pages/AdminItems/index.tsx:46-61 | `fetchData`'s state update; (no ensures; specified by `LoadPicksDefaultCategory` and `SubmitReloadCategory`) |
| AdminItems.EditClick | src/pages/AdminItems/index.tsx:80-88 | (no ensures; specified by `EditClickFills`) |
| AdminItems.CancelEdit | src/pages/AdminItems/index.tsx:89-93 | (no ensures; specified by `CancelResets`) |
| AdminItems.Submit | src/pages/AdminItems/index.tsx:105-132 | `handleSubmit`; (no ensures; specified by `SubmitRequest`, `SubmitSuccessResets`, `SubmitFailureNotice` and `SubmitReloadCategory`) |
| AdminItems.DeleteItem | src/pages/AdminItems/index.tsx:94-104 | `handleDelete`; (no ensures; specified by `DeleteNotices`) |
| AdminItems.EditClickFills | src/pages/AdminItems/index.tsx:80-88 | edit copies description, price and category into the form and sets the edit id; lists and filter are kept |
| AdminItems.CancelResets | src/pages/AdminItems/index.tsx:89-93 | cancel empties description and price, picks the first category or "" and leaves edit mode |
| AdminItems.SubmitRequest | src/pages/AdminItems/index.tsx:113-119 | PUT `/items/{id}` in edit mode, POST `/items` otherwise, with the form's fields |
| AdminItems.SubmitSuccessResets | src/pages/AdminItems/index.tsx:120-121 | success leaves edit mode with an empty description and price; without a reload the state is exactly Cancel's |
| AdminItems.SubmitFailureNotice | src/pages/AdminItems/index.tsx:122-128 | failure keeps the state and shows the first server error, the fallback or the "unexpected" text |
| AdminItems.LoadPicksDefaultCategory | src/pages/AdminItems/index.tsx:53-61 | a load stores both lists; with categories and outside edit mode the form gets the first category; in edit mode the form is kept |
| AdminItems.SubmitReloadCategory | src/pages/AdminItems/index.tsx:113-121 | after a create the reload's first category is in the form; after an edit the category Cancel chose stays, because the reload sees the old edit id |
| AdminItems.DeleteNotices | src/pages/AdminItems/index.tsx:94-104 | a declined delete does nothing; a confirmed one sends DELETE `/items/{id}`, reloads with the success notice on success, and keeps the state with the generic notice on failure |
| AdminItems.AdminItemsPage.constructor | src/pages/AdminItems/index.tsx:34-42 | empty lists, empty form, not editing, the "all" filter |
| AdminItems.AdminItemsPage.FetchData | src/pages/AdminItems/index.tsx:46-67 | the new state is `Load` of the old one with the edit id the caller saw |
| AdminItems.AdminItemsPage.HandleEditClick | src/pages/AdminItems/index.tsx:80-88 | the new state is `EditClick` of the old one |
| AdminItems.AdminItemsPage.HandleCancelEdit | src/pages/AdminItems/index.tsx:89-93 | the new state is `CancelEdit` of the old one |
| AdminItems.AdminItemsPage.SetCategoryFilter | src/pages/AdminItems/index.tsx:42 | sets the filter only |
| AdminItems.AdminItemsPage.HandleSubmit | src/pages/AdminItems/index.tsx:105-132 | state, request and notice are `Submit` of the old state |
| AdminItems.AdminItemsPage.HandleDelete | src/pages/AdminItems/index.tsx:94-104 | state, request and notice are `DeleteItem` of the old state |
| AdminCategories.Load | src/pages/AdminCategories/index.tsx:22-32 | `fetchCategories`' state update; (no ensures; specified by `SubmitSuccessResets`) |
| AdminCategories.EditClick | src/pages/AdminCategories/index.tsx:38-42 | (no ensures; specified by `EditThenCancel`) |
| AdminCategories.CancelEdit | src/pages/AdminCategories/index.tsx:44-47 | (no ensures; specified by `EditThenCancel`) |
| AdminCategories.Submit | src/pages/AdminCategories/index.tsx:65-102 | `handleSubmit`; (no ensures; specified by `SubmitValidates`, `SubmitRequest`, `SubmitSuccessResets` and `SubmitFailureNotice`) |
| AdminCategories.DeleteCategory | src/pages/AdminCategories/index.tsx:49-63 | `handleDelete`; (no ensures; specified by `DeleteNotices`) |
| AdminCategories.SaveError | src/pages/AdminCategories/index.tsx:88-98 | the save failure notice: the raw `message` for 409, else the first error or the fallback; (no ensures; specified by `SubmitFailureNotice`) |
| AdminCategories.SubmitValidates | src/pages/AdminCategories/index.tsx:67-70 | a request is sent exactly when the description has at least 2 characters; a shorter one keeps the state and shows the length notice |
| AdminCategories.SubmitRequest | src/pages/AdminCategories/index.tsx:76-83 | PUT `/categories/{id}` in edit mode and POST `/categories` otherwise, with the description |
| AdminCategories.SubmitSuccessResets | src/pages/AdminCategories/index.tsx:85-86 | success empties the description, leaves edit mode and takes the reloaded list |
| AdminCategories.SubmitFailureNotice | src/pages/AdminCategories/index.tsx:88-98 | 409 shows the server's `message`; another HTTP error the first error or the fallback; any other failure the "unexpected" text; the form is kept |
| AdminCategories.EditThenCancel | src/pages/AdminCategories/index.tsx:38-47 | edit sets the description and the edit id; cancel clears both, undoing any edit |
| AdminCategories.DeleteNotices | src/pages/AdminCategories/index.tsx:49-63 | a declined delete does nothing; 409 gives the "in use" notice, another failure the generic one; success reloads |
| AdminCategories.AdminCategoriesPage.constructor | src/pages/AdminCategories/index.tsx:13-18 | no categories, empty description, not editing |
| AdminCategories.AdminCategoriesPage.FetchCategories | src/pages/AdminCategories/index.tsx:22-32 | the new state is `Load` of the old one |
| AdminCategories.AdminCategoriesPage.SetDescription | src/pages/AdminCategories/index.tsx:16 | sets the description only |
| AdminCategories.AdminCategoriesPage.HandleEditClick | src/pages/AdminCategories/index.tsx:38-42 | the new state is `EditClick` of the old one |
| AdminCategories.AdminCategoriesPage.HandleCancelEdit | src/pages/AdminCategories/index.tsx:44-47 | the new state is `CancelEdit` of the old one |
| AdminCategories.AdminCategoriesPage.HandleSubmit | src/pages/AdminCategories/index.tsx:65-102 | state, request and notice are `Submit` of the old state |
| AdminCategories.AdminCategoriesPage.HandleDelete | src/pages/AdminCategories/index.tsx:49-63 | state, request and notice are `DeleteCategory` of the old state |
| Addresses.Get | src/pages/MyAccount/AddressesPage.tsx:60-63 | the value an input shows; (no ensures; specified by `SetGet` and `SetUnchanged`) |
| Addresses.Set | src/pages/MyAccount/AddressesPage.tsx:60-63 | `handleChange`'s record update; (no ensures; specified by `SetGet` and `SetUnchanged`) |
| Addresses.Load | src/pages/MyAccount/AddressesPage.tsx:41-52 | `fetchAddresses`' state update; (no ensures; specified by `SubmitOutcomes`) |
| Addresses.EditClick | src/pages/MyAccount/AddressesPage.tsx:98-112 | (no ensures; specified by `EditClickFills`, `CancelEmpties` and `EditThenSubmit`) |
| Addresses.CancelEdit | src/pages/MyAccount/AddressesPage.tsx:115-118 | (no ensures; specified by `CancelEmpties`) |
| Addresses.Submit | src/pages/MyAccount/AddressesPage.tsx:66-95 | `handleSubmit`; (no ensures; specified by `SubmitOutcomes` and `EditThenSubmit`) |
| Addresses.SetGet | src/pages/MyAccount/AddressesPage.tsx:60-63 | typing into one input changes that input's value and no other |
| Addresses.SetUnchanged | src/pages/MyAccount/AddressesPage.tsx:60-63 | retyping the shown value changes nothing |
| Addresses.EditClickFills | src/pages/MyAccount/AddressesPage.tsx:98-112 | edit shows all six fields of the address and sets the edit id; the list is kept |
| Addresses.CancelEmpties | src/pages/MyAccount/AddressesPage.tsx:115-118 | cancel empties every input and leaves edit mode, undoing any edit |
| Addresses.EditThenSubmit | src/pages/MyAccount/AddressesPage.tsx:71-73 | editing an address and saving unchanged sends its own fields to its own path |
| Addresses.SubmitOutcomes | src/pages/MyAccount/AddressesPage.tsx:66-95 | PUT in edit mode, POST otherwise; success resets the form, leaves edit mode and takes the reload; failure keeps the state and shows the first error, the fallback or the "unexpected" text |
| Addresses.AddressesPage.constructor | src/pages/MyAccount/AddressesPage.tsx:29-35 | no addresses, empty form, not editing |
| Addresses.AddressesPage.FetchAddresses | src/pages/MyAccount/AddressesPage.tsx:41-52 | the new state is `Load` of the old one |
| Addresses.AddressesPage.HandleChange | src/pages/MyAccount/AddressesPage.tsx:60-63 | only the named input changes |
| Addresses.AddressesPage.HandleEditClick | src/pages/MyAccount/AddressesPage.tsx:98-112 | the new state is `EditClick` of the old one |
| Addresses.AddressesPage.HandleCancelEdit | src/pages/MyAccount/AddressesPage.tsx:115-118 | the new state is `CancelEdit` of the old one |
| Addresses.AddressesPage.HandleSubmit | src/pages/MyAccount/AddressesPage.tsx:66-95 | state, request and notice are `Submit` of the old state |
| Addresses.AddressesPage.HandleDeleteAddress | src/pages/MyAccount/AddressesPage.tsx:121-123 | nothing changes |
| ChangePassword.Validate | src/pages/MyAccount/ChangePasswordPage.tsx:16-25 | the checks pass exactly when the new passwords agree and have at least 6 characters; a mismatch is reported first |
| ChangePassword.Submit | src/pages/MyAccount/ChangePasswordPage.tsx:12-53 | `handleSubmit`; (no ensures; specified by `SubmitSendsIffValid`, `MismatchFirst`, `SubmitSettles` and `FailureNotices`) |
| ChangePassword.FailureNotice | src/pages/MyAccount/ChangePasswordPage.tsx:38-49 | the failure notice, 401 first; (no ensures; specified by `FailureNotices`) |
| ChangePassword.SubmitSendsIffValid | src/pages/MyAccount/ChangePasswordPage.tsx:16-31 | a request is sent exactly when the checks pass, carrying the old and the new password |
| ChangePassword.MismatchFirst | src/pages/MyAccount/ChangePasswordPage.tsx:16-25 | differing passwords get the mismatch notice whatever their length; equal short ones the length notice |
| ChangePassword.SubmitSettles | src/pages/MyAccount/ChangePasswordPage.tsx:33-52 | loading is off after every submit; only success clears the three inputs |
| ChangePassword.FailureNotices | src/pages/MyAccount/ChangePasswordPage.tsx:39-49 | 401 maps to the wrong-password notice; another HTTP error to the server's message or the fallback; any other failure to the "unexpected" text |
| ChangePassword.ChangePasswordPage.constructor | src/pages/MyAccount/ChangePasswordPage.tsx:7-10 | three empty inputs, not loading |
| ChangePassword.ChangePasswordPage.SetInputs | src/pages/MyAccount/ChangePasswordPage.tsx:7-9 | sets the three inputs only |
| ChangePassword.ChangePasswordPage.HandleSubmit | src/pages/MyAccount/ChangePasswordPage.tsx:12-53 | state, request and notice are `Submit` of the old state |
| Register.MissingField | src/pages/Register/index.tsx:25 | `!name \|\| !email \|\| !phone \|\| !password`; (no ensures; specified by `SubmitSendsIffComplete`, `NavigatesOnlyOnSuccess` and `LocalChecks`) |
| Register.Submit | src/pages/Register/index.tsx:20-63 | `handleSubmit`; (no ensures; specified by `SubmitSendsIffComplete`, `NavigatesOnlyOnSuccess`, `LocalChecks` and `FailureShowsSameText`) |
| Register.SubmitSendsIffComplete | src/pages/Register/index.tsx:25-44 | a request is sent exactly when all four fields are filled and the terms accepted; it carries the fields and `acceptsTerms` |
| Register.NavigatesOnlyOnSuccess | src/pages/Register/index.tsx:47-48 | the page moves to `/login` exactly when the account was created, with the success notice and a cleared error |
| Register.LocalChecks | src/pages/Register/index.tsx:22-34 | an empty field sets the fill-all-fields error with no notice; then missing consent sets the terms error and a different notice text |
| Register.FailureShowsSameText | src/pages/Register/index.tsx:52-60 | a failure shows one text on the error line and in the notice: the server's message, the fallback or the "unexpected" text; the inputs are kept |
| Register.RegisterPage.constructor | src/pages/Register/index.tsx:9-15 | empty inputs, terms unaccepted, no error |
| Register.RegisterPage.SetInputs | src/pages/Register/index.tsx:9-15 | sets the inputs only |
| Register.RegisterPage.HandleSubmit | src/pages/Register/index.tsx:20-63 | state, request, notice and target are `Submit` of the old state |
| Login.FailureText | src/pages/Login/index.tsx:54-63 | the text of a failure, on the error line and in the notice; (no ensures; specified by `RejectedLogin`, `ProfileFailureLogsOut` and `SecondProfileFailureLogsOut`) |
| Login.Submit | src/pages/Login/index.tsx:19-66 | `handleSubmit`, with separate answers for the two profile fetches; (no ensures; specified by `MissingFieldSendsNothing`, `SignInRedirects`, `ProfileFailureLogsOut`, `SecondProfileFailureLogsOut` and `RejectedLogin`) |
| Login.HomeOf | src/pages/Login/index.tsx:46-50 | the admin panel exactly for an ADMIN |
| Login.SecondLoginChangesNothing | src/pages/Login/index.tsx:40-43 | when the second profile answer equals the first, handing the validated token to the session again leaves the session and the returned user as the first call did |
| Login.MissingFieldSendsNothing | src/pages/Login/index.tsx:21-27 | an empty e-mail or password sets the error and sends nothing, leaving the session |
| Login.SignInRedirects | src/pages/Login/index.tsx:29-50 | when both profile fetches succeed, the session holds the second answer's user and the token, with one success notice; that user decides the redirect: admins go to `/admin/pedidos`, everyone else to `/`; identical answers give the outcome of a single login |
| Login.ProfileFailureLogsOut | src/pages/Login/index.tsx:39-63 | a token whose profile fails ends logged out, with the success notice followed by the failure's text |
| Login.SecondProfileFailureLogsOut | src/pages/Login/index.tsx:40-63 | a second profile fetch that fails after the first succeeded ends logged out, with the success notice followed by that failure's text, and no redirect |
| Login.RejectedLogin | src/pages/Login/index.tsx:52-63 | a rejected login leaves the session and shows the server's message, the credentials fallback or the "unexpected" text, on the line and in the notice |
| Login.LoginPage.constructor | src/pages/Login/index.tsx:11-13 | empty inputs, no error |
| Login.LoginPage.SetInputs | src/pages/Login/index.tsx:11-12 | sets the inputs only |
| Login.LoginPage.HandleSubmit | src/pages/Login/index.tsx:19-66 | calls `Session.Login` twice, with the two profile answers; the form, the session, the request, the notices and the target are `Submit` of the old form and session |

## Left out

- HTTP itself (the axios instance, headers other than Authorization, and
  JSON bodies). Each answer is an input. A body `message` or
  `errors[0].message` that is missing is modelled as `""`; JavaScript `||`
  treats the two alike.
- The JSON text in local storage. A stored cart is either a snapshot that
  parses or text that does not. A stored token is an optional string.
- Floating point. Cart and order prices are integer cents. `parseFloat`
  of a catalogue price is a parameter `parsePrice` of `Menu.ToCartLine`.
  The model's `AdminItems.ItemBody` carries the price text where the
  source sends its `parseFloat`.
  Currency and date formatting (`Intl`) are not modelled.
- Lengths are counted in Dafny characters, not UTF-16 code units. This
  affects the category length check and the password length check only
  for text outside the Basic Multilingual Plane.
- Toasts other than those the modelled handlers return. The reducer's own
  REMOVE_ITEM notice is not modelled because the reducer is modelled as a
  pure function. The "could not load" notices of the fetch functions are
  not modelled either.
- `console.error`, `scrollIntoView` and `e.preventDefault`.
- JSX rendering beyond what the guards return and the menu's sections.
- The `loading` and `formLoading` flags of the admin and address pages.
  They only switch what is rendered. The password page's flag is
  modelled.
- Async interleaving: `Promise.all`, answers arriving after the page or
  session moved on, and StrictMode's double effects. Each handler runs to
  completion on the state it started from. The stale closure in the admin
  item submit is the one ordering effect modelled.
- The auth provider's render gate. It renders its children only while
  `loading` is false, and `login` sets `loading` during every call, so the
  whole tree under it, the sign-in page included, is unmounted while the
  profile is fetched. The error that `Login.Submit` puts on the form after
  a failed profile fetch (`Login.ProfileFailureLogsOut`,
  `Login.SecondProfileFailureLogsOut`) is therefore set on a page that is
  no longer mounted; the remounted page starts from an empty form. The
  notices are shown either way.
- The admin item form's per-field input handler (`handleChange`). It is
  the same `[name]: value` record update that `Addresses.Set` models.
- The order history, order details and profile pages. They fetch and
  render; their one computation is a float total like
  `AdminOrders.OrderTotal`.
- Layout, header and footer components, `Router.tsx`, `main.tsx`, the
  `useAuth` hook and `src/services/api.ts` are not part of this model.
- Cart.StepPreservesWellFormed: SET_STATE is excluded because its payload
  replaces the cart wholesale, and the reducer does not check that payload.
