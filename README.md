# Pantraqa front end: a Dafny model of its client-side logic

Pantraqa is a single-page client for tracking drink stock across storage locations. Its
client-side logic covers a few areas:

- **Stock levels page.** It loads the stock items once. A status filter (`all`, `low`,
  `ok`) runs first, then a sort by drink name, quantity or last update. Each row is labelled
  Low or OK.
- **Admin user list.** It shows role labels, and admins' rows have no controls. After the
  server accepts a role change the list is mapped; after it accepts a delete the list is
  filtered.
- **Drinks list.** After a successful delete the list is filtered.
- **Stock in/out form.** A role gate comes before the loading gate. Submit posts the three
  fields as numbers. On success the fields are cleared; on failure an error message is
  picked through a fallback chain.
- **Threshold dialog.** Save calls `onSave` and then `onClose`; Cancel calls `onClose` only.
- **Route guards.** There are three: protected, public and guest-only.
- **Main layout.** Desktop and mobile navigation are chosen by role. There is also the
  mobile menu toggle and sign-out.

The model works like this:

- Pure decisions and list updates are functions over datatypes.
- Component state that handlers update step by step is a class. Its fields are the
  component's state variables, and each handler is a method whose `ensures` gives the whole
  new state.
- Every awaited HTTP call is one atomic step. Its outcome is a parameter: `Outcome.Ok(data)`,
  or `Outcome.Fail` with a `Failure`. A `Failure` is an axios error carrying the response's
  `error` field, another `Error`, or a thrown non-`Error`.
- Toasts, navigation, requests and calls to parent callbacks go into a `trace` of `Effect`s
  on the object.
- The auth context is an input: a user option plus a loading flag.
- Roles are the closed enum `Staff | Manager | Admin`.

The modules follow the source files. `StockList` holds the filter/sort derivation and the
page state. `StockRow`, `AllUsers`, `AllDrinks`, `StockForm`, `EditThresholdModal`,
`RouteGuards` and `MainLayout` match their components. They share three modules:

- `Common`: roles, auth state, the stock item record, outcomes, effects and error-message
  fallbacks.
- `Lists`: `filter` and its laws.
- `JsNumber`: `Number(text)` and `String(n)` on decimal integers.

## What the code does not do

- The stock list page fetches `/stocks` once, with no page parameter, and has no control
  for editing a threshold.
- `PublicRoute` and `GuestOnlyRoute` both render `<Navigate to="/dashboard" />` without
  `replace`, so they decide identically in every respect.

## Model

| member | source | states |
|---|---|---|
| `Common.MessageIfError` | src/pages/drinks/AllDrinks.tsx:16 | an `Error`'s own message (even when blank), else the fallback |
| `Common.NonEmptyMessageIfError` | src/pages/admin/AllUsers.tsx:36-40 | an `Error`'s non-blank message, else the fallback; never blank when the fallback is not |
| `JsNumber.NumberOfIntToString` | src/components/UI/StockForm.tsx:59-63 | `Number(String(n))` is `n` for every integer (the model's `Number` is exact; see Left out), so a select whose option values are rendered ids reports back exactly those ids |
| `Lists.Filter` | src/pages/drinks/AllDrinks.tsx:25 | the result is no longer than the input; it holds only input elements that pass the test, and every input element that passes is in it |
| `Lists.FilterCount` | src/pages/admin/AllUsers.tsx:72 | a passing value keeps every copy; a failing value has none left |
| `Lists.FilterConcat` | src/pages/admin/AllUsers.tsx:72 | filtering keeps relative order: `filter(a + b) == filter(a) + filter(b)` |
| `Lists.FilterKeepsAll` | src/pages/stocks/StockList.tsx:60 | when every element passes, the filter is the identity |
| `Lists.FilterIdempotent` | src/pages/drinks/AllDrinks.tsx:25 | filtering twice by the same test is filtering once |
| `StockRow.StatusLabel` | src/components/StockRow.tsx:22 | the label is `Low` exactly when quantity <= threshold, and `OK` exactly otherwise |
| `StockRow.StatusClass` | src/components/StockRow.tsx:19-21 | red exactly when quantity <= threshold, green exactly otherwise |
| `StockRow.StyleMatchesLabel` | src/components/StockRow.tsx:19-22 | `StatusClass` gives the red style exactly with a Low `StatusLabel` and the green style with OK |
| `StockRow.ClickEdit` | src/components/StockRow.tsx:28-30 | a click yields at most one effect, `onEditClick` with exactly this row's item, and one exactly when the row shows the button |
| `StockRow.EditGate` | src/components/StockRow.tsx:28 | `Row` shows the Edit button iff the user is a manager or an admin; a staff user's click does nothing |
| `StockList.LexCompare` | src/pages/stocks/StockList.tsx:64 | the name comparison gives -1, 0 or 1 |
| `StockList.LexAntisymmetric` | src/pages/stocks/StockList.tsx:64 | swapping the names negates the comparison |
| `StockList.LexZeroIffEqual` | src/pages/stocks/StockList.tsx:64 | two names compare equal iff they are the same |
| `StockList.LexTransitive` | src/pages/stocks/StockList.tsx:64 | the name order is transitive |
| `StockList.CompareFlip` | src/pages/stocks/StockList.tsx:62-73 | for every sort key, swapping the items negates the comparator |
| `StockList.CompareTransitive` | src/pages/stocks/StockList.tsx:62-73 | for every sort key, the comparator's order is transitive |
| `StockList.InsertPermutes` | src/pages/stocks/StockList.tsx:62-73 | inserting adds exactly the one item |
| `StockList.InsertSorted` | src/pages/stocks/StockList.tsx:62-73 | inserting into a sorted list keeps it sorted |
| `StockList.SortPermutes` | src/pages/stocks/StockList.tsx:62-73 | the sort is a permutation of its input |
| `StockList.SortSorted` | src/pages/stocks/StockList.tsx:62-73 | the sort's output has no pair out of order under the comparator |
| `StockList.DerivedCount` | src/pages/stocks/StockList.tsx:56-73 | an item occurs in the derived list `FilteredAndSorted` as often as in the loaded list if it passes the filter, else not at all |
| `StockList.DerivedContents` | src/pages/stocks/StockList.tsx:56-73 | the derived list `FilteredAndSorted` is a sorted permutation of the subset the status filter lets through |
| `StockList.ShowAllKeepsEverything` | src/pages/stocks/StockList.tsx:60 | filter `all` keeps every loaded item, copies included |
| `StockList.LowOkPartition` | src/pages/stocks/StockList.tsx:58-59 | the `low` and `ok` views share no item and together hold every loaded item |
| `StockList.QuantityDescending` | src/pages/stocks/StockList.tsx:66-68 | sorted by quantity, quantities never increase down the list |
| `StockList.UpdatedAtDescending` | src/pages/stocks/StockList.tsx:69-71 | sorted by update time, the most recent comes first |
| `StockList.NameAscending` | src/pages/stocks/StockList.tsx:63-65 | sorted by name, names never decrease down the list |
| `StockList.FilteredRowsLabelled` | src/pages/stocks/StockList.tsx:116-128 | every row under `low` reads Low and every row under `ok` reads OK |
| `StockList.QuantityFixture` | src/pages/stocks/StockList.tsx:66-68 | quantities 5, 20, 1 with threshold 10 sort to 20, 5, 1 and read OK, Low, Low |
| `StockList.StockListPage.constructor` | src/pages/stocks/StockList.tsx:26-30 | the page starts with no items, loading, no error, sorted by update time, filter `all` |
| `StockList.StockListPage.ReceiveStocks` | src/pages/stocks/StockList.tsx:32-43 | success stores the response's items; failure sets `Failed to fetch stock data` and keeps the items; loading ends either way; after a failure the page shows that error |
| `StockList.StockListPage.ChangeSort` | src/pages/stocks/StockList.tsx:48-50 | the sort key becomes the selected one |
| `StockList.StockListPage.ChangeFilter` | src/pages/stocks/StockList.tsx:52-54 | the filter becomes the selected one |
| `StockList.StockListPage.View` | src/pages/stocks/StockList.tsx:75-135 | the loading text while loading, else the error if there is one, else a table whose rows are a sorted permutation of the items the current filter lets through |
| `AllUsers.DisplayRole` | src/pages/admin/AllUsers.tsx:18-21 | `staff` shows as `Runner`; any other role keeps its length and its tail, and its first character is upper-cased |
| `AllUsers.RoleLabels` | src/pages/admin/AllUsers.tsx:18-21 | the three roles show as Runner, Manager and Admin |
| `AllUsers.WithRole` | src/pages/admin/AllUsers.tsx:54-58 | the length is kept; users with the id get the new role and nothing else changes; every other user is unchanged |
| `AllUsers.RoleChangeOnlyTouchesTarget` | src/pages/admin/AllUsers.tsx:54-58 | after a role change the target has the new role; every field but the role, and every id and position, stays; only the target's entries differ |
| `AllUsers.RoleChangeUndone` | src/pages/admin/AllUsers.tsx:54-58 | with unique ids, changing a role and changing it back restores the list |
| `AllUsers.DeleteRemovesOnlyTarget` | src/pages/admin/AllUsers.tsx:72 | after `WithoutUser`, no user with the id remains; every other user keeps each copy and its relative order |
| `AllUsers.DeleteAbsentIsNoOp` | src/pages/admin/AllUsers.tsx:72 | `WithoutUser` with an id no user has leaves the list as it is |
| `AllUsers.AllUsersPage.View` | src/pages/admin/AllUsers.tsx:82-137 | the loader while loading, else the error if there is one, else one row per user, in list order |
| `AllUsers.RowOf` | src/pages/admin/AllUsers.tsx:102-133 | an admin's row has neither the role selector nor the Delete button, and every other row has both; the role cell is the display label |
| `AllUsers.AllUsersPage.constructor` | src/pages/admin/AllUsers.tsx:24-26 | no users, loading, no error, nothing toasted |
| `AllUsers.AllUsersPage.ReceiveUsers` | src/pages/admin/AllUsers.tsx:28-45 | success stores the list; failure sets `Failed to fetch users` and toasts the error's message or that text; loading ends; after a failure the page shows the error |
| `AllUsers.AllUsersPage.ChangeRole` | src/pages/admin/AllUsers.tsx:47-66 | the PUT is issued; on success a toast and the map above; on failure only an error toast, with the list unchanged |
| `AllUsers.AllUsersPage.DeleteUser` | src/pages/admin/AllUsers.tsx:68-80 | the DELETE is issued; on success a toast and the filter above; on failure only an error toast, with the list unchanged |
| `AllDrinks.DeleteRemovesOnlyTarget` | src/pages/drinks/AllDrinks.tsx:25 | after `WithoutDrink`, no drink with the id remains; the others keep each copy and their order |
| `AllDrinks.DeleteIdempotent` | src/pages/drinks/AllDrinks.tsx:25 | `WithoutDrink` applied twice with one id equals applying it once |
| `AllDrinks.AllDrinksPage.constructor` | src/pages/drinks/AllDrinks.tsx:8 | the list starts empty |
| `AllDrinks.AllDrinksPage.ReceiveDrinks` | src/pages/drinks/AllDrinks.tsx:10-20 | success stores the response's drinks; failure keeps the list and toasts the error's message or `Error fetching drinks!` |
| `AllDrinks.AllDrinksPage.DeleteDrink` | src/pages/drinks/AllDrinks.tsx:22-30 | the DELETE is issued; only on success is the drink filtered out and a toast shown; on failure the list is unchanged and an error is toasted |
| `StockForm.ChosenOptionsArePosted` | src/components/UI/StockForm.tsx:59-63 | `Payload` after choosing the i-th drink and j-th location and typing a whole quantity posts exactly those ids and that quantity |
| `StockForm.EmptyFieldsPostZeros` | src/components/UI/StockForm.tsx:59-63 | `Payload` of untouched fields posts 0, since `Number('')` is 0 |
| `StockForm.SubmitErrorMessage` | src/components/UI/StockForm.tsx:75-85 | for axios errors the message is the server's `error`, else the error's message, else `Stock update failed`; for any other error it is `An unexpected error occurred`; never blank |
| `StockForm.AfterSuccess` | src/components/UI/StockForm.tsx:69-73 | exactly one follow-up: `onSubmitSuccess` when supplied, otherwise navigation to `/stocks` |
| `StockForm.StockFormState.constructor` | src/components/UI/StockForm.tsx:29-35 | no options, empty fields, no error, loading |
| `StockForm.StockFormState.View` | src/components/UI/StockForm.tsx:88-92 | no user, or a role other than manager or admin, sees the permission message whatever the loading flag; otherwise loading comes next; the form shows the error line iff the error is non-empty |
| `StockForm.StockFormState.ReceiveOptions` | src/components/UI/StockForm.tsx:37-54 | both lists are stored only when both fetches succeed; otherwise they stay as they were; loading ends either way |
| `StockForm.StockFormState.ChooseDrink` | src/components/UI/StockForm.tsx:100 | the drink field takes the selected value |
| `StockForm.StockFormState.ChooseLocation` | src/components/UI/StockForm.tsx:115 | the location field takes the selected value |
| `StockForm.StockFormState.EnterQuantity` | src/components/UI/StockForm.tsx:131 | the quantity field takes the typed text |
| `StockForm.StockFormState.Submit` | src/components/UI/StockForm.tsx:56-86 | it posts to `/stocks/in` or `/stocks/out` with the fields through `Number`. On success: a toast, the three fields cleared, the error left as it was, then exactly one follow-up. On failure: the fields kept, an error toast, and the fallback message |
| `EditThresholdModal.ThresholdModal.constructor` | src/components/UI/EditThresholdModal.tsx:11 | the threshold starts as `currentThreshold` |
| `EditThresholdModal.ThresholdModal.View` | src/components/UI/EditThresholdModal.tsx:19 | nothing is rendered iff the dialog is closed |
| `EditThresholdModal.ThresholdModal.ChangeInput` | src/components/UI/EditThresholdModal.tsx:29 | the threshold becomes `Number` of the entered text |
| `EditThresholdModal.ThresholdModal.Submit` | src/components/UI/EditThresholdModal.tsx:13-17 | exactly one `onSave` with the current threshold, then `onClose` |
| `EditThresholdModal.ThresholdModal.Cancel` | src/components/UI/EditThresholdModal.tsx:35 | `onClose` only, never `onSave` |
| `EditThresholdModal.SaveAfterEditScenario` | src/components/UI/EditThresholdModal.tsx:11-17 | opened at 10 with 15 typed, Save yields exactly `onSave(15)` then `onClose` |
| `RouteGuards.ProtectedRoute` | src/pages/auth/ProtectedRoute.tsx:6-25 | while loading, a spinner whatever the user; not loading and no user, a replacing redirect to `/login`; the children iff not loading and signed in |
| `RouteGuards.PublicRoute` | src/pages/auth/PublicRoute.tsx:4-8 | a signed-in user is redirected to `/dashboard`; otherwise the children |
| `RouteGuards.GuestOnlyRoute` | src/pages/auth/GuestOnlyRoute.tsx:5-13 | a signed-in user is redirected to `/dashboard`; otherwise the children |
| `RouteGuards.GuestGuardsAgree` | src/pages/auth/GuestOnlyRoute.tsx:8-12 | the guest-only and public guards decide alike for every auth state, and neither reads the loading flag |
| `RouteGuards.GuardsNeverBothRedirect` | src/pages/auth/PublicRoute.tsx:7 | the public guard never redirects to `/login`; it and the protected guard never both redirect |
| `MainLayout.NavsAgree` | src/layouts/MainLayout.tsx:45-157 | `DesktopNav` and `MobileNav` offer the same texts and targets, in the same order, for every user |
| `MainLayout.LinksByRole` | src/layouts/MainLayout.tsx:46-91 | the links `DesktopNav` gives: signed out, only Login; manager or admin: Dashboard, Stock Logs, Add Drink, All Drinks, Sign Out; any other role: All Drinks and Sign Out |
| `MainLayout.ManagementLinksGated` | src/layouts/MainLayout.tsx:55-83 | the dashboard, stock-log and add-drink links appear iff the user is a manager or an admin; All Drinks iff signed in |
| `MainLayout.Layout` | src/layouts/MainLayout.tsx:18 | while the auth state loads, only the loading text is rendered; otherwise the mobile nav is open iff the menu is |
| `MainLayout.LayoutState.constructor` | src/layouts/MainLayout.tsx:10 | the menu starts closed |
| `MainLayout.LayoutState.ToggleMenu` | src/layouts/MainLayout.tsx:20-22 | the menu flag is negated |
| `MainLayout.LayoutState.HandleLogout` | src/layouts/MainLayout.tsx:12-16 | `logout()`, then the success toast, then navigation to `/login` |
| `MainLayout.LayoutState.Click` | src/layouts/MainLayout.tsx:85-154 | a link's handler runs before its own navigation. Desktop Sign Out logs out and then follows its link too. Mobile links toggle the menu. Mobile Sign Out logs out and toggles without following the link |
| `MainLayout.ToggleTwice` | src/layouts/MainLayout.tsx:20-22 | toggling twice restores the menu and records nothing |
| `MainLayout.MobileClickClosesMenu` | src/layouts/MainLayout.tsx:100-154 | clicking any link of the open mobile menu leaves it closed |

## Left out

- HTTP transport: the axios instance, its base URL and bearer token, and response
  shapes beyond the fields read are not modelled. Each awaited call is an outcome parameter.
  Requests in flight at the same time, stale responses and `Promise.all` interleaving are
  not modelled; the two option fetches settle together.
- The auth context's own implementation and its storage persistence are not part of this
  model. `useAuth()` is an input. The signed-in user is reduced to its role, the only field
  the core reads.
- Rendering is modelled as
  which branch is taken and what data it shows, not as markup, styling classes
  beyond the status colour, or `toLocaleString` date formatting.
- `StockList.LexCompare`: `localeCompare` depends on the locale. The model compares names
  character by character in code-point order, which is an approximation.
- `updatedAt` is the integer timestamp that `new Date(...).getTime()` yields. Date parsing
  and invalid dates (NaN comparisons) are not modelled.
- `StockList.Sort` is a stable insertion sort, as `Array.prototype.sort` is stable. It is
  proved sorted and a permutation. Stability itself is not proved.
- `AllUsers.DisplayRole`: only ASCII letters are upper-cased. Under full Unicode case
  mapping `toUpperCase` can change a string's length. Roles are ASCII words.
- Ids, quantities, thresholds and timestamps are unbounded integers, where JavaScript
  numbers are doubles. `JsNumber.ToNumber` and `JsNumber.IntToString` agree with `Number`
  and `String` only for safe integers (absolute value at most 2^53 - 1): beyond that
  `Number` rounds and `String` switches to exponent notation from 10^21, which the model
  does not do.
- `JsNumber.ToNumber` follows `Number(text)` for the empty string and for optional `-` plus
  digits. Every other text maps to `Untracked`: fractions, exponents, whitespace, `+`, hex
  and NaN. This covers the ids the selects report and whole quantities.
- Browser form validation (`required`, `min={1}`) is outside the model. It would block some
  submits before the handlers run. The handlers are modelled once the submit event fires.
- `console.error` logging, toast display and router internals are left out. Toasts and
  navigation appear only as trace effects. Whether a `<Link>` pushes or replaces history is
  the router's choice.
- Login, registration, drink and storage-location creation are other pages and are not
  modelled. They follow the same post, toast, navigate pattern, with a fallback error
  string of the kind `StockForm.SubmitErrorMessage` covers.
- `GetStartedButton` reads browser storage directly and is not modelled. The stock-log page
  only fetches and lists. Static pages, icons, layouts without logic and the route table
  carry no logic and are not modelled.
