# Food-delivery front end: screen logic in Dafny

This project models the state and the derived values behind the screens of a small
React food-delivery app. It covers:

- the cart and checkout wizard, with quantity changes, removal, totals, the promo
  check, the three steps and order placement;
- the controls of one cart line;
- the delivery step's "add new address" form;
- the restaurant search;
- the profile screen's editable fields and address list;
- the order history table;
- the bottom navigation bar's active-tab test.

Each source file is one Dafny module. Two modules are shared:

- `Addresses` holds the address record and the list operations on it.
- `Cart` holds the cart lines and their totals.

Three support modules provide the shared machinery:

- `Optional` is an option type.
- `Text` holds ASCII case mapping, `startsWith`, `includes` and `substring`.
- `Seqs` holds `filter` and `reduce` on sequences, and the subsequence relation, which stands for "same elements, same order".

How the source maps onto Dafny:

- Component state that handlers update in place is a `class`. Its fields are the `useState` variables and its methods are the handlers.
- A handler whose control is rendered only in some states does nothing in the other states. This covers the cart line controls and the promo input (summary step only), the delivery form's submit (delivery step only), the payment choice and "Place Order" (payment step only), the rating slider (open dialog only), and the profile's edit inputs (edit mode only). `ApplyPromo` changes no state in any step.
- The delivery section is mounted anew each time the wizard enters the delivery step. `ProceedToDelivery` and `BackToDelivery` therefore give the screen a fresh, hidden, empty form. Text typed into a form on another step is discarded before it can be submitted.
- Values the source computes with `map`, `filter`, `reduce` and `substring` are functions. Lemmas prove what they mean.
- Money is integer cents. The 8% tax is computed exactly as a `real`, with no display rounding.
- `Date.now()`, which the source uses to make new address ids, is a `stamp` parameter. The id is `"addr" + stamp`.

## Model

| member | source | states |
|---|---|---|
| OrderSummaryItem.Increment | src/components/checkout/OrderSummaryItem.tsx:31 | "+" asks for exactly one more of the same line |
| OrderSummaryItem.Decrement | src/components/checkout/OrderSummaryItem.tsx:32-38 | "-" fires a removal exactly when the quantity is at most 1; otherwise it asks for one less, which is never below 1 |
| OrderSummaryItem.QuantityInput | src/components/checkout/OrderSummaryItem.tsx:39-44 | the number field fires exactly when the parsed value is a number and not negative, and passes that value on, zero included |
| OrderSummaryItem.RemoveClick | src/components/checkout/OrderSummaryItem.tsx:78 | "x" removes the line whatever its quantity |
| OrderSummaryItem.LineTotal | src/components/checkout/OrderSummaryItem.tsx:77 | the amount shown is price times quantity: 0 for quantity 0 and not negative for inputs that are not negative; `StepChangesLineTotalByPrice` and `Cart.SubtotalIsSumOfLineTotals` relate it to the controls and the subtotal |
| OrderSummaryItem.StepChangesLineTotalByPrice | src/components/checkout/OrderSummaryItem.tsx:31-38 | "+" raises the amount shown (line 77) by exactly one price, and a "-" that keeps the line lowers it by exactly one price |
| Cart.SetQuantity | src/pages/CartCheckoutScreen.tsx:51 | the `map` step gives the new quantity to every line with the id and leaves the other lines as they were |
| Cart.ChangeQuantity | src/pages/CartCheckoutScreen.tsx:49-53 | the result keeps only positive quantities, in order; every line with the id that remains has the new quantity; a quantity of 0 or less leaves no line with that id |
| Cart.RemoveLine | src/pages/CartCheckoutScreen.tsx:55-58 | no line with the id remains; every other line stays, in order, and nothing new appears |
| Cart.RemoveLineKeepsCounts | src/pages/CartCheckoutScreen.tsx:55-58 | every line without the id stays as many times as the cart holds it |
| Cart.ChangeQuantityCases | src/pages/CartCheckoutScreen.tsx:49-56 | on a cart with positive quantities, a positive quantity rewrites in place, and 0 or less is exactly the remove handler |
| Cart.ChangeUnknownIsNoop | src/pages/CartCheckoutScreen.tsx:49-53 | changing the quantity of an id no line has leaves a valid cart unchanged |
| Cart.RemoveUnknownIsNoop | src/pages/CartCheckoutScreen.tsx:55-58 | removing an id no line has leaves the cart unchanged |
| Cart.DispatchAllKeepsPositive | src/pages/CartCheckoutScreen.tsx:49-58 | any sequence of quantity changes and removals keeps every quantity at least 1 |
| Cart.DecrementIsOneLess | src/components/checkout/OrderSummaryItem.tsx:32-38 | "-" has the same effect on the cart as a quantity change to one less, including the removal at quantity 1 |
| Cart.Subtotal | src/pages/CartCheckoutScreen.tsx:60 | the left fold of line amounts from 0; its properties are `SubtotalIsSumOfLineTotals`, `EmptyCartTotals`, `TotalsNonNegative`, `RemoveLineSubtotal` and `InitialCartTotals` |
| Cart.Tax | src/pages/CartCheckoutScreen.tsx:61 | 8% of the subtotal, exactly; its properties are `EmptyCartTotals`, `TotalsNonNegative` and `InitialCartTotals` |
| Cart.Total | src/pages/CartCheckoutScreen.tsx:62-63 | subtotal plus tax plus the 500-cent fee; its properties are `TotalIsSubtotalWithTaxAndFee`, `TotalsNonNegative`, `EmptyCartTotals` and `InitialCartTotals` |
| Cart.SubtotalIsSumOfLineTotals | src/pages/CartCheckoutScreen.tsx:60 | the `reduce` subtotal equals the sum of the line totals each line displays |
| Cart.EmptyCartTotals | src/pages/CartCheckoutScreen.tsx:60-63 | an empty cart has subtotal 0 and tax 0, and its total is the 5.00 delivery fee |
| Cart.TotalsNonNegative | src/pages/CartCheckoutScreen.tsx:60-63 | with prices that are not negative, the subtotal and tax are not negative and the total is at least the delivery fee |
| Cart.TotalIsSubtotalWithTaxAndFee | src/pages/CartCheckoutScreen.tsx:61-63 | the total is 1.08 times the subtotal plus 500 cents |
| Cart.RemoveLineSubtotal | src/pages/CartCheckoutScreen.tsx:55-60 | removing an id takes exactly that id's line amounts off the subtotal |
| Cart.InitialCartTotals | src/pages/CartCheckoutScreen.tsx:14-17 | the initial cart has subtotal 20.99, tax 1.6792 and total 27.6692 |
| CartCheckoutScreen.PromoAccepted | src/pages/CartCheckoutScreen.tsx:66 | the upper-cased code equals "SAVE10"; its properties are `PromoAcceptedIff` and `PromoExamples` |
| CartCheckoutScreen.PromoAcceptedIff | src/pages/CartCheckoutScreen.tsx:66 | a code is accepted exactly when it is "save10" in some mix of letter case, under the ASCII case mapping |
| CartCheckoutScreen.PromoExamples | src/pages/CartCheckoutScreen.tsx:66 | "save10", "Save10" and "SAVE10" are accepted; "XYZ", "SAVE1" and "SAVE10 " are not |
| CartCheckoutScreen.CheckoutScreen.constructor | src/pages/CartCheckoutScreen.tsx:37-45 | starts with the two placeholder lines, an empty promo code and the summary step; the first address and the first payment method are selected; the delivery form is hidden and empty |
| CartCheckoutScreen.CheckoutScreen.QuantityChange | src/pages/CartCheckoutScreen.tsx:49-53 | on the summary step (the line controls are rendered only there, lines 106-122), sets the cart to the quantity-change result; on the other steps, where no line control exists, leaves the cart unchanged; every quantity stays positive |
| CartCheckoutScreen.CheckoutScreen.RemoveItem | src/pages/CartCheckoutScreen.tsx:55-58 | on the summary step (lines 106-122), sets the cart to the removal result; on the other steps, leaves the cart unchanged; every quantity stays positive |
| CartCheckoutScreen.CheckoutScreen.TypePromoCode | src/pages/CartCheckoutScreen.tsx:146-151 | the promo input stores what is typed; it exists only on the summary step with a non-empty cart (lines 106 and 126), and elsewhere nothing changes |
| CartCheckoutScreen.CheckoutScreen.ApplyPromo | src/pages/CartCheckoutScreen.tsx:65-72 | reports acceptance exactly for "save10" in any letter case, under the ASCII case mapping, and changes no state, so the totals do not move |
| CartCheckoutScreen.CheckoutScreen.AddNewAddress | src/pages/CartCheckoutScreen.tsx:74-79 | on the delivery step, where its only caller is rendered, appends the address under the id `addr` + stamp and selects that id; on any other step nothing changes |
| CartCheckoutScreen.CheckoutScreen.SubmitAddressForm | src/pages/CartCheckoutScreen.tsx:167-174 | a submission happens exactly on the delivery step when the browser accepts the form; it adds and selects the typed address, and leaves the form hidden and empty; otherwise neither the list, the selection nor the form changes |
| CartCheckoutScreen.CheckoutScreen.ProceedToDelivery | src/pages/CartCheckoutScreen.tsx:154-174 | moves from summary to delivery exactly when the cart is not empty, and the delivery section starts with a fresh, hidden, empty form |
| CartCheckoutScreen.CheckoutScreen.BackToCart | src/pages/CartCheckoutScreen.tsx:176 | moves from delivery back to summary, always |
| CartCheckoutScreen.CheckoutScreen.ProceedToPayment | src/pages/CartCheckoutScreen.tsx:177 | moves from delivery to payment exactly when the selected address id is truthy |
| CartCheckoutScreen.CheckoutScreen.BackToDelivery | src/pages/CartCheckoutScreen.tsx:201 | moves from payment back to delivery, always, and the delivery section (mounted at lines 167-174) starts with a fresh, hidden, empty form |
| CartCheckoutScreen.CheckoutScreen.SelectPaymentMethod | src/pages/CartCheckoutScreen.tsx:186-190 | the payment step's choice, always the id of an available method, sets the selected method id |
| CartCheckoutScreen.CheckoutScreen.PlaceOrder | src/pages/CartCheckoutScreen.tsx:81-93 | on the payment step with a truthy method id, the cart becomes empty and the step returns to summary; otherwise nothing changes |
| DeliveryDetailsSection.DeliveryForm.constructor | src/components/checkout/DeliveryDetailsSection.tsx:25-30 | the form starts hidden with four empty fields |
| DeliveryDetailsSection.DeliveryForm.CanSubmit | src/components/checkout/DeliveryDetailsSection.tsx:70-90 | the form is shown and none of the four `required` fields is empty; `Submit` emits exactly when it holds |
| DeliveryDetailsSection.DeliveryForm.ClickAddNewAddress | src/components/checkout/DeliveryDetailsSection.tsx:64-68 | "Add New Address" shows the form |
| DeliveryDetailsSection.DeliveryForm.TypeLine1 | src/components/checkout/DeliveryDetailsSection.tsx:75 | the input stores what is typed while the form is shown |
| DeliveryDetailsSection.DeliveryForm.TypeCity | src/components/checkout/DeliveryDetailsSection.tsx:80 | the input stores what is typed while the form is shown |
| DeliveryDetailsSection.DeliveryForm.TypeState | src/components/checkout/DeliveryDetailsSection.tsx:84 | the input stores what is typed while the form is shown |
| DeliveryDetailsSection.DeliveryForm.TypeZip | src/components/checkout/DeliveryDetailsSection.tsx:89 | the input stores what is typed while the form is shown |
| DeliveryDetailsSection.DeliveryForm.Cancel | src/components/checkout/DeliveryDetailsSection.tsx:92 | "Cancel" hides the form |
| DeliveryDetailsSection.DeliveryForm.Submit | src/components/checkout/DeliveryDetailsSection.tsx:34-42 | emits the typed line1, city, state and zip with type `Other`, exactly when all four are filled; then clears all four fields and hides the form; a blocked submission leaves the whole form unchanged |
| Addresses.WithId | src/pages/CartCheckoutScreen.tsx:75 | the address keeps every field of the submitted one and gains the id |
| Addresses.DeleteById | src/pages/UserProfileScreen.tsx:66 | no address with the id remains; every other address stays in order, as many times as the list holds it |
| Addresses.DeleteUnknownIsNoop | src/pages/UserProfileScreen.tsx:65-68 | deleting an unknown id changes nothing |
| Addresses.DeleteUndoesAppend | src/pages/UserProfileScreen.tsx:58-66 | deleting the fresh id of an address just appended restores the list |
| Addresses.DeleteShrinks | src/pages/UserProfileScreen.tsx:66 | deleting never grows the list, and deleting a present id shrinks it |
| UserProfileScreen.DummyAddress | src/pages/UserProfileScreen.tsx:50-57 | the added address has the id `addr` + stamp and the type `Other` |
| UserProfileScreen.WithDummyAddress | src/pages/UserProfileScreen.tsx:58 | the list grows by one, the existing entries are unchanged, and the new last entry is of type `Other` |
| UserProfileScreen.AddThenDeleteRestores | src/pages/UserProfileScreen.tsx:48-68 | adding an address with a new id and then deleting that id gives back the list |
| UserProfileScreen.AvatarInitials | src/pages/UserProfileScreen.tsx:84 | the initials are the first two characters of the name, or fewer for a shorter name, upper-cased |
| UserProfileScreen.InitialsExamples | src/pages/UserProfileScreen.tsx:84 | "John Doe" gives "JO", "j" gives "J", "" gives "" |
| UserProfileScreen.ProfileScreen.constructor | src/pages/UserProfileScreen.tsx:33-38 | starts with John Doe's details, the two placeholder addresses and orders, and edit mode off |
| UserProfileScreen.ProfileScreen.ToggleEdit | src/pages/UserProfileScreen.tsx:91 | the edit button flips edit mode |
| UserProfileScreen.ProfileScreen.TypeName | src/pages/UserProfileScreen.tsx:104 | the name input, shown only in edit mode, stores what is typed, unvalidated |
| UserProfileScreen.ProfileScreen.TypeEmail | src/pages/UserProfileScreen.tsx:108 | the email input, shown only in edit mode, stores what is typed, unvalidated |
| UserProfileScreen.ProfileScreen.TypePhone | src/pages/UserProfileScreen.tsx:112 | the phone input, shown only in edit mode, stores what is typed, unvalidated |
| UserProfileScreen.ProfileScreen.SaveProfile | src/pages/UserProfileScreen.tsx:42-46 | leaves edit mode; the name, email and phone keep what was typed |
| UserProfileScreen.ProfileScreen.CancelEdit | src/pages/UserProfileScreen.tsx:116 | leaves edit mode and touches nothing else, so typed values are not reverted |
| UserProfileScreen.ProfileScreen.AddAddress | src/pages/UserProfileScreen.tsx:48-60 | appends exactly one `Other` address at the end |
| UserProfileScreen.ProfileScreen.DeleteAddress | src/pages/UserProfileScreen.tsx:65-68 | the list becomes the delete-by-id result |
| UserProfileScreen.AddThenDelete | src/pages/UserProfileScreen.tsx:48-68 | on the screen, "Add New" followed by deleting the new id leaves the address list as it was |
| OrderHistoryTable.StatusBadgeVariant | src/components/profile/OrderHistoryTable.tsx:38-47 | the badge for each status; `BadgeIsBijection` and `BadgeInjective` state its properties |
| OrderHistoryTable.BadgeIsBijection | src/components/profile/OrderHistoryTable.tsx:38-47 | the five statuses map to the five badges Delivered→success, Pending→default, Processing→secondary, Shipped→outline, Cancelled→destructive, and each badge maps back to its status |
| OrderHistoryTable.BadgeInjective | src/components/profile/OrderHistoryTable.tsx:38-47 | two statuses share a badge only if they are equal |
| OrderHistoryTable.ItemCount | src/components/profile/OrderHistoryTable.tsx:75 | the left fold of item quantities from 0; `ItemCountIsQuantitiesSum` and `ItemCountAppend` state its properties |
| OrderHistoryTable.ItemCountIsQuantitiesSum | src/components/profile/OrderHistoryTable.tsx:75 | the item count is the sum of the items' quantities, and 0 for no items |
| OrderHistoryTable.ItemCountAppend | src/components/profile/OrderHistoryTable.tsx:75 | the item counts of two item lists add up |
| OrderHistoryTable.IdCell | src/components/profile/OrderHistoryTable.tsx:69 | the cell is "#", then the first min(8, length) characters of the id, then "..." |
| OrderHistoryTable.Render | src/components/profile/OrderHistoryTable.tsx:49-82 | no orders select the "no past orders" message; otherwise there is one row per order, in order |
| OrderHistoryTable.PlaceholderRows | src/pages/UserProfileScreen.tsx:26-29 | the profile's two orders render as "#ord123xy..." with 3 items and a success badge, then "#ord456ab..." with 2 items and a secondary badge |
| BottomNavigationBar.NavTable | src/components/layout/BottomNavigationBar.tsx:12-18 | four tabs, Home, Orders, Cart and Profile, with distinct paths |
| BottomNavigationBar.IsActive | src/components/layout/BottomNavigationBar.tsx:29 | exact match, or any prefix match for a tab other than "/"; `HomeOnlyOnRoot`, `PrefixActivates`, `CartPrefixExamples`, `AtMostOneActive` and `OnlyHomeOutsideSections` state its properties |
| BottomNavigationBar.HomeOnlyOnRoot | src/components/layout/BottomNavigationBar.tsx:29 | Home is active exactly on "/" |
| BottomNavigationBar.PrefixActivates | src/components/layout/BottomNavigationBar.tsx:29 | every other tab is active exactly on the paths that start with its path |
| BottomNavigationBar.CartPrefixExamples | src/components/layout/BottomNavigationBar.tsx:29 | "/cartx" and "/cart-checkout" light Cart; "/car" does not |
| BottomNavigationBar.AtMostOneActive | src/components/layout/BottomNavigationBar.tsx:12-29 | at most one tab is active for any path |
| BottomNavigationBar.OnlyHomeOutsideSections | src/components/layout/BottomNavigationBar.tsx:12-29 | a path that starts with none of "/orders", "/cart" or "/profile" lights Home if it is "/", and nothing otherwise |
| RestaurantListingScreen.Matches | src/pages/RestaurantListingScreen.tsx:40-43 | the lower-cased name or some lower-cased cuisine contains the lower-cased query; `Displayed`, `EmptyQueryShowsAll`, `CaseInsensitive` and `UpperQuerySameResult` state its properties |
| RestaurantListingScreen.Displayed | src/pages/RestaurantListingScreen.tsx:40-43 | a restaurant is shown exactly when its lower-cased name or one of its cuisines contains the lower-cased query; list order is kept |
| RestaurantListingScreen.EmptyQueryShowsAll | src/pages/RestaurantListingScreen.tsx:40-43 | the empty query shows every restaurant |
| RestaurantListingScreen.CaseInsensitive | src/pages/RestaurantListingScreen.tsx:40-43 | queries that differ only in letter case show the same list |
| RestaurantListingScreen.UpperQuerySameResult | src/pages/RestaurantListingScreen.tsx:40-43 | upper-casing the query does not change the list |
| RestaurantListingScreen.SearchIdempotent | src/pages/RestaurantListingScreen.tsx:40-43 | filtering the shown list again by the same query changes nothing |
| RestaurantListingScreen.PizzaSearch | src/pages/RestaurantListingScreen.tsx:15-43 | "PIZZA" shows all four placeholder restaurants |
| RestaurantListingScreen.NoMatchShowsNoneFound | src/pages/RestaurantListingScreen.tsx:117-135 | a query nothing matches shows the "No restaurants found" message, with the hint only for a non-empty query |
| RestaurantListingScreen.View | src/pages/RestaurantListingScreen.tsx:117-135 | the grid is shown exactly when some restaurant matches; otherwise the message is shown, with the hint exactly when the query is not empty |
| RestaurantListingScreen.ListingScreen.constructor | src/pages/RestaurantListingScreen.tsx:23-25 | empty search, default filters, dialog closed, so all four restaurants are shown |
| RestaurantListingScreen.ListingScreen.Search | src/pages/RestaurantListingScreen.tsx:47 | the header's search callback sets the query |
| RestaurantListingScreen.ListingScreen.SetDialogOpen | src/pages/RestaurantListingScreen.tsx:64 | the dialog's open state follows the trigger |
| RestaurantListingScreen.ListingScreen.SlideRating | src/pages/RestaurantListingScreen.tsx:64-86 | while the dialog is open, the slider stores the rating; when it is closed nothing changes; the list shown never changes |
| RestaurantListingScreen.ListingScreen.ApplyFilters | src/pages/RestaurantListingScreen.tsx:33-37 | applying closes the dialog, and the list shown does not change |
| RestaurantListingScreen.ListingScreen.CancelFilters | src/pages/RestaurantListingScreen.tsx:109 | cancel closes the dialog |

`UserProfileScreen.ProfileScreen.EditAddress` (src/pages/UserProfileScreen.tsx:62-64) has no `modifies` clause. Dafny therefore checks that it changes no state. It has no `ensures` clause, so it has no row above.

The orders field of `ProfileScreen` is a `const`, because the source never calls a setter for `orders` (src/pages/UserProfileScreen.tsx:37).

## Notes on the source

- `handlePlaceOrder` (src/pages/CartCheckoutScreen.tsx:81-93) empties the cart and resets the step to summary at once (lines 91-92). This happens before the two-second promise started at line 84 resolves. `PlaceOrder` models this immediate reset.
- The Cart tab's path is `/cart`. The checkout route in `src/App.tsx` is `/cart-checkout`. Because `isActive` is a plain prefix test, the Cart tab is lit on the checkout screen anyway, as `CartPrefixExamples` shows.
- The profile's edit card (src/pages/UserProfileScreen.tsx:98-120) renders `<CardFooter>` at line 115, but line 10 imports only `Card`, `CardContent`, `CardHeader` and `CardTitle`, and the file defines no `CardFooter`. As written, the first render after "Edit" (line 91) turns edit mode on throws a `ReferenceError`, and a type-checked build fails outright. The three inputs (lines 104, 108, 112) and the Save and Cancel buttons (lines 116-117) then never appear. `ToggleEdit`, `TypeName`, `TypeEmail`, `TypePhone`, `SaveProfile` and `CancelEdit` model the evident intent: the card renders with `CardFooter` imported.
- The delivery form's four inputs carry the HTML `required` attribute. The browser then refuses to submit while any of them is empty, so `Submit` emits nothing in that case.

## Left out

- Toast notifications, `console.log` and the order snapshot `handlePlaceOrder` logs: these are output only. The promo outcome is a return value.
- The two-second `setTimeout` behind `toast.promise`: there is no time in the model, and no state depends on it.
- `Date.now()`, the new address id: this is the `stamp` parameter. Freshness is a hypothesis of the lemmas that need it.
- `toFixed(2)` and floating point: money is integer cents, and the tax is its exact rational value. Rounding in the display is not modelled.
- `parseInt` on the quantity input: `QuantityInput` receives its result, as `None` for NaN.
- `toLowerCase`, `toUpperCase` and `substring`: these are modelled on ASCII letters and on characters. JavaScript maps the whole Unicode range, sometimes to longer strings, and counts UTF-16 code units.
- Ids: modelled as strings only. The source also allows numbers, and compares them with `===`.
- Routing, `src/App.tsx` and `Header`'s own search box state: the listing receives the query through `Search`.
- `HomeScreen`, `MenuScreen`, `Carousel`, `CategoryChip`, `DishCard`, `RestaurantCard`, `AddressCard` and `PaymentMethodSection`: these are presentation-only screens and components. They are not part of this model.
- `onSelectAddress` in `DeliveryDetailsSection`: the component never calls it, and the checkout selection changes only through `AddNewAddress`.
- `handleViewOrderDetails`, the profile's payment "Add New" and "Logout" buttons: these only show a notification.
- The filter dialog's cuisine checkboxes and sort radio group: they are uncontrolled inputs, and no state records them.
- The profile screen's avatar image: only the initials fallback is modelled.
- Image URLs: the placeholder restaurants and cart lines carry short file names instead of the long Unsplash URLs. No state depends on them.
- Numbers with a decimal point: a restaurant rating is stored in integer tenths (4.2 as 42), and the rating slider's value in integer halves.
- The Date cell's `new Date(order.orderDate).toLocaleDateString()` (src/components/profile/OrderHistoryTable.tsx:70): dates and locales are not modelled, and `Row.orderDate` keeps the raw string.
- The promo check, the restaurant search and the avatar initials depend on the ASCII case mapping. Under JavaScript's full Unicode mapping, more codes are accepted: `"ſave10".toUpperCase()` (with U+017F) is `"SAVE10"`.
