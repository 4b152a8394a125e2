# bare-brew storefront core, modelled in Dafny

This project models the logic of the bare-brew bubble-tea storefront that can
be stated apart from rendering and the network:

- the two cart stores, which keep ordered lines `(id, product, variant, quantity)`:
  - the zustand store `useCart`, module `UseCart`
  - the React-context `CartProvider`, module `CartContext`

  Both share line operations (module `CartLines`). Each merges or appends on
  `addItem`, filters on `removeItem`, removes or sets on `updateQuantity`, and
  derives count, subtotal, tax, shipping and total.
- the modal registry: two maps from ten modal names to an open flag and a
  payload (module `Modals`).
- the UI flag store (module `Ui`).
- the mock `POST /api/auth/register` route, which appends to an in-memory user
  table, and the mock `POST /api/auth/login` route (modules `RegisterRoute`,
  `LoginRoute`, `Users`).
- the form field schemas, written as predicates and issue lists (module
  `Validators`). This includes a five-digit/ZIP+4 automaton proved equal to
  the pattern `^\d{5}(-\d{4})?$`.
- `formatOrderNumber` and `formatQuantity` (module `Format`).
- the search modal's keyboard selection index, its minimum-query-length gate
  and its Enter/Escape effects (module `Search`).
- the product quick view's quantity stepper, its variant selection and its
  add-to-cart loop (module `QuickView`). Composed with `UseCart`, the loop is
  proved equal to a single `addItem` of the whole quantity, provided the cart's
  line ids are distinct and the first call's new id is fresh.

Modelling choices:

- Money is `real` with exact rates. Quantities are `int`.
- A variant is a record of three optional strings in the order size, ice
  level, sugar level. Equal `JSON.stringify` output is modelled as equality
  of that record.
- State the source updates in place is modelled as a `class`:
  - the cart stores
  - the modal and UI stores
  - the registration route's `mockUsers` array
  - the search modal's and the quick view's `useState` variables

  Each method's `ensures` gives the new state as a function of the old state.
  The pure functions and the lemmas about them carry the properties.
- The id a new cart line would get (`${product.id}-${Date.now()}`) is passed
  in as a parameter.
- A fetch outcome is passed in as an `Option`.
- Navigation and `onClose` calls are returned as an `Effect` value.
- An unparseable JSON request body is `None`.

## Model

| member | source | states |
|---|---|---|
| Text.ToUpper | lib/utils/format.ts:35 | `toUpperCase` keeps the length and upper-cases each ASCII letter in place |
| Text.ToLower | components/modals/product-quick-view.tsx:186 | `toLowerCase` keeps the length and lower-cases each ASCII letter in place |
| Text.ReplaceFirst | components/modals/product-quick-view.tsx:186 | `replace(' ', '-')` keeps the length, changes only occurrences of the pattern, and leaves a string without one unchanged |
| Text.ReplaceFirstAt | components/modals/product-quick-view.tsx:186 | when the first occurrence is at k, exactly position k is replaced |
| Text.DecimalStringRoundTrip | app/api/auth/register/route.ts:49 | reading back the decimal `toString` of a count gives the count |
| Text.DecimalStringInjective | app/api/auth/register/route.ts:49 | distinct counts get distinct decimal strings |
| CartLines.FirstWithKey | lib/hooks/use-cart.ts:39-43 | `find` on (product id, variant) returns the first matching line, and nothing exactly when no line matches |
| CartLines.FirstWithKeyUnique | lib/hooks/use-cart.ts:39-43 | with unique keys, the first match is the only match |
| CartLines.RemoveId | lib/hooks/use-cart.ts:73 | after `filter`, no line carries the removed id and there are no more lines than before |
| CartLines.RemoveIdConcat | lib/hooks/use-cart.ts:73 | `filter` distributes over concatenation, so kept lines stay in order |
| CartLines.RemoveIdAt | lib/hooks/use-cart.ts:67-75 | with distinct ids, removing line k's id removes exactly line k |
| CartLines.RemoveIdAbsent | lib/hooks/use-cart.ts:73 | removing an id no line has changes nothing |
| CartLines.RemoveIdFromInput | lib/hooks/use-cart.ts:73 | every surviving line is a line of the input |
| CartLines.RemoveIdKeeps | lib/hooks/use-cart.ts:73 | every input line with another id survives |
| CartLines.RemoveIdKeepsInvariants | lib/hooks/use-cart.ts:67-75 | `removeItem` preserves unique keys, distinct ids and positive quantities |
| CartLines.SetQuantity | lib/hooks/use-cart.ts:83-87 | the lines with the id get the new quantity; every other line is unchanged |
| CartLines.UpdatedLines | lib/hooks/use-cart.ts:77-88 | a positive quantity keeps the number of lines; any other quantity leaves no line with the id and never adds one (UpdatedLinesPositive, UpdatedLinesNonPositive and UpdatedLinesKeepsInvariants give the rest) |
| CartLines.UpdatedLinesKeepsInvariants | lib/hooks/use-cart.ts:77-88 | `updateQuantity` preserves unique keys and distinct ids, and keeps quantities positive |
| CartLines.UpdatedLinesPositive | lib/hooks/use-cart.ts:83-87 | a positive quantity replaces the quantity of the matching lines only |
| CartLines.UpdatedLinesNonPositive | lib/hooks/use-cart.ts:78-81 | a quantity of at most 0 is exactly `removeItem` |
| CartLines.SumIntConcat | lib/hooks/use-cart.ts:95-97 | the `reduce` sum of a concatenation is the sum of the parts |
| CartLines.SumRealConcat | lib/hooks/use-cart.ts:99-107 | the money `reduce` sum of a concatenation is the sum of the parts |
| CartLines.SumSplitInt | lib/hooks/use-cart.ts:95-97 | the sum over a + [x] + b is the sum over a, plus x's term, plus the sum over b |
| CartLines.SumSplitReal | lib/hooks/use-cart.ts:99-107 | the money sum over a + [x] + b splits the same way |
| CartLines.SumIntUpdate | lib/hooks/use-cart.ts:95-97 | replacing one line changes the sum by the difference of its terms |
| CartLines.SumRealUpdate | lib/hooks/use-cart.ts:99-107 | replacing one line changes the money sum by the difference of its terms |
| CartLines.SumIntRemove | lib/hooks/use-cart.ts:95-97 | dropping line k takes its term out of the sum |
| CartLines.SumRealRemove | lib/hooks/use-cart.ts:99-107 | dropping line k takes its term out of the money sum |
| CartLines.ItemCountBounds | lib/hooks/use-cart.ts:95-97 | with positive quantities, the count is at least the number of lines, and 0 only for an empty cart |
| CartLines.ItemCount | lib/hooks/use-cart.ts:95-97 | no contract of its own: the `reduce` sum of the quantities; ItemCountBounds, ItemCountRemove and AddLineItemCount carry its properties |
| CartLines.ItemCountRemove | lib/hooks/use-cart.ts:67-75 | with distinct line ids, removing a line lowers `getItemCount` by that line's quantity |
| UseCart.AddToId | lib/hooks/use-cart.ts:46-50 | the merge `map` adds the quantity to every line carrying the found line's id, and to no other line |
| UseCart.AddLine | lib/hooks/use-cart.ts:37-64 | no contract of its own: the `addItem` updater, a merge into the first key match or an append; AddLineShape, AddLineAppends, AddLineAtMatch and AddLineItemCount carry its properties |
| UseCart.AddLineShape | lib/hooks/use-cart.ts:37-64 | `addItem` adds a line exactly when no line has the key, keeps every existing line's id, product and variant, and leaves the key in the cart |
| UseCart.AddLineAppends | lib/hooks/use-cart.ts:55-63 | on a new key, `addItem` appends exactly one line with the given id, product, variant and quantity |
| UseCart.AddLineAtMatch | lib/hooks/use-cart.ts:39-52 | with distinct ids, on a present key only that line's quantity rises by `quantity`; the number and order of lines are unchanged |
| UseCart.AddToIdSingle | lib/hooks/use-cart.ts:46-50 | with distinct ids, the merge `map` changes exactly one line |
| UseCart.AddToIdTwice | lib/hooks/use-cart.ts:46-50 | two merges into the same id equal one merge of the summed quantity |
| UseCart.AddLineKeepsKeysUnique | lib/hooks/use-cart.ts:38-63 | `addItem` never creates a second line for a (product id, variant) key |
| UseCart.AddLineKeepsIdsDistinct | lib/hooks/use-cart.ts:55-63 | a fresh line id keeps line ids distinct |
| UseCart.AddLineKeepsQuantitiesPositive | lib/hooks/use-cart.ts:36-65 | a positive quantity keeps every line quantity positive |
| UseCart.UnitPrice | lib/hooks/use-cart.ts:100-105 | a 'large' line costs the product price plus $1; any other line costs the product price |
| UseCart.Subtotal | lib/hooks/use-cart.ts:99-107 | no contract of its own: the `reduce` sum of unit price x quantity; SubtotalAfterBump, AddLineSubtotalMerge, AddLineSubtotalNew, RemoveLineSubtotal and SubtotalNonNegative carry its properties |
| UseCart.Tax | lib/hooks/use-cart.ts:109-112 | tax is 8% of the subtotal, so it lies between 0 and a nonnegative subtotal |
| UseCart.Shipping | lib/hooks/use-cart.ts:114-117 | shipping is 0 exactly when the subtotal is above 30, and 5 otherwise |
| UseCart.Total | lib/hooks/use-cart.ts:119-121 | total = 1.08 x subtotal + shipping, and is never below a nonnegative subtotal |
| UseCart.AddLineItemCount | lib/hooks/use-cart.ts:36-65 | with distinct line ids, `addItem` raises `getItemCount` by exactly the quantity |
| UseCart.AddLineSubtotalMerge | lib/hooks/use-cart.ts:45-52 | with distinct line ids, a merge raises the subtotal by the merged line's unit price x the quantity |
| UseCart.SubtotalAfterBump | lib/hooks/use-cart.ts:99-107 | raising one line's quantity by d raises the subtotal by its unit price x d |
| UseCart.AddLineSubtotalNew | lib/hooks/use-cart.ts:55-63 | an append raises the subtotal by the new line's unit price x the quantity |
| UseCart.LineTotalGrows | lib/hooks/use-cart.ts:99-107 | adding units to a line adds that many unit prices to its total |
| UseCart.RemoveLineSubtotal | lib/hooks/use-cart.ts:67-75 | with distinct line ids, removing a line lowers the subtotal by that line's total |
| UseCart.SubtotalNonNegative | lib/hooks/use-cart.ts:99-107 | nonnegative prices and positive quantities give a nonnegative subtotal |
| UseCart.CartStore.constructor | lib/hooks/use-cart.ts:33-34 | the store starts with no lines and closed |
| UseCart.CartStore.AddItem | lib/hooks/use-cart.ts:36-65 | `addItem` with the defaults `{}` and 1 updates the lines as `AddLine` does, keeps keys unique and leaves `isOpen` alone |
| UseCart.CartStore.RemoveItem | lib/hooks/use-cart.ts:67-75 | the lines become the filtered lines; `isOpen` is untouched |
| UseCart.CartStore.UpdateQuantity | lib/hooks/use-cart.ts:77-88 | at most 0 delegates to `removeItem`, otherwise the quantity is set; `isOpen` is untouched |
| UseCart.CartStore.ClearCart | lib/hooks/use-cart.ts:90-93 | the lines become empty and `isOpen` is kept |
| UseCart.CartStore.ToggleCart | lib/hooks/use-cart.ts:123 | `isOpen` is negated and the lines are kept |
| UseCart.CartStore.OpenCart | lib/hooks/use-cart.ts:124 | `isOpen` becomes true and the lines are kept |
| UseCart.CartStore.CloseCart | lib/hooks/use-cart.ts:125 | `isOpen` becomes false and the lines are kept |
| UseCart.ToggleTwice | lib/hooks/use-cart.ts:123 | two toggles restore the whole store |
| CartContext.MatchIndex | components/providers/cart-provider.tsx:70-74 | an omitted variant matches nothing; otherwise the result is the first line with the product id and variant, and None exactly when no line has them |
| CartContext.AddLine | components/providers/cart-provider.tsx:68-94 | a match keeps the number of lines; otherwise one line carrying the given variant, or `{}`, is appended (AddLineWithVariant and AddLineWithoutVariant give the rest) |
| CartContext.AddLineWithVariant | components/providers/cart-provider.tsx:68-94 | with a variant given, `addItem` raises the first matching line only (count and order unchanged) or appends one line |
| CartContext.AddLineWithoutVariant | components/providers/cart-provider.tsx:85-93 | with the variant omitted, `addItem` always appends a line whose variant is `{}` |
| CartContext.VariantlessAddsDuplicate | components/providers/cart-provider.tsx:70-93 | two variant-less adds of one product give two lines with the same key |
| CartContext.StoresDisagreeOnOmittedVariant | components/providers/cart-provider.tsx:70-74 | the provider makes two lines from the calls the zustand store merges into one |
| CartContext.AddLineKeepsKeysUnique | components/providers/cart-provider.tsx:68-94 | with a variant given, keys stay unique |
| CartContext.AddLineItemCount | components/providers/cart-provider.tsx:137-139 | `addItem` raises `getItemCount` by exactly the quantity |
| CartContext.Subtotal | components/providers/cart-provider.tsx:141-146 | no contract of its own: the `reduce` sum of price x quantity; NoSizeSurcharge and AddLineSubtotal carry its properties |
| CartContext.NoSizeSurcharge | components/providers/cart-provider.tsx:141-146 | a line's total does not depend on its size, while the zustand store charges $1 more per large unit |
| CartContext.AddLineSubtotal | components/providers/cart-provider.tsx:141-146 | `addItem` raises the subtotal by the product price x the quantity |
| CartContext.Tax | components/providers/cart-provider.tsx:148-150 | tax is 8.75% of the subtotal, so it lies between 0 and a nonnegative subtotal |
| CartContext.Shipping | components/providers/cart-provider.tsx:152-155 | shipping is 0 exactly when the subtotal is at least 50, and 5.99 otherwise |
| CartContext.Total | components/providers/cart-provider.tsx:157-159 | total = 1.0875 x subtotal + shipping, and is never below a nonnegative subtotal |
| CartContext.ShippingThresholdsDiffer | components/providers/cart-provider.tsx:30-32 | a subtotal strictly between 30 and 50 ships free from the zustand store and costs 5.99 here |
| CartContext.CartProvider.constructor | components/providers/cart-provider.tsx:35-36 | no lines, closed |
| CartContext.CartProvider.AddItem | components/providers/cart-provider.tsx:63-99 | the lines update as `AddLine` does and `isOpen` is true afterwards |
| CartContext.CartProvider.RemoveItem | components/providers/cart-provider.tsx:101-109 | filters out the id; `isOpen` is untouched |
| CartContext.CartProvider.UpdateQuantity | components/providers/cart-provider.tsx:111-122 | at most 0 delegates to `removeItem`, otherwise the quantity is set |
| CartContext.CartProvider.ClearCart | components/providers/cart-provider.tsx:124-127 | the lines become empty |
| CartContext.CartProvider.ToggleCart | components/providers/cart-provider.tsx:129-131 | `isOpen` is negated |
| CartContext.CartProvider.SetIsOpen | components/providers/cart-provider.tsx:133-135 | `isOpen` takes the given value |
| Modals.AuthPayload | lib/store/modal-store.ts:124-126 | the auth payload's tab defaults to 'login' and carries the redirect URL |
| Modals.ConfirmPayload | lib/store/modal-store.ts:144-158 | the confirm payload carries title, message and action; the button text defaults to 'Confirm' and the variant to 'default' |
| Modals.ModalStore.constructor | lib/store/modal-store.ts:81-83 | both maps start empty, so every modal is closed and has no data |
| Modals.ModalStore.OpenModal | lib/store/modal-store.ts:85-97 | `t` becomes open; a payload replaces `t`'s data and an omitted one keeps it; every other modal keeps its flag and data |
| Modals.ModalStore.CloseModal | lib/store/modal-store.ts:99-109 | `t` becomes closed with no data; every other modal is unchanged |
| Modals.ModalStore.CloseAllModals | lib/store/modal-store.ts:111-113 | every modal is closed with no data |
| Modals.ModalStore.OpenAuth | lib/store/modal-store.ts:124-126 | opens 'auth' with the defaulted auth payload |
| Modals.ModalStore.OpenQuickView | lib/store/modal-store.ts:128-130 | opens 'quickView' with the product |
| Modals.ModalStore.OpenSearch | lib/store/modal-store.ts:132-134 | opens 'search' and leaves all data as it was |
| Modals.ModalStore.OpenCart | lib/store/modal-store.ts:136-138 | opens 'cart' and leaves all data as it was |
| Modals.ModalStore.OpenCheckout | lib/store/modal-store.ts:140-142 | opens 'checkout' and leaves all data as it was |
| Modals.ModalStore.OpenConfirm | lib/store/modal-store.ts:144-158 | opens 'confirmDelete' with the defaulted confirm payload |
| Modals.ModalStore.OpenOrderSuccess | lib/store/modal-store.ts:160-162 | opens 'orderSuccess' with the order id and number |
| Modals.ModalStore.OpenAddressForm | lib/store/modal-store.ts:164-166 | opens 'addressForm' with a payload even when both arguments are omitted |
| Modals.ModalStore.OpenReviewForm | lib/store/modal-store.ts:168-170 | opens 'reviewForm' with the product id and name |
| Modals.ModalStore.OpenShare | lib/store/modal-store.ts:172-178 | opens 'shareProduct' with url, title and optional description |
| Modals.ModalStore.IsOpen | lib/store/modal-store.ts:115-117 | no contract of its own: `modals.get(type) || false`; the store's methods state their effect through it, and OpenOneFromFresh uses it |
| Modals.ModalStore.GetData | lib/store/modal-store.ts:119-121 | no contract of its own: `data.get(type)`, with `undefined` as None; used the same way |
| Modals.OpenOneFromFresh | lib/store/modal-store.ts:115-121 | in a fresh store, every modal never opened reports closed with no data |
| Ui.UIStore.constructor | lib/store/ui-store.ts:31-36 | every flag is false and `quickViewProduct` is null |
| Ui.UIStore.OpenAuthModal | lib/store/ui-store.ts:38 | ignores the tab, sets `authModalOpen`, and changes no other field |
| Ui.UIStore.CloseAuthModal | lib/store/ui-store.ts:39 | clears `authModalOpen` only |
| Ui.UIStore.OpenSearchModal | lib/store/ui-store.ts:40 | sets `searchModalOpen` only |
| Ui.UIStore.CloseSearchModal | lib/store/ui-store.ts:41 | clears `searchModalOpen` only |
| Ui.UIStore.OpenQuickView | lib/store/ui-store.ts:42 | sets `quickViewProduct` only |
| Ui.UIStore.CloseQuickView | lib/store/ui-store.ts:43 | nulls `quickViewProduct` only |
| Ui.UIStore.ToggleMobileMenu | lib/store/ui-store.ts:44-45 | negates `mobileMenuOpen` only |
| Ui.UIStore.ToggleCart | lib/store/ui-store.ts:46 | negates `cartOpen` only |
| Ui.UIStore.SetScrolled | lib/store/ui-store.ts:47 | sets `isScrolled` only |
| Ui.ToggleMobileMenuTwice | lib/store/ui-store.ts:44-45 | toggling the mobile menu twice restores every field |
| Ui.ToggleCartTwice | lib/store/ui-store.ts:46 | toggling the cart twice restores every field |
| Ui.QuickViewRoundTrip | lib/store/ui-store.ts:42-43 | open then close leaves `quickViewProduct` null and every other field as it was |
| RegisterRoute.Decide | app/api/auth/register/route.ts:17-83 | no contract of its own: the response of `POST`, with 500 for an unparsable body; DecideOrder, DuplicateBeatsShortPassword, RegisteredUser and MockUserTable.Post carry its properties |
| RegisterRoute.DecideOrder | app/api/auth/register/route.ts:23-45 | a missing field gives 400, then a taken email gives 409, then a short password gives 400; registration happens exactly when all three pass |
| RegisterRoute.DuplicateBeatsShortPassword | app/api/auth/register/route.ts:31-45 | a taken email with a short password is answered 409, not 400 |
| RegisterRoute.RegisteredUser | app/api/auth/register/route.ts:48-54 | the new user has id = length + 1 in decimal, the request's name and email, and no avatar; the record has no password and its email was free |
| RegisterRoute.SequentialIdsAreDistinct | app/api/auth/register/route.ts:49 | ids equal to 1-based positions are pairwise distinct |
| RegisterRoute.MockUserTable.constructor | app/api/auth/register/route.ts:6-15 | the table starts with the seed user, whose id is '1' |
| RegisterRoute.MockUserTable.Post | app/api/auth/register/route.ts:17-83 | the response is the ordered decision; a failure leaves the table unchanged, success appends exactly the returned user; ids stay positions and emails stay distinct |
| RegisterRoute.RegisterTwice | app/api/auth/register/route.ts:48-57 | two successful registrations get different ids and emails |
| LoginRoute.ValidatePassword | app/api/auth/login/route.ts:18-24 | returns `mockUsers[0]` exactly when the email is 'john@example.com' and the password has at least 6 characters |
| LoginRoute.Post | app/api/auth/login/route.ts:26-72 | an unparseable body gives 500, a missing field gives 400 before any credential check, rejected credentials give 401, and success returns exactly `mockUsers[0]` |
| LoginRoute.RegisteredUsersCannotLogIn | app/api/auth/login/route.ts:6-15 | the login table is separate: a user registered with any other email than the demo one cannot log in |
| Validators.PasswordIssues | lib/utils/validators.ts:9-12 | no issue exactly when 6 <= length <= 100, with the schema's message for each bound |
| Validators.NameIssues | lib/utils/validators.ts:14-17 | no issue exactly when 2 <= length <= 50, with the schema's message for each bound |
| Validators.PhoneIssues | lib/utils/validators.ts:19-23 | no issue exactly when the string is non-empty, all digits, JavaScript whitespace or `-+()`, and 10 <= length <= 20; the regex issue comes first |
| Validators.PhoneRejectsLetters | lib/utils/validators.ts:21 | a letter anywhere makes the phone invalid |
| Validators.ZipRunConcat | lib/utils/validators.ts:29 | running the ZIP automaton over a concatenation runs it over each part in turn |
| Validators.ZipRunDigits | lib/utils/validators.ts:29 | within a digit block, the automaton counts digits and rejects anything else |
| Validators.ZipMatchesIsZip | lib/utils/validators.ts:29 | the automaton accepts exactly five digits, or five digits, '-' and four digits |
| Validators.ZipIssues | lib/utils/validators.ts:29 | no issue exactly for the two ZIP shapes |
| Validators.ParseAddress | lib/utils/validators.ts:25-31 | accepted exactly when street, city and state are non-empty and the ZIP is valid; the country defaults to 'US' and the other fields are copied |
| Validators.ParseAddressIdempotent | lib/utils/validators.ts:30 | a parsed address parses again to itself |
| Validators.ParsePaymentMethod | lib/utils/validators.ts:40 | accepted exactly for 'card', 'paypal' and 'apple_pay' |
| Validators.PaymentMethodRoundTrip | lib/utils/validators.ts:40 | every enum member's name parses back to that member |
| Validators.ParsedPaymentMethodName | lib/utils/validators.ts:40 | every accepted string is the name of the member it parses to |
| Validators.ParseBilling | lib/utils/validators.ts:38 | an omitted billing address is accepted; a given one must parse |
| Validators.ParseCheckout | lib/utils/validators.ts:33-41 | accepted exactly when every field schema accepts; email, name and phone are copied, the addresses are their parsed forms, `sameAsShipping` defaults to true and the payment name is kept |
| Validators.ReviewValid | lib/utils/validators.ts:43-47 | no contract of its own: `productReviewSchema`'s bounds; HalfStarRatingsAccepted carries its property |
| Validators.HalfStarRatingsAccepted | lib/utils/validators.ts:43-47 | with a valid title and comment, a rating is accepted exactly when 1 <= rating <= 5, fractional ratings included |
| Format.LastEight | lib/utils/format.ts:35 | `slice(-8)` keeps min(length, 8) characters, and they are a suffix |
| Format.FormatOrderNumber | lib/utils/format.ts:34-36 | the badge starts with '#', has at most 9 characters, and no lower-case ASCII letter follows the '#' |
| Format.FormatOrderNumberCases | lib/utils/format.ts:35 | ids of up to 8 characters appear whole and upper-cased (the empty id gives "#"); longer ids keep their last 8 characters |
| Format.ToUpperIdempotent | lib/utils/format.ts:35 | upper-casing twice is upper-casing once |
| Format.FormatOrderNumberStable | lib/utils/format.ts:34-36 | formatting a badge's own text again gives the same badge |
| Format.FormatQuantity | lib/utils/format.ts:38-41 | 1 gives "1 item"; the label ends in 's' exactly when the quantity is not 1 |
| Format.IntToStringInjective | lib/utils/format.ts:40 | different integers render differently |
| Format.FormatQuantityInjective | lib/utils/format.ts:38-41 | different quantities get different labels |
| Format.FormatQuantityPlural | lib/utils/format.ts:40 | any other quantity renders as its decimal digits then " items": 0 as "0 items", a negative one with a leading '-' |
| Search.Down | components/modals/search-modal.tsx:67-71 | ArrowDown moves one step only while a later result exists |
| Search.Up | components/modals/search-modal.tsx:73-75 | ArrowUp moves one step back, and from 0 or below to -1 |
| Search.UpUndoesDown | components/modals/search-modal.tsx:67-75 | ArrowUp undoes every move ArrowDown makes |
| Search.DownUndoesUp | components/modals/search-modal.tsx:67-75 | ArrowDown undoes ArrowUp from any selected result |
| Search.NextIndex | components/modals/search-modal.tsx:65-88 | no contract of its own: ArrowDown is Down, ArrowUp is Up, other keys keep the index; NextIndexInRange and HandleKeyDown carry its properties |
| Search.RunKeys | components/modals/search-modal.tsx:65-88 | no contract of its own: the index after a run of key presses; RunKeysInRange, DownsReachLast and PressKeys carry its properties |
| Search.NextIndexInRange | components/modals/search-modal.tsx:65-88 | no key takes an index out of -1 .. len-1 |
| Search.RunKeysInRange | components/modals/search-modal.tsx:67-75 | any key sequence from an index in -1 .. len-1 (the initial -1 included) stays in that range |
| Search.DownsReachLast | components/modals/search-modal.tsx:67-71 | enough ArrowDown presses select the last result and stay there |
| Search.EnterEffect | components/modals/search-modal.tsx:77-84 | Enter opens the selected result when the index points at one, otherwise searches for a non-empty query, otherwise does nothing |
| Search.KeyEffect | components/modals/search-modal.tsx:62-89 | nothing happens while closed; Escape closes; Enter has the effect `EnterEffect` gives; every other key does nothing |
| Search.SearchEffect | components/modals/search-modal.tsx:95-100 | `handleSearch` does nothing exactly when the query is empty |
| Search.SearchResults | components/modals/search-modal.tsx:39-56 | queries shorter than 2 clear the results without a search; otherwise the fetched products, or none on failure |
| Search.StaleIndexFallsBackToSearch | components/modals/search-modal.tsx:77-84 | results are replaced without resetting the index, so an index past the new list makes Enter search instead of open |
| Search.SearchModal.constructor | components/modals/search-modal.tsx:24-27 | empty query, no results, index -1 |
| Search.SearchModal.SetQuery | components/modals/search-modal.tsx:126 | sets the query and nothing else |
| Search.SearchModal.PerformSearch | components/modals/search-modal.tsx:39-56 | the results become `SearchResults`; a real search ends with `isSearching` false |
| Search.SearchModal.HandleKeyDown | components/modals/search-modal.tsx:62-89 | the index moves by `NextIndex` only while open, and the effect is `KeyEffect` |
| Search.SearchModal.HandleSearch | components/modals/search-modal.tsx:95-100 | the effect is `SearchEffect` of the query |
| Search.SearchModal.HandleProductClick | components/modals/search-modal.tsx:102-105 | opens the clicked product |
| Search.PressKeys | components/modals/search-modal.tsx:62-89 | with the results fixed, a run of key presses keeps the index in range and equal to `RunKeys` |
| QuickView.Decremented | components/modals/product-quick-view.tsx:54 | `Math.max(1, q - 1)` is never below 1 and is q - 1 above 1 |
| QuickView.DecrementUndoesIncrement | components/modals/product-quick-view.tsx:53-54 | decrement undoes increment |
| QuickView.IceSlug | components/modals/product-quick-view.tsx:186 | the slug keeps the label's length; each character is the lower-cased one or '-' |
| QuickView.IceSlugOfTwoWords | components/modals/product-quick-view.tsx:186 | the first space becomes '-' |
| QuickView.IceSlugOfOneWord | components/modals/product-quick-view.tsx:186 | a label without a space is only lower-cased |
| QuickView.IceSlugsMatchConstants | components/modals/product-quick-view.tsx:180-196 | the four buttons store 'no-ice', 'less-ice', 'regular', 'extra-ice', the values of `ICE_LEVELS` |
| QuickView.NoIceSlug | components/modals/product-quick-view.tsx:180-196 | 'No Ice' stores 'no-ice' |
| QuickView.LessIceSlug | components/modals/product-quick-view.tsx:180-196 | 'Less Ice' stores 'less-ice' |
| QuickView.RegularSlug | components/modals/product-quick-view.tsx:180-196 | 'Regular' stores 'regular' |
| QuickView.ExtraIceSlug | components/modals/product-quick-view.tsx:180-196 | 'Extra Ice' stores 'extra-ice' |
| QuickView.DefaultSugarUsesLabelSpelling | components/modals/product-quick-view.tsx:29-33 | the default sugar '100%' is a button value but not a `SUGAR_LEVELS` value |
| QuickView.FirstWithKeyIgnoresQuantities | lib/hooks/use-cart.ts:39-43 | the first key match does not depend on quantities |
| QuickView.RepeatAdd | components/modals/product-quick-view.tsx:45-48 | no contract of its own: `addItem` called once per line id; AddOneMore, RepeatAddContinues, RepeatAddIsOneAdd and HandleAddToCart carry its properties |
| QuickView.AddOneMore | components/modals/product-quick-view.tsx:45-48 | with distinct line ids and a fresh first id, a second `addItem` of one more unit lands on the line the first call made or raised |
| QuickView.RepeatAddContinues | components/modals/product-quick-view.tsx:45-48 | with distinct line ids and a fresh first id, each further call of the loop adds one unit to that same line |
| QuickView.RepeatAddIsOneAdd | components/modals/product-quick-view.tsx:45-48 | with distinct line ids and a fresh first id, n >= 1 calls equal one `addItem` of quantity n: at most one line is added and the count rises by n |
| QuickView.ProductQuickView.constructor | components/modals/product-quick-view.tsx:28-33 | quantity 1 and the default variant |
| QuickView.ProductQuickView.Increment | components/modals/product-quick-view.tsx:53 | adds exactly 1 |
| QuickView.ProductQuickView.Decrement | components/modals/product-quick-view.tsx:54 | `Math.max(1, q - 1)`; the quantity stays at least 1 |
| QuickView.ProductQuickView.SelectSize | components/modals/product-quick-view.tsx:143-145 | sets the size and keeps the other two fields |
| QuickView.ProductQuickView.SelectIceLevel | components/modals/product-quick-view.tsx:191-196 | stores the label's slug and keeps the other two fields |
| QuickView.ProductQuickView.SelectSugarLevel | components/modals/product-quick-view.tsx:226-231 | stores the label and keeps the other two fields |
| QuickView.ProductQuickView.HandleAddToCart | components/modals/product-quick-view.tsx:45-48 | the loop leaves the cart lines equal to `quantity` successive `addItem` calls with the selected variant |
| QuickView.AddFromQuickView | components/modals/product-quick-view.tsx:45-48 | with distinct line ids in the cart and a fresh first id, the add button is one `addItem` of the whole quantity, raising the count by that quantity |

## Left out

- Rendering, styling, animation, toasts and focus handling have no statable
  behaviour beyond layout.
- The cart promises about merging and removing (`AddLineItemCount`,
  `AddLineSubtotalMerge`, `ItemCountRemove`, `RemoveLineSubtotal`,
  `AddOneMore`, `RepeatAddContinues`, `RepeatAddIsOneAdd`,
  `AddFromQuickView`) assume distinct line ids. The last four also assume
  that the first call's new id is fresh. The
  merge `map` at lib/hooks/use-cart.ts:46-50 raises every line that shares the
  found line's id, so two lines with one id would both grow. The ids come from
  `Date.now()` and are distinct unless two lines are added in the same
  millisecond.
- Timers are left out. This covers the cart provider's 2-second auto-close,
  the search focus delay and the 300 ms debounce. The debounced query is a
  parameter of `PerformSearch`.
- Persistence is left out: the zustand `persist` wiring and the provider's
  localStorage load/save effects.
- Network, router and cookie work is left out:
  - `fetch` and `router.push` become parameters or `Effect` values.
  - Session cookies and their `Date.now()`/`Math.random()` tokens are not modelled.
  - `encodeURIComponent` of the search URL is not modelled.
- The route files' `createdAt`/`updatedAt` timestamps come from the clock and
  are not modelled.
- Request bodies whose fields are not strings are not modelled. The model
  covers strings and absent fields; an unparseable body is the 500 path.
- IEEE floating point is not modelled. Prices and rates are exact reals.
- `formatPrice` and `formatDate` depend on `Intl` and are not modelled.
- JavaScript lengths count UTF-16 code units. The model counts characters,
  which is the same for text in the Basic Multilingual Plane.
- `toUpperCase`/`toLowerCase` are modelled for ASCII letters only.
- Format.FormatQuantity: covers whole quantities; the exponent notation
  JavaScript uses from 1e21 on and fractional quantities are not modelled.
- General `JSON.stringify` semantics are not modelled. Two variants with the
  same fields in a different key order serialise differently in JavaScript
  but are equal here.
- The cart provider mutates the matched line object in place
  (`updatedItems[i].quantity += quantity`). Other holders of that object
  would see the change, and under React's double-invoked updaters the
  increment could apply twice. The model treats the update as a value
  change applied once.
- Asynchronous interleaving of searches is not modelled. Each
  `PerformSearch` call is one completed `performSearch` run, and a late
  response overwriting a newer one is not represented.
- Callbacks stored in modal payloads (`confirmAction`, `onAddressSave`) are
  known only by an identity number.
- zod's `.email()` check is library code and comes in as the `isEmail`
  parameter.
- zod's exact default messages for the review schema are not modelled. The
  review is a validity predicate.
- The quick view's image gallery index, and its `onClose` call after adding,
  are not modelled. The source calls `addItem` once per unit, each call with
  its own clock id, so the ids are a sequence parameter.
