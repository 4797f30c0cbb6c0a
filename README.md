# handy-web kiosk ordering — a Dafny model

handy-web is a kiosk front end for ordering food. A customer browses a catalog by category and sub-category. They add products, or a chosen variant of a product, to a cart. They review the cart and its bill with 5% tax, and log in with a mobile number and a four-digit one-time code.

This project models the logic behind those screens:

- **`cart_slice.dfy`, module `CartSlice`** — the cart store (`src/store/cartSlice.ts`).
  - A line's key is `${productId}_${variantId || "base"}`.
  - `addItem` merges quantities into the keyed line.
  - `updateQty` shifts the exact line and deletes it at zero or below.
  - `removeItem` deletes the exact line, and `clearCart` empties the store.
  - The transitions are pure functions on `CartState`. `CartStore` is the slice itself: a class whose methods update its `items` map in place.
  - The store also records the insertion order of its keys. That order is what `Object.entries`/`Object.values` return for keys like `"3_base"`, which are not array indices.
- **`decimal.dfy`, module `Decimal`** — how `${productId}` renders an integer id, with a parser that inverts it. Together they show that distinct (product, variant) pairs get distinct key strings.
- **`catalog.dfy`, module `Catalog`** — the products, variants and category buttons the pages read (`src/components/types.ts`, `src/data/productsList.ts`). Prices are whole rupees.
- **`dashboard.dfy`, module `Dashboard`** — the catalog page (`src/components/pages/Dashboard.tsx`):
  - the de-duplicated category and sub-category lists (first product wins);
  - the category/sub-category filter;
  - the page count, the 12-product page slice, and the "showing" indices;
  - the five-button page window;
  - the "added" badge and the cart total;
  - the variant popup and its confirmation into the cart.
- **`cart_page.dfy`, module `CartPage`** — the cart page (`src/components/pages/Cart.tsx`):
  - the join of cart lines with the catalog (unit price = product price + variant price, line total = unit × qty, unknown products dropped);
  - total quantity, subtotal, tax and grand total;
  - the row and footer buttons.
- **`pagination.dfy`, module `Pagination`** — the page control (`src/components/Pagination.tsx`): when it shows, previous/next clamping, the disabled rules, and the jump to the last page.
- **`otp_login.dfy`, module `OtpLogin`** — the login screen (`src/components/pages/OtpLogin.tsx`).
  - The class `LoginScreen` holds the step, the mobile number and a four-slot array for the code.
  - The handlers update it in place: digit-only mobile entry capped at ten, a one-digit write per code slot, and the step changes.
  - The code is checked against the fixed value `1290`.
- **`wrappers.dfy`, module `Wrappers`** — `Option`.

Three facts about `src/store/cartSlice.ts` shape the store model:

- A line is keyed by the product id and `variantId || "base"` only.
- `updateQty` acts on the line with exactly that key, or does nothing when there is none.
- `addItem` does not check the sign of `qty`. The store therefore keeps the "every quantity is positive" invariant only when every add uses a positive quantity. Every caller in the pages does.

## Model

| member | source | states |
|---|---|---|
| CartSlice.SplitKeyString | src/store/cartSlice.ts:23 | the key string splits back, at its first `_`, into the product id and the variant component |
| CartSlice.KeyStringInjective | src/store/cartSlice.ts:23 | two key strings are equal iff the keys are equal |
| CartSlice.SameLineIff | src/store/cartSlice.ts:23 | two payloads address the same line (the same key here and in updateQty and removeItem) iff their product ids are equal and their variant components agree |
| CartSlice.KeyOf | src/store/cartSlice.ts:23 | the key keeps the product id; its variant component is `base` iff the variant id is absent, empty or literally `base`, and is the variant id otherwise |
| CartSlice.KeyString | src/store/cartSlice.ts:23 | the key string ends with `_` followed by the variant component |
| CartSlice.CartState.AddItem | src/store/cartSlice.ts:22-28 | the keyed line holds the payload with old qty (or 0) plus the added qty; every other line is unchanged; a new key goes to the end of the insertion order |
| CartSlice.CartState.UpdateQty | src/store/cartSlice.ts:29-43 | a missing line leaves the cart unchanged; otherwise the line's qty moves by delta and the line disappears when it reaches 0 or below; every other line is unchanged; the insertion order is kept while the line survives and loses just that key when it is deleted |
| CartSlice.CartState.RemoveItem | src/store/cartSlice.ts:44-50 | the keyed line is gone and every other line is unchanged; the insertion order loses just that key; removing a missing line changes nothing |
| CartSlice.WithoutAt | src/store/cartSlice.ts:42-49 | deleting the key at position i of the insertion order closes the gap and leaves every other key in its relative place, so the rows the pages list keep their order |
| CartSlice.CartState.ClearCart | src/store/cartSlice.ts:52-54 | no line is left, and the empty cart is well formed |
| CartSlice.AddItemKeepsInvariants | src/store/cartSlice.ts:22-28 | addItem keeps one line per key, each under its own key, in a duplicate-free order; with a positive qty it keeps all quantities positive |
| CartSlice.UpdateQtyKeepsInvariants | src/store/cartSlice.ts:29-43 | updateQty keeps the cart well formed and never leaves a line at 0 or below |
| CartSlice.RemoveItemKeepsInvariants | src/store/cartSlice.ts:44-50 | removeItem keeps the cart well formed and positive |
| CartSlice.ReduceAllKeepsInvariants | src/store/cartSlice.ts:18-56 | from a well-formed positive cart, a sequence of the four actions whose adds are all positive keeps the cart well formed and positive |
| CartSlice.InitialStateIsClean | src/store/cartSlice.ts:14-16 | from the empty initial state, every reachable cart is well formed and positive |
| CartSlice.DistinctLinesDistinctIdentity | src/store/cartSlice.ts:23-24 | two different lines differ in product id or in variant component |
| CartSlice.AddTwiceMerges | src/store/cartSlice.ts:22-28 | adding q1 and then q2 of the same selection equals adding q1 + q2 once |
| CartSlice.RemoveTwiceIsRemoveOnce | src/store/cartSlice.ts:44-50 | removeItem is idempotent |
| CartSlice.UpdateThenInverseRestores | src/store/cartSlice.ts:29-43 | shifting by delta and then by -delta restores the cart while the line stays positive |
| CartSlice.UpdateAcrossZeroRemoves | src/store/cartSlice.ts:41-42 | a shift to 0 or below equals removeItem, and shifting back finds no line |
| CartSlice.ClearLeavesNoEntries | src/store/cartSlice.ts:52-54 | after clearCart, `Object.entries` and `Object.values` are empty |
| CartSlice.CartStore.constructor | src/store/cartSlice.ts:14-16 | the store starts empty and well formed |
| CartSlice.CartStore.AddItem | src/store/cartSlice.ts:22-28 | the in-place update leaves the store in the state `CartState.AddItem` describes, and well formed |
| CartSlice.CartStore.UpdateQty | src/store/cartSlice.ts:29-43 | the in-place update (`item.qty += delta`, `delete` at 0 or below) matches `CartState.UpdateQty` |
| CartSlice.CartStore.RemoveItem | src/store/cartSlice.ts:44-50 | the in-place `delete` matches `CartState.RemoveItem` |
| CartSlice.CartStore.ClearCart | src/store/cartSlice.ts:52-54 | `state.items = {}` leaves the initial state |
| Decimal.NatToStringIsNumeral | src/store/cartSlice.ts:23 | the rendered id is a non-empty digit string without a leading zero |
| Decimal.ParseNatToString | src/store/cartSlice.ts:23 | parsing the rendered natural number gives it back |
| Decimal.IntToStringChars | src/store/cartSlice.ts:23 | a rendered id holds only digits and `-`, never `_` |
| Decimal.ParseIntToString | src/store/cartSlice.ts:23 | parsing the rendered integer gives it back |
| Decimal.IntToString | src/store/cartSlice.ts:23 | the rendered id is non-empty and starts with `-` iff the id is negative |
| Dashboard.FirstWinsNames | src/components/pages/Dashboard.tsx:20-29 | the category list holds every name of the input and no other |
| Dashboard.FirstWins | src/components/pages/Dashboard.tsx:21-28 | the de-duplicated list is no longer than its input and holds only input entries |
| Dashboard.FirstWinsDistinct | src/components/pages/Dashboard.tsx:21-24 | no name appears twice in the category list |
| Dashboard.FirstWinsPositions | src/components/pages/Dashboard.tsx:21-25 | each button is the input entry at the first occurrence of its name, in the order of first occurrences |
| Dashboard.DedupByName | src/components/pages/Dashboard.tsx:21-28 | the `Map` filled by "set unless present" yields the first-wins list |
| Dashboard.Categories | src/components/pages/Dashboard.tsx:20-29 | the category buttons are the first-wins list of (category, thumbnail) |
| Dashboard.SubCategories | src/components/pages/Dashboard.tsx:35-49 | no sub-categories without a selected category; otherwise the first-wins list over that category's products |
| Dashboard.FilterAppend | src/components/pages/Dashboard.tsx:54-58 | filtering a concatenation filters each part, so kept products keep catalog order |
| Dashboard.FilterMembers | src/components/pages/Dashboard.tsx:54-58 | a product is kept iff it is in the input and satisfies the test |
| Dashboard.FilteredProducts | src/components/pages/Dashboard.tsx:51-59 | with no category selected the list is the whole catalog; otherwise every product shown matches |
| Dashboard.FilteredProductsAreTheMatches | src/components/pages/Dashboard.tsx:51-59 | with a category selected, exactly the products of that category (and sub-category, if selected) are shown, in catalog order |
| Dashboard.TotalPages | src/components/pages/Dashboard.tsx:67 | the page count is the least whole number of 12-product pages that hold the list |
| Dashboard.PaginatedProducts | src/components/pages/Dashboard.tsx:69-73 | at most 12 products: the page-th block of twelve, clipped to the list |
| Dashboard.PagesInRangeAreNonEmpty | src/components/pages/Dashboard.tsx:142-143 | a page between 1 and the page count starts no later than it ends |
| Dashboard.IndicesDescribeThePage | src/components/pages/Dashboard.tsx:142-143 | `startIndex` and `endIndex` are the 1-based numbers of the first and last product on the page, and the page holds that many |
| Dashboard.StartIndex | src/components/pages/Dashboard.tsx:142 | page p (p ≥ 1) starts at number 1 or more; the closed form itself is the source's formula, and its meaning is proved in `IndicesDescribeThePage` |
| Dashboard.EndIndex | src/components/pages/Dashboard.tsx:143 | the last number shown is page times twelve or the list length, whichever is smaller |
| Dashboard.WindowBounds | src/components/pages/Dashboard.tsx:79-84 | the window starts at page 1 or later, ends at the last page or earlier, and spans at most five pages |
| Dashboard.PageWindow | src/components/pages/Dashboard.tsx:79-86 | at most five page numbers, each an existing page |
| Dashboard.PageWindowShape | src/components/pages/Dashboard.tsx:75-89 | the window holds min(5, pages) consecutive existing pages, contains the current page, and is centred on it when there is room |
| Dashboard.PageNumbers | src/components/pages/Dashboard.tsx:75-89 | the counting loop yields exactly the window |
| Dashboard.SimpleKey | src/components/pages/Dashboard.tsx:94 | `${productId}_base` is the store's key of the product's base line |
| Dashboard.AddedIffSomeLineHoldsProduct | src/components/pages/Dashboard.tsx:294-296 | in a well-formed cart, "added" holds iff some line holds the product |
| Dashboard.TotalQtyPositiveIffCartNonEmpty | src/components/pages/Dashboard.tsx:140-141 | with positive lines, the button reads "View Cart" iff the cart has a line |
| Dashboard.AddSimpleProduct | src/components/pages/Dashboard.tsx:96-98 | one of the base line is added |
| Dashboard.UpdateSimpleQty | src/components/pages/Dashboard.tsx:100-102 | the base line is shifted by delta |
| Dashboard.OpenVariantPopup | src/components/pages/Dashboard.tsx:114-120 | the popup holds the product, its first variant if it has any, and a quantity of one |
| Dashboard.DecreasePopupQty | src/components/pages/Dashboard.tsx:443-447 | "−" lowers the quantity by one but never below one |
| Dashboard.SelectVariant | src/components/pages/Dashboard.tsx:404 | choosing a variant selects it and keeps the product and the quantity |
| Dashboard.IncreasePopupQty | src/components/pages/Dashboard.tsx:458 | "+" raises the quantity by one and keeps the product and the variant |
| Dashboard.PopupPrice | src/components/pages/Dashboard.tsx:472-474 | the label is the quantity times the product price plus the quantity times the variant delta, and not negative for non-negative prices and quantity |
| Dashboard.PopupQtyStaysPositive | src/components/pages/Dashboard.tsx:443-459 | whatever is clicked in the popup, its quantity stays at least one |
| Dashboard.IncreaseThenDecreaseRestores | src/components/pages/Dashboard.tsx:443-459 | "+" then "−" restores the popup |
| Dashboard.ConfirmAddVariant | src/components/pages/Dashboard.tsx:126-138 | with no product or variant nothing happens; otherwise the selection is added with the popup quantity, the popup closes, and a positive cart stays positive |
| CartPage.FindProductIsFirstMatch | src/components/pages/Cart.tsx:34 | the lookup finds the first catalog product with the id, and finds none iff no product has it |
| CartPage.FindProduct | src/components/pages/Cart.tsx:34 | a product found is in the catalog and has the line's product id |
| CartPage.FindVariant | src/components/pages/Cart.tsx:37-39 | a variant is found only for a line naming a non-empty variant id, is one of the product's variants with that id, and is found whenever the product has one |
| CartPage.UnitPrice | src/components/pages/Cart.tsx:41 | with no variant the unit price is the product price, and a non-negative variant delta never lowers it |
| CartPage.VariantName | src/components/pages/Cart.tsx:46 | a row shows a variant name only when the variant has a non-empty name, and then shows that name |
| CartPage.CartLines | src/components/pages/Cart.tsx:31-56 | there is at most one row per cart entry |
| CartPage.UnitPriceCases | src/components/pages/Cart.tsx:37-41 | the unit price is the product price plus the price of the first variant with the line's variant id; with no variant id, or an unknown one, it is the product price |
| CartPage.Join | src/components/pages/Cart.tsx:33-35 | a row exists iff the line's product is in the catalog |
| CartPage.CartLinesComeFromEntries | src/components/pages/Cart.tsx:31-56 | every row comes from a cart entry with a catalog product: same key, product, variant and quantity, that entry's unit price, and total = price × qty |
| CartPage.CartLinesKeepKnownEntries | src/components/pages/Cart.tsx:31-56 | when every product is known, no entry is dropped and row i is entry i's |
| CartPage.CartLinesAppend | src/components/pages/Cart.tsx:31-56 | the rows of two runs of entries are the rows of the first run followed by the rows of the second |
| CartPage.CartLinesKeepKnownEntry | src/components/pages/Cart.tsx:31-56 | in any cart, an entry whose product is in the catalog gets its row, after the rows of the entries before it and before those of the entries after it |
| CartPage.CartLinesEmptyIff | src/components/pages/Cart.tsx:31-56 | the list is empty iff no entry's product is in the catalog |
| CartPage.TaxAmount | src/components/pages/Cart.tsx:60 | the tax (`TAX_PERCENT` = 0.05) is exactly one twentieth of the subtotal |
| CartPage.GrandTotal | src/components/pages/Cart.tsx:61 | the grand total is exactly 21/20 of the subtotal, and not below a non-negative subtotal |
| CartPage.TotalQty | src/components/pages/Cart.tsx:58 | the summed quantity of rows with non-negative quantities is non-negative |
| CartPage.Subtotal | src/components/pages/Cart.tsx:59 | the summed total of rows with non-negative totals is non-negative |
| CartPage.RowTotalNonNegative | src/components/pages/Cart.tsx:41-49 | with non-negative catalog prices and variant deltas, a row of non-negative quantity has a non-negative total |
| CartPage.SubtotalNonNegative | src/components/pages/Cart.tsx:58-61 | with non-negative catalog prices and variant deltas and non-negative quantities, the subtotal is non-negative and the grand total is at least the subtotal |
| CartPage.FooterShownIffListNonEmpty | src/components/pages/Cart.tsx:97-110 | with positive lines, the footer and "View Bill" show (`totalQty > 0`, also at line 272) iff the list is not the empty-state message |
| CartPage.CartPageAgreesWithDashboard | src/components/pages/Cart.tsx:58 | when every cart product is in the catalog, the cart page counts as many items as the catalog page's cart button |
| CartPage.PopupPriceIsCartPrice | src/components/pages/Cart.tsx:34-41 | with unique ids, the popup's "Add to Cart" price is the price the cart page charges for the selection |
| CartPage.RowsAddressTheirOwnLine | src/components/pages/Cart.tsx:23-29 | each row's buttons act on the row's own line: the key derived from its product and variant is the row's key, and that line holds the row's quantity |
| CartPage.PlusThenMinusRestores | src/components/pages/Cart.tsx:23-29 | "+" then "−" on a row leaves the cart unchanged |
| CartPage.MinusThenPlus | src/components/pages/Cart.tsx:23-29 | "−" then "+" restores a row of two or more; "−" on a row of one removes it |
| CartPage.IncreaseQty | src/components/pages/Cart.tsx:23-25 | the line is shifted by +1 |
| CartPage.DecreaseQty | src/components/pages/Cart.tsx:27-29 | the line is shifted by −1 |
| CartPage.RemoveRow | src/components/pages/Cart.tsx:147-150 | the row's line is removed |
| CartPage.ClearAll | src/components/pages/Cart.tsx:286 | the cart is emptied |
| Pagination.Prev | src/components/Pagination.tsx:30 | "◀" never goes below page 1 and never moves forward from an existing page |
| Pagination.Next | src/components/Pagination.tsx:51 | "▶" never goes past the last page and never moves back from an existing page |
| Pagination.PrevDisabled | src/components/Pagination.tsx:29 | "◀" is disabled on page 1, where it would not move, and an existing page it would not move from is page 1 |
| Pagination.NextDisabled | src/components/Pagination.tsx:50 | "▶" is disabled on the last page, where it would not move, and the only page up to the last it would not move from is the last |
| Pagination.DisabledIffNoMove | src/components/Pagination.tsx:29-51 | each button is disabled exactly when clicking it would not change the page |
| Pagination.StepsStayInRange | src/components/Pagination.tsx:30-51 | from an existing page both buttons lead to an existing page |
| Pagination.PrevNextInverse | src/components/Pagination.tsx:30-51 | away from the ends, "▶" undoes "◀" and "◀" undoes "▶" |
| Pagination.JumpShownIffWindowStopsShort | src/components/Pagination.tsx:37-41 | with the catalog page's window, the jump to the last page shows iff the window's first page plus four is before the last page |
| Pagination.JumpExamples | src/components/Pagination.tsx:37-41 | up to five pages never offer the jump; with more than five pages, a page three or more before the last page does |
| Pagination.ClicksStayInRange | src/components/Pagination.tsx:22-55 | any sequence of clicks keeps an existing page existing |
| Pagination.Step | src/components/Pagination.tsx:22-55 | a hidden control changes nothing; from an existing page a click leads to an existing page; an enabled "◀" goes back one and an enabled "▶" forward one; a shown jump button leads to the last page and a hidden one does nothing |
| Pagination.HiddenControlKeepsPage | src/components/Pagination.tsx:22 | with one page or none the control renders nothing, so no sequence of clicks changes the page |
| OtpLogin.Sanitize | src/components/pages/OtpLogin.tsx:41 | the sanitised value holds only digits and is no longer than the input |
| OtpLogin.SanitizeAppend | src/components/pages/OtpLogin.tsx:41 | sanitising a concatenation sanitises each part |
| OtpLogin.SanitizeKeepsDigits | src/components/pages/OtpLogin.tsx:41 | a digit string passes unchanged |
| OtpLogin.SanitizeIdempotent | src/components/pages/OtpLogin.tsx:41 | sanitising twice equals sanitising once |
| OtpLogin.SanitizeMembers | src/components/pages/OtpLogin.tsx:41 | a character survives iff it is a digit of the input |
| OtpLogin.SlotValue | src/components/pages/OtpLogin.tsx:49 | a slot receives the last typed character if it is a digit, else nothing |
| OtpLogin.CodeMatchesIffSlots | src/components/pages/OtpLogin.tsx:17-19 | four slots of at most one digit join to `1290` iff they are `1`,`2`,`9`,`0`, and then all are filled |
| OtpLogin.JoinOfFilledSlots | src/components/pages/OtpLogin.tsx:17 | slots holding one digit each join to a string of digits, one per slot |
| OtpLogin.LoginScreen.constructor | src/components/pages/OtpLogin.tsx:10-14 | step 1, empty mobile, four empty slots |
| OtpLogin.LoginScreen.SendOtpEnabled | src/components/pages/OtpLogin.tsx:94 | "Send OTP" is enabled only on a number of exactly ten digits |
| OtpLogin.LoginScreen.VerifyEnabled | src/components/pages/OtpLogin.tsx:124 | "Verify OTP" is enabled only when the joined code has four digits |
| OtpLogin.LoginScreen.HandleMobileChange | src/components/pages/OtpLogin.tsx:40-43 | the mobile becomes the typed digits when there are at most ten, else stays; it always holds at most ten digits |
| OtpLogin.LoginScreen.HandleOtpChange | src/components/pages/OtpLogin.tsx:45-62 | only slot `index` changes, to the slot value; focus moves on iff a digit was stored before the last slot; still four one-digit slots |
| OtpLogin.LoginScreen.ClickSendOtp | src/components/pages/OtpLogin.tsx:92-94 | step 2 iff the mobile has ten digits; nothing else changes |
| OtpLogin.LoginScreen.VerifyOtp | src/components/pages/OtpLogin.tsx:16-25 | the code is accepted iff the slots are `1`,`2`,`9`,`0`, which implies the button was enabled |
| OtpLogin.LoginScreen.ChangeMobile | src/components/pages/OtpLogin.tsx:130-131 | back to step 1, keeping the mobile and the slots |

## Left out

- Rendering: JSX, styles, animations, images and the bill modal's open/closed flag (`showBill`). These are presentation only.
- Redux and React plumbing: `dispatch`, `useSelector`, `useMemo` and the state setters. Dispatches are modelled as direct calls to the store's methods.
- Side effects: `navigate`, `alert`, DOM `focus` (modelled as the `focusNext` result) and the three-second "OTP sent" banner timer. They are I/O or time.
- The page reset to 1 when the category changes (`useEffect` at src/components/pages/Dashboard.tsx:63-65). It is a framework effect. The pagination lemmas instead assume the page is one that exists.
- Floating point and `toFixed(2)` formatting of prices. Prices and subtotals are integers, and the tax and grand total are exact reals.
- Decimal.IntToString: renders integer ids only. JavaScript's exponent notation for huge numbers and fractional ids are not modelled; catalog ids are small integers.
- The catalog fixture (`src/data/productsList.ts`) is not transcribed. The pages take the catalog as a parameter. Product fields no page logic reads (description, rating, stock) are omitted.
- `src/components/ProductCard.tsx`, `src/store/authSlice.ts` and the other pages are not part of this model. They hold markup, a flag persisted in `localStorage`, or static screens.
- OtpLogin.LoginScreen.HandleOtpChange: writes the slot in place instead of copying the array and replacing it. No other holder of the old array exists, so nothing observes the difference.
- OtpLogin.LoginScreen.HandleOtpChange requires an index below four. The page only calls it for its four inputs.
- CartSlice.CartState.AddItem: positivity of quantities is kept only for positive adds, because the reducer itself does not check the sign.
