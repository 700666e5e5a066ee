# FoodyZone storefront core in Dafny

This project models the ordering logic of the FoodyZone React storefront:

- its three cart stores:
  - the cart context's reducer and provider;
  - the store's Immer-style cart slice;
  - the storefront page's inline cart.
- the pricing calculators, which disagree with each other and are modelled one by one;
- promo-code lookup;
- two checkout step machines and the delivery form's required-field rule;
- the payment form's card-field formatters and validator;
- the menu sorting helper.

Money is exact `real`; the deal price of 29.99 is 14.995. Clock readings are parameters.

Each source file is one module:

| module | file |
|---|---|
| `Wrappers` | (shared optional value) |
| `Catalog` | the menu item record and the "SIS50" deal-price rule, shared by several files |
| `Constants` | `src/utils/constants.js` |
| `OrderIds` | the `'ORD' + Date.now().toString().slice(-8)` id built in two places |
| `Promo` | the upper-case-then-look-up rule used by the order summary and the drawer |
| `CartContext` | `src/context/CartContext.jsx` |
| `CartSlice` | `src/store/slices/cartSlice.js` |
| `FoodyZone` | `src/components/FoodyZone.jsx` |
| `OrderSummary` | `src/components/checkout/OrderSummary.jsx` |
| `CartDrawer` | `src/components/CartDrawer.jsx` |
| `UseCart` | `src/hooks/useCart.js` |
| `MenuItem` | `src/components/menu/MenuItem.jsx` |
| `PaymentForm` | `src/components/checkout/PaymentForm.jsx` |
| `DeliveryInfo` | `src/components/checkout/DeliveryInfo.jsx` |
| `Checkout` | `src/components/checkout/pages/Checkout.jsx` |
| `Helpers` | `src/utils/helpers.js` |

Pure code (reducers, reductions, formatters, sorting) is modelled as functions with lemmas. Component state is modelled as a class whose fields are the `useState` variables. Each handler is a method that `ensures` the new state is `old(View())` with exactly the fields the handler sets changed. When a handler queues several `setX` calls, the model applies them in order and the last write wins. This is how React batches them.

Behaviour of the code worth knowing before reading the contracts:

- **Empty-cart delivery fee.** The storefront charges an empty cart the 2.99 delivery fee (`FoodyZone.PricingRules`).
- **Checkout on an empty cart.** Starting checkout on an empty cart is a silent no-op after an alert, not an error result.
- **Clearing the cart.** `CLEAR_CART` keeps the discount.
- **Discount range.** The discount is never range-checked. The total bounds are proved under an explicit `0 <= discount <= 100` hypothesis.
- **Free-delivery rule.** Only the storefront page and the order summary apply free delivery, and the summary fixes the fee at mount.
- **Completion.** Completing an order never clears an in-memory cart. The checkout page only removes the saved-cart key, and no control reaches it (finding 2). On the storefront page the cart is emptied by a timer callback, which is not modelled.
- **Order ids.** Ids are not unique: they collide for clock readings 10^8 ms apart (`OrderIds.OrderIdsCollideModulo`).
- **The checkout page's steps.** Next and previous are bounded but not validated. The forms do their own gating (`DeliveryInfo.Form.HandleSubmit`, `PaymentForm.Form.HandleSubmit`).
- **The slice's `updateQuantity`.** It stores any quantity, including values below 1.
- **The promo worked example.** The 14.99 + 8.99 cart with FOODY25 totals 23.98 + 2.99 + 1.9184 − 5.995 = 22.8934 in the order summary (`OrderSummary.PromoExample`).

## Model

| member | source | states |
|---|---|---|
| Catalog.ResolvePrice | src/components/FoodyZone.jsx:194 | a "SIS50" price resolves to half its original price, any other price to itself |
| Catalog.DealPrice | src/utils/helpers.js:6 | the 29.99 deal resolves to exactly 14.995 |
| Constants.PromoCodesTable | src/utils/constants.js:20-24 | the code table holds exactly WELCOME10→10, FOODY25→25, SIS50→50, each in (0, 100] |
| Constants.SortOptionIdsDistinct | src/utils/constants.js:12-18 | no two sort options share an id |
| Constants.CategoryIdsDistinct | src/utils/constants.js:1-10 | no two categories share an id |
| OrderIds.Decimal | src/components/FoodyZone.jsx:279 | `toString` of a natural number is non-empty, all digits, with no leading zero |
| OrderIds.SliceLast | src/components/FoodyZone.jsx:279 | `slice(-k)` has length min(k, length) |
| OrderIds.OrderId | src/components/FoodyZone.jsx:279 | an id is "ORD" followed by at least one digit, and only digits |
| OrderIds.LastDigits | src/components/FoodyZone.jsx:279 | the last k characters of a reading's decimal string are its k low digits |
| OrderIds.OrderIdsCollideModulo | src/components/checkout/pages/Checkout.jsx:63 | for readings of 10^7 ms or more, two ids are equal iff the readings agree modulo 10^8 |
| OrderIds.OrderIdShape | src/components/checkout/pages/Checkout.jsx:63 | for such readings the id has exactly 11 characters |
| Promo.ToUpper | src/components/checkout/OrderSummary.jsx:41 | upper-casing keeps the length |
| Promo.ToUpperIdempotent | src/components/CartDrawer.jsx:29 | upper-casing twice is upper-casing once |
| Promo.LookupIgnoresCase | src/components/CartDrawer.jsx:29-30 | two codes that upper-case alike find the same entry |
| Promo.LookupShippedTable | src/utils/constants.js:20-24 | with the shipped table, a code is accepted iff it upper-cases to one of the three codes, yielding that code's percentage |
| Promo.LookupExamples | src/components/checkout/OrderSummary.jsx:41-43 | lower and mixed case are accepted; a leading blank or a truncated code misses |
| CartContext.AddToCartEffect | src/context/CartContext.jsx:8-23 | a present id has the matching entries raised by exactly 1 whatever the payload quantity; a new id is appended with quantity 1; discount and orders are untouched |
| CartContext.AddToCartTotals | src/context/CartContext.jsx:8-23 | with distinct ids, adding raises the item count by 1 and the subtotal by one unit of the stored finalPrice |
| CartContext.RemoveIdEffect | src/context/CartContext.jsx:25-29 | removal keeps exactly the entries with another id, drops every entry with the id, and is the identity on an absent id |
| CartContext.RemoveIdAppend | src/context/CartContext.jsx:25-29 | removal distributes over concatenation, so the kept entries stay in order |
| CartContext.RemoveIdKeepsDistinct | src/context/CartContext.jsx:25-29 | removal keeps ids pairwise distinct |
| CartContext.RemoveIdKeepsPositive | src/context/CartContext.jsx:25-29 | removal keeps every quantity at least 1 |
| CartContext.UpdateQuantityEffect | src/context/CartContext.jsx:31-39 | UPDATE_QUANTITY sets exactly the matching entries' quantity to the given value, even one below 1 |
| CartContext.UpdateQuantityWrapperEffect | src/context/CartContext.jsx:88-94 | through the wrapper a quantity below 1 removes the id, any other is stored; no entry falls below 1; ids stay distinct |
| CartContext.OtherActionsEffect | src/context/CartContext.jsx:41-61 | CLEAR_CART empties items and keeps discount and orders; APPLY_DISCOUNT replaces the discount, last write wins; ADD_ORDER prepends the order, keeps the others and empties items; an unknown action changes nothing |
| CartContext.ReduceKeepsDistinct | src/context/CartContext.jsx:6-63 | every action keeps item ids pairwise distinct |
| CartContext.SubtotalNonNegative | src/context/CartContext.jsx:108-111 | non-negative prices and quantities give a non-negative subtotal |
| CartContext.TotalBounds | src/context/CartContext.jsx:113-121 | with a discount in [0, 100] the total lies between 0 and the subtotal; an empty cart has subtotal, total and count 0 |
| CartContext.CartProvider.constructor | src/context/CartContext.jsx:66-70 | the provider starts from empty items, empty orders and discount 0 |
| CartContext.CartProvider.AddToCart | src/context/CartContext.jsx:80-82 | the state advances by ADD_TO_CART and keeps distinct ids and positive quantities |
| CartContext.CartProvider.RemoveFromCart | src/context/CartContext.jsx:84-86 | the state advances by REMOVE_FROM_CART and keeps the invariant |
| CartContext.CartProvider.UpdateQuantity | src/context/CartContext.jsx:88-94 | the state advances by the wrapper (removal below 1) and keeps the invariant |
| CartContext.CartProvider.ClearCart | src/context/CartContext.jsx:96-98 | the state advances by CLEAR_CART |
| CartContext.CartProvider.ApplyDiscount | src/context/CartContext.jsx:100-102 | the state advances by APPLY_DISCOUNT |
| CartContext.CartProvider.AddOrder | src/context/CartContext.jsx:104-106 | the state advances by ADD_ORDER |
| CartSlice.FirstIndex | src/store/slices/cartSlice.js:13 | `find` stops at the first entry with the id, or past the end exactly when the id is absent |
| CartSlice.AddedEffect | src/store/slices/cartSlice.js:12-19 | only the first entry with the id changes, by exactly +1; a new id is pushed with quantity 1; the ids present afterwards are the old ones plus the payload's |
| CartSlice.AddedKeepsDistinct | src/store/slices/cartSlice.js:13-18 | searching before pushing keeps ids pairwise distinct |
| CartSlice.UpdatedEffect | src/store/slices/cartSlice.js:23-28 | the first entry with the id takes the payload quantity unclamped; all other entries are kept; a missing id changes nothing |
| CartSlice.RemovedEffect | src/store/slices/cartSlice.js:20-22 | removal drops every entry with the id, keeps the rest, and is the identity on an absent id |
| CartSlice.RemovedAppend | src/store/slices/cartSlice.js:20-22 | removal distributes over concatenation, so order is kept |
| CartSlice.RemovedKeepsDistinct | src/store/slices/cartSlice.js:20-22 | removal keeps ids distinct |
| CartSlice.Slice.constructor | src/store/slices/cartSlice.js:6-10 | empty items, not loading, no error |
| CartSlice.Slice.AddToCart | src/store/slices/cartSlice.js:12-19 | items become the added items; loading and error are kept |
| CartSlice.Slice.RemoveFromCart | src/store/slices/cartSlice.js:20-22 | items become the filtered items; loading and error are kept |
| CartSlice.Slice.UpdateQuantity | src/store/slices/cartSlice.js:23-28 | items become the updated items; loading and error are kept |
| CartSlice.Slice.ClearCart | src/store/slices/cartSlice.js:29-31 | items are emptied; loading and error are kept |
| CartSlice.Slice.FetchPending | src/store/slices/cartSlice.js:35-37 | loading becomes true; nothing else changes |
| CartSlice.Slice.FetchFulfilled | src/store/slices/cartSlice.js:38-41 | items are replaced by the payload and loading ends; the error is kept |
| CartSlice.Slice.FetchRejected | src/store/slices/cartSlice.js:42-45 | the message is stored and loading ends; items are kept |
| FoodyZone.AddToCartEffect | src/components/FoodyZone.jsx:185-197 | a present id adds 1 to the matching entry and keeps every finalPrice; a new id is appended with quantity 1 and its price resolved then (half the original for the deal) |
| FoodyZone.AddToCartKeepsWellFormed | src/components/FoodyZone.jsx:185-197 | adding keeps ids distinct, quantities at least 1, and every finalPrice the resolved price |
| FoodyZone.RemoveFromCartEffect | src/components/FoodyZone.jsx:199-201 | removal keeps exactly the entries with another id and is the identity on an absent id |
| FoodyZone.RemoveFromCartAppend | src/components/FoodyZone.jsx:199-201 | removal distributes over concatenation, so order is kept |
| FoodyZone.RemoveFromCartKeepsWellFormed | src/components/FoodyZone.jsx:199-201 | removal keeps the cart invariant |
| FoodyZone.UpdateQuantityAsWrittenEffect | src/components/FoodyZone.jsx:203-215 | only matching entries change, and only when quantity + change stays at least 1; an entry that would drop below 1 is left as it was; the invariant holds |
| FoodyZone.MinusAtOneIsNoOp | src/components/FoodyZone.jsx:207-209 | minus on an entry of quantity 1 leaves the cart unchanged as written; the intended version removes the id |
| FoodyZone.UpdateQuantityIntendedEffect | src/components/FoodyZone.jsx:203-215 | intended: the entry is gone iff quantity + change < 1, otherwise moved by change; other entries are kept; the invariant holds |
| FoodyZone.SubtotalNonNegative | src/components/FoodyZone.jsx:225-227 | non-negative prices and quantities give a non-negative subtotal |
| FoodyZone.PricingRules | src/components/FoodyZone.jsx:229-241 | the fee is 0 iff the subtotal is strictly above 25, else 2.99; tax is 8%; total is subtotal + fee + tax with no discount; an empty cart has subtotal and count 0 and total 2.99 |
| FoodyZone.TotalAtLeastSubtotal | src/components/FoodyZone.jsx:237-242 | the total is at least subtotal + fee, which is at least 0 |
| FoodyZone.TwoItemExample | src/components/FoodyZone.jsx:225-242 | a 14.99 and an 8.99 item give subtotal 23.98, fee 2.99, tax 1.9184, total 28.8884 |
| FoodyZone.RemoveAll | src/components/FoodyZone.jsx:219 | the filtered favourites are exactly the old ones other than the id |
| FoodyZone.ToggleFavoriteEffect | src/components/FoodyZone.jsx:217-223 | a toggle flips the id's membership and keeps every other id's; toggling a new id twice gives the list back |
| FoodyZone.WithFieldEffect | src/components/FoodyZone.jsx:248-253 | a delivery-field change makes the named field read back as the value and leaves every other field as it was; writing a field's own value changes nothing |
| FoodyZone.Storefront.constructor | src/components/FoodyZone.jsx:30-45 | empty cart, step 0, blank delivery info with time "asap", method "card", not completed, empty id, no favourites |
| FoodyZone.Storefront.AddToCart | src/components/FoodyZone.jsx:185-197 | only the cart changes, to the added cart; the invariant holds |
| FoodyZone.Storefront.RemoveFromCart | src/components/FoodyZone.jsx:199-201 | only the cart changes, to the filtered cart |
| FoodyZone.Storefront.UpdateQuantity | src/components/FoodyZone.jsx:203-215 | only the cart changes, as written: the later `setCart` of the mapped array wins, so entries with the id move by change when quantity + change ≥ 1 and are otherwise left as they were; the invariant holds |
| FoodyZone.Storefront.HandleDeliveryInfoChange | src/components/FoodyZone.jsx:248-253 | only the named delivery field changes |
| FoodyZone.Storefront.SelectPaymentMethod | src/components/FoodyZone.jsx:410 | only the payment method changes |
| FoodyZone.Storefront.HandleProceedToCheckout | src/components/FoodyZone.jsx:255-261 | an empty cart changes nothing; otherwise the step becomes 1 |
| FoodyZone.Storefront.HandleDeliveryNext | src/components/FoodyZone.jsx:263-269 | the step becomes 2 iff name, phone and address are all non-empty; otherwise nothing changes |
| FoodyZone.Storefront.HandlePaymentNext | src/components/FoodyZone.jsx:271-281 | no payment method changes nothing; otherwise the step becomes 3 and the id is built from the clock reading |
| FoodyZone.Storefront.HandleBackToCart | src/components/FoodyZone.jsx:289-291 | the step becomes 0 |
| FoodyZone.Storefront.ToggleFavorite | src/components/FoodyZone.jsx:217-223 | only the favourites change, by the toggle |
| FoodyZone.Storefront.ContinueShopping | src/components/FoodyZone.jsx:536 | the step becomes 0 |
| FoodyZone.Storefront.BackToDelivery | src/components/FoodyZone.jsx:454 | the step becomes 1 (also the payment step's "Back to Delivery" at line 397) |
| OrderSummary.InlineLiteralsMatchConstants | src/components/checkout/OrderSummary.jsx:9-38 | the inline code table, tax rate, threshold and fee equal the shared constants |
| OrderSummary.AppliedDiscountRules | src/components/checkout/OrderSummary.jsx:34-47 | a code that upper-cases to a table code sets the discount to its percentage, whatever it was; any other code leaves it; a result is unchanged or in (0, 100] |
| OrderSummary.AppliedDiscountLastWins | src/components/checkout/OrderSummary.jsx:42-43 | after a hit, earlier applications do not matter |
| OrderSummary.SubtotalsAgree | src/components/checkout/OrderSummary.jsx:23-28 | re-resolving prices gives the storefront's subtotal whenever the stored finalPrices are the resolved prices |
| OrderSummary.SubtotalNonNegative | src/components/checkout/OrderSummary.jsx:23-28 | non-negative resolved prices and quantities give a non-negative subtotal |
| OrderSummary.TotalBounds | src/components/checkout/OrderSummary.jsx:72-75 | with a discount in [0, 100] the discount amount is between 0 and the subtotal, so the total is at least fee + tax, which is at least 0 |
| OrderSummary.AdjustedKeepsOthers | src/components/checkout/OrderSummary.jsx:50-60 | entries with another id are untouched and keep their order |
| OrderSummary.AdjustedEffect | src/components/checkout/OrderSummary.jsx:50-60 | the entry is dropped iff quantity + change < 1; otherwise it keeps its place with the new quantity; the rest is unchanged |
| OrderSummary.AdjustedAbsent | src/components/checkout/OrderSummary.jsx:50-60 | an absent id changes nothing |
| OrderSummary.AdjustedKeepsPositive | src/components/checkout/OrderSummary.jsx:50-60 | no entry ends below quantity 1 |
| OrderSummary.FeeIsFixedAtMount | src/components/checkout/OrderSummary.jsx:11-21 | a saved cart of 26 mounts with fee 0; after a −1 edit the subtotal is 13, yet only a fresh mount would charge 2.99 |
| OrderSummary.PromoExample | src/components/checkout/OrderSummary.jsx:72-75 | 14.99 + 8.99 with "foody25": fee 2.99 and total 22.8934 |
| OrderSummary.Summary.Mount | src/components/checkout/OrderSummary.jsx:6-21 | the saved cart (or none, read as empty) is loaded and the fee is 0 iff its subtotal is above 25, else 2.99 |
| OrderSummary.Summary.SetPromoCode | src/components/checkout/OrderSummary.jsx:7 | only the promo input changes |
| OrderSummary.Summary.ApplyPromoCode | src/components/checkout/OrderSummary.jsx:34-47 | only the discount can change, by the lookup rule; the input is kept |
| OrderSummary.Summary.UpdateQuantity | src/components/checkout/OrderSummary.jsx:50-64 | only the cart changes, to the adjusted cart, and it is saved; the fee is not recomputed |
| OrderSummary.Summary.RemoveItem | src/components/checkout/OrderSummary.jsx:66-70 | only the cart changes, to the filtered cart, and it is saved |
| CartDrawer.AfterApplyEffect | src/components/CartDrawer.jsx:22-34 | an attempt never touches entries or orders; a hit sets the discount to the code's percentage; a miss leaves the state as it was |
| CartDrawer.QuantityButtonsEffect | src/components/CartDrawer.jsx:68-75 | minus at quantity 1 passes 0, which removes the entry; above 1 it lowers the quantity by one; plus raises it by one; the context invariant holds |
| CartDrawer.DiscountRowMatchesTotal | src/components/CartDrawer.jsx:117-121 | the row is shown iff the discount is positive, and the subtotal less the row is the context's total |
| CartDrawer.Drawer.constructor | src/components/CartDrawer.jsx:18 | the promo input starts empty |
| CartDrawer.Drawer.SetPromoCode | src/components/CartDrawer.jsx:18 | only the promo input changes |
| CartDrawer.Drawer.HandleApplyPromo | src/components/CartDrawer.jsx:22-34 | the context advances by applyDiscount on a hit only, and the input is always emptied |
| CartDrawer.Drawer.Minus | src/components/CartDrawer.jsx:68 | the context's updateQuantity receives the entry's quantity − 1 |
| CartDrawer.Drawer.Plus | src/components/CartDrawer.jsx:75 | the context's updateQuantity receives the entry's quantity + 1 |
| CartDrawer.Drawer.Remove | src/components/CartDrawer.jsx:87 | the context removes the entry's id |
| CartDrawer.Drawer.Clear | src/components/CartDrawer.jsx:130 | the context clears the cart |
| UseCart.AddToCartDelegates | src/hooks/useCart.js:14-20 | the item reaches addItem exactly once, unchanged, before the toast |
| UseCart.ItemCountsAgree | src/hooks/useCart.js:26-28 | the hook's item count equals the provider's |
| UseCart.ItemCountPositive | src/hooks/useCart.js:26-28 | with quantities of at least 1 the count is at least the number of entries |
| UseCart.IsEmptyRules | src/hooks/useCart.js:38 | an empty cart counts and totals 0; with positive quantities the cart is empty iff the count is 0 |
| UseCart.TotalMatchesSubtotal | src/hooks/useCart.js:22-24 | where price equals finalPrice, the hook's total equals the provider's subtotal |
| UseCart.TotalUsesRawPrice | src/hooks/useCart.js:22-24 | for every cart the hook's total is the provider's subtotal plus the sum of (price − finalPrice) × quantity |
| UseCart.RawPriceGapPositive | src/hooks/useCart.js:22-24 | with finalPrice ≤ price and quantities ≥ 1, the gap is non-negative, and positive iff some entry's finalPrice is below its price, so the two totals differ exactly then |
| MenuItem.FindOption | src/components/menu/MenuItem.jsx:39 | finds an option iff one with the id exists, and then the first one with that id |
| MenuItem.FindChoice | src/components/menu/MenuItem.jsx:40 | finds a choice iff one with the id exists, and then the first one with that id |
| MenuItem.ItemInCart | src/components/menu/MenuItem.jsx:16-17 | true iff some cart entry has the item's id |
| MenuItem.PutEffect | src/components/menu/MenuItem.jsx:42-49 | the option id maps to the new choice and every other id to its old one; one choice per option; a new id adds one entry |
| MenuItem.PutOverwrites | src/components/menu/MenuItem.jsx:42-49 | a second choice for an option replaces the first |
| MenuItem.ResolveChoiceFound | src/components/menu/MenuItem.jsx:38-49 | on an item with unique ids, the stored selection is the chosen option's name and the choice's name and price |
| MenuItem.PutSum | src/components/menu/MenuItem.jsx:32-34 | storing a choice changes the extras' sum by the price difference, or adds its price for a new option |
| MenuItem.DisplayedPriceRules | src/components/menu/MenuItem.jsx:173-177 | with originalPrice set and a positive discount, the price shown is price × (1 − discount/100), between 0 and the price; otherwise it is the price |
| MenuItem.Card.constructor | src/components/menu/MenuItem.jsx:12-14 | the quantity starts at 1 with no customisations |
| MenuItem.Card.CalculateTotalPrice | src/components/menu/MenuItem.jsx:30-36 | the loop returns quantity × (price + the sum of the chosen extras) |
| MenuItem.Card.HandleCustomizationChange | src/components/menu/MenuItem.jsx:38-50 | a found option and choice are stored under the option id; a missing one fails and stores nothing; quantity is kept |
| MenuItem.Card.HandleAddToCart | src/components/menu/MenuItem.jsx:19-28 | the payload carries the item, quantity, choices and their total; then quantity resets to 1 and the choices to none |
| MenuItem.Card.Minus | src/components/menu/MenuItem.jsx:213 | the quantity becomes max(1, quantity − 1) |
| MenuItem.Card.Plus | src/components/menu/MenuItem.jsx:220 | the quantity goes up by 1 |
| PaymentForm.StripNonDigits | src/components/checkout/PaymentForm.jsx:28 | the result is all digits and no longer than the input |
| PaymentForm.Truncate | src/components/checkout/PaymentForm.jsx:29 | the result is a prefix within the width, and the input itself when it already fits |
| PaymentForm.GroupChars | src/components/checkout/PaymentForm.jsx:28 | grouping digits yields only digits and the separator |
| PaymentForm.Ungroup | src/components/checkout/PaymentForm.jsx:28 | taking the separators back out gives the digits back |
| PaymentForm.GroupLength | src/components/checkout/PaymentForm.jsx:28-29 | grouping at most m·k digits gives at most m·(k+1) − 1 characters |
| PaymentForm.GroupPrefix | src/components/checkout/PaymentForm.jsx:28-29 | the first m·(k+1) − 1 characters of a grouping are the grouping of the first m·k digits |
| PaymentForm.GroupedFormat | src/components/checkout/PaymentForm.jsx:27-32 | a grouped field holds digits and separators within its width; without separators it is the first min(m·k, n) digits; formatting it again changes nothing |
| PaymentForm.FormatNumberRules | src/components/checkout/PaymentForm.jsx:27-29 | the number holds only digits and spaces, at most 19; without spaces it is the first min(16, n) digits typed; formatting is idempotent |
| PaymentForm.FormatExpiryRules | src/components/checkout/PaymentForm.jsx:30-32 | the expiry holds only digits and "/", at most 5; without "/" it is the first min(4, n) digits; formatting is idempotent |
| PaymentForm.FormatCvvRules | src/components/checkout/PaymentForm.jsx:33-35 | the CVV is the first min(4, n) digits typed; formatting is idempotent |
| PaymentForm.ValidateFormattedCard | src/components/checkout/PaymentForm.jsx:58-68 | a non-card method passes without the terms; on formatted fields the card passes iff at least 16 number, 4 expiry and 3 CVV digits were typed, the trimmed name has at least 3 characters and the terms are accepted |
| PaymentForm.ExpiryShape | src/components/checkout/PaymentForm.jsx:64 | the formatted expiry matches the dd/dd pattern iff at least four digits were typed |
| PaymentForm.RereadLosesCard | src/components/checkout/PaymentForm.jsx:6-14 | a form remounted on its own submitted record keeps the method but starts with empty card fields and unchecked boxes |
| PaymentForm.Form.constructor | src/components/checkout/PaymentForm.jsx:6-14 | each field is its initial key or the default ("card", empty), both boxes unchecked |
| PaymentForm.Form.SetPaymentMethod | src/components/checkout/PaymentForm.jsx:83 | only the method changes |
| PaymentForm.Form.HandleCardChange | src/components/checkout/PaymentForm.jsx:23-42 | only the named card field changes, to the formatted value (the name stored as typed) |
| PaymentForm.Form.SetSaveCard | src/components/checkout/PaymentForm.jsx:168 | only the save-card box changes |
| PaymentForm.Form.SetTermsAccepted | src/components/checkout/PaymentForm.jsx:223 | only the terms box changes |
| PaymentForm.Form.HandleSubmit | src/components/checkout/PaymentForm.jsx:44-56 | nothing while the button is disabled; otherwise the record, carrying card details only for the card method, goes to onUpdate before onNext |
| DeliveryInfo.WithFieldEffect | src/components/checkout/DeliveryInfo.jsx:26-32 | a change sets the named field and leaves every other field as it was |
| DeliveryInfo.InitialDefaults | src/components/checkout/DeliveryInfo.jsx:6-16 | missing or empty keys fall back to "", "asap" for the time and "delivery" for the type; present keys are used |
| DeliveryInfo.RereadRestores | src/components/checkout/DeliveryInfo.jsx:6-16 | remounting on a submitted record restores the form iff its time and type are non-empty |
| DeliveryInfo.RequiredFields | src/components/checkout/DeliveryInfo.jsx:107-159 | name and phone are always required; address, city and ZIP only for delivery, so a pickup passes without them |
| DeliveryInfo.Form.constructor | src/components/checkout/DeliveryInfo.jsx:6-16 | the state is the initial state for the given data |
| DeliveryInfo.Form.HandleChange | src/components/checkout/DeliveryInfo.jsx:26-32 | only the named field changes |
| DeliveryInfo.Form.SetDeliveryType | src/components/checkout/DeliveryInfo.jsx:54-66 | only the type changes; the form data, hidden fields included, is kept |
| DeliveryInfo.Form.HandleSubmit | src/components/checkout/DeliveryInfo.jsx:34-43 | nothing while a rendered required field is empty; otherwise the form data plus type go to onUpdate before onNext |
| Checkout.StepRules | src/components/checkout/pages/Checkout.jsx:32-45 | steps stay in [1, 4]; next adds 1 below 4 and completes at 4; previous subtracts 1 above 1 and is a no-op at 1; details are kept |
| Checkout.CompleteEffect | src/components/checkout/pages/Checkout.jsx:61-69 | completion sets step 4, completed and an "ORD" id (11 characters for current readings), drops only the saved-cart key and keeps the details |
| Checkout.NeverCompletes | src/components/checkout/pages/Checkout.jsx:77-104 | as wired, no sequence of presses ever completes the order, sets an id or touches storage |
| Checkout.ConfirmationWithoutOrder | src/components/checkout/pages/Checkout.jsx:32-39 | continue, continue, pay shows step 4 with no order, no id and the cart still saved |
| Checkout.IntendedConfirms | src/components/checkout/pages/Checkout.jsx:61-69 | with pay wired to completion, step 4 is showing iff the order is completed with an id and the saved cart removed |
| Checkout.IntendedCompletes | src/components/checkout/pages/Checkout.jsx:61-69 | with that wiring, continue, continue, pay completes the order with the id of the pay reading |
| Checkout.CheckoutPage.constructor | src/components/checkout/pages/Checkout.jsx:12-19 | step 1, empty details, not completed, no id |
| Checkout.CheckoutPage.HandleNextStep | src/components/checkout/pages/Checkout.jsx:32-39 | the state advances by the next-step rule |
| Checkout.CheckoutPage.HandlePreviousStep | src/components/checkout/pages/Checkout.jsx:41-45 | the state advances by the previous-step rule |
| Checkout.CheckoutPage.EditDelivery | src/components/checkout/pages/Checkout.jsx:90 | the step jumps to 1 |
| Checkout.CheckoutPage.HandleDeliveryInfoUpdate | src/components/checkout/pages/Checkout.jsx:47-52 | only the delivery record is replaced |
| Checkout.CheckoutPage.HandlePaymentInfoUpdate | src/components/checkout/pages/Checkout.jsx:54-59 | only the payment record is replaced |
| Checkout.CheckoutPage.CompleteOrder | src/components/checkout/pages/Checkout.jsx:61-75 | the state becomes the completion of the old one |
| Helpers.InsertPermutes | src/utils/helpers.js:3-17 | insertion adds exactly the element |
| Helpers.InsertSorted | src/utils/helpers.js:9-14 | insertion keeps a sorted list sorted |
| Helpers.InsertStable | src/utils/helpers.js:9-14 | insertion keeps the order among equal ranks |
| Helpers.SortPermutes | src/utils/helpers.js:3-17 | the sort is a permutation |
| Helpers.SortSorted | src/utils/helpers.js:9-14 | the sort orders by rank |
| Helpers.SortStable | src/utils/helpers.js:9-14 | the sort is stable |
| Helpers.SortItemsCorrect | src/utils/helpers.js:2-18 | the result is a permutation; "price-low" gives non-decreasing price, "price-high" non-increasing, "rating" non-increasing with a missing rating as 0; ties keep input order; any other key returns the input |
| Helpers.UnsortedKeys | src/utils/helpers.js:15-16 | "popular" and "default" keep the input order |

## Left out

- Persistence I/O. The local-storage load and save effects are not modelled as I/O. The order summary and the checkout page model storage as an abstract key→value map. The context's `cart`/`orders` save effect and the storefront page's load/save effects are omitted.
- Timers and navigation. The 2-second timer that empties the storefront cart and marks the order completed is not modelled, and neither is the 5-second redirect after completion. The delay is asynchronous, and the redirect is navigation.
- Clock and dates. `Date.now()` is a parameter. The ISO `timestamp` fields of the delivery and payment records are omitted.
- Display. `toFixed` rounding, `alert`, toasts, icons and JSX rendering are not modelled. `FoodyZone` total is modelled before rounding.
- Floating point. IEEE-754 arithmetic is not modelled; money is exact `real`. A "SIS50" price without an `originalPrice` would give NaN and is not representable. The hook's `price × quantity` on the string price "SIS50" is not representable either.
- The storefront's menu filtering (`filteredItems`, FoodyZone.jsx lines 293-303) and its search/category state. These are display filters.
- `showCart` toggling. It only controls display.
- FoodyZone.jsx:784-824. This is module-level code calling a `services/api` module that is not part of this model.
- `fetchCartItems`. The thunk's body is a network fetch; only its pending/fulfilled/rejected transitions are modelled.
- Other files not modelled: the authentication context, the order tracker, the admin page, the order confirmation page, the header, the menu item card, the generic checkout form, the store wiring, the catalogue data and the setup script. They are network code, display-only code or static code.
- Unresolved references are not modelled.
  - MenuItem's `updateQuantity` and `validateCustomizations` (MenuItem.jsx lines 196, 203, 228) have no definition in view.
  - The hook's `addItem`/`removeItem` are not provided by the context shown. `UseCart.AddToCart` emits them as effects with no behaviour.
- Promo.ToUpper: upper-cases ASCII letters only. JavaScript's full Unicode case mapping is not modelled.
- UTF-16 lengths. Lengths (the 19/5/4 field widths, the 16-digit count, the 3-character name) count Unicode scalar values, not UTF-16 code units. They differ only for characters outside the Basic Multilingual Plane.
- Input `maxLength` attributes on the card fields. The formatters already cut to width.
- JavaScript object key order. The model keeps insertion order, but integer-like keys would be ordered first.
- MenuItem.Card.HandleCustomizationChange: the `TypeError` on a missing option or choice is thrown inside a state updater during rendering. The model reports it as an outcome of the call and stores nothing.
- Checkout.Press: a form's continue/pay control is pressed as its `onNext` callback. Whether the form lets the press through is stated separately by the forms' `HandleSubmit` methods, so runs may contain presses a form would refuse.
- The pages' `storage` map holds only strings. The saved cart's JSON encoding is not modelled, and `OrderSummary.Summary.Mount` takes the parsed cart as an optional value.

## Findings

| source | as written | input that shows it | evidently intended | confidence | as-written member | corrected member |
|---|---|---|---|---|---|---|
| src/components/FoodyZone.jsx:203-215 | the map callback calls `removeFromCart(id)` and returns the unchanged entry, and the outer `setCart(mapped)` then overwrites the queued removal, so minus at quantity 1 does nothing | a cart holding one entry of quantity 1, `updateQuantity(id, -1)` | the entry is removed when its quantity would fall below 1 | not executed | FoodyZone.MinusAtOneIsNoOp | FoodyZone.UpdateQuantityIntendedEffect |
| src/components/checkout/pages/Checkout.jsx:32-39 | `completeOrder` runs only on next at step 4, but the step-4 content renders no control that calls next, so paying shows the confirmation with no order id, never marks the order completed and never removes the saved cart | continue on delivery, continue on review, pay | paying (next on step 3) completes the order: id set, completed, saved cart removed | not executed | Checkout.NeverCompletes | Checkout.IntendedConfirms |
