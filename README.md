# ChiefTain storefront rules, modelled in Dafny

A model of the client-side rules of the ChiefTain laptop storefront, a React
single-page shop. Rendering and the HTTP layer are left out. What remains is
the business logic the components and contexts carry:

- **Cart store** (`CartContext`). A reducer over `{ cart, loading }` and a
  provider whose methods call the cart service. Every successful mutation
  installs the cart the server returned, and a failure dispatches nothing and
  is rethrown. `CartIsLastServerCart` proves the write-through rule for any
  sequence of dispatches: the cart held is always the one the server handed
  over last.
- **Session store** (`AuthContext`). A reducer over
  `{ user, isAuthenticated, loading }` and a provider that keeps the stored
  token as a field. It covers the startup check, login, signup and logout.
  SET_ERROR falls to the default branch. `isAuthenticated` agrees with
  `user != null` on every run whose SET_USER payloads are non-null.
- **Checkout page** (`CheckoutPage`). The shipping → payment → review step
  machine. The review is reachable only through the payment step, and the
  payment step only through the shipping step. The order request carries only
  the address and the payment method. The cart is cleared only once the order
  exists.
- **Pricing rule** (`OrderSummary`, `CheckoutForm`). Shipping is free strictly
  above 10000, tax is 14% and the total is their sum. The rule is written
  twice in the code, and the two copies are proved equal. The total drops
  when the subtotal crosses the threshold: 10000 costs 11900 and 10001 costs
  11401.14. At exactly 10000 the customer gets neither free shipping nor the
  hint.
- **Quantity controls** (`QuantityAdjuster`, `CartItemView`). The buttons keep
  a quantity inside [1, stock], and a requested quantity of 0 becomes a
  removal.
- **Order statuses** (`OrderManagement`, `Helpers`). `getNextStatus` treats
  CANCELLED as "before PLACED". The two colour maps group the statuses in the
  same way.
- **Catalog filters** (`ProductFilters`). The checkbox toggles append, filter
  out, and store an empty list as undefined. The price bounds are normalised.
- **Validators** (`Validators`, `Helpers`). The form validators, and the
  e-mail and phone regular expressions written out literally and proved equal
  to their characterisations.
- **Guarded submit handlers** (`SignupForm`, `SignupPage`, `ReviewForm`).
  These are the submit handlers and the order of their guards. The sign-up
  page has no length check while the sign-up form does; `SignupPage.PageAcceptsWhatFormRefuses`
  states the difference.
- **Admin dashboard** (`AdminPanel`). Revenue sums and filtered counts.

Backend calls are inputs. Each handler takes the server's answer as a
`Reply<T>`: `Ok(value)` or `Err(message)`, where the message is
`err.response?.data?.message`. A rethrown error comes back as a `Status`.
The browser's token storage is a field. Toasts, alerts and navigation are
fields or out-parameters. The clock and the random number in
`generateOrderNumber` are parameters. Amounts are exact reals.

The code does not always match its description, and the model follows the
code in these cases:
- `SignupPage` checks no password length, unlike the form component.
- `handleShippingSubmit` stores the address without checking it.
- The free-shipping hint names an amount that, once added, still pays the
  shipping fee.
- Lengths are JavaScript's `.length`, UTF-16 code units (`Text.Utf16Length`):
  a character outside the Basic Multilingual Plane counts twice, so
  "Ab1" followed by three emoji is long enough for the 8-unit password rules.

The one place where the model assumes working code instead is the checkout
shipping step (see "## Left out").

## Model

| member | source | states |
|---|---|---|
| Backend.ErrorText | src/pages/CheckoutPage.tsx:65 | `message \|\| fallback`: a non-empty server message is the text shown; a missing or empty one falls back |
| Text.Utf16Length | src/utils/validators.ts:19 | `.length` counts UTF-16 code units: between the number of characters and twice it, and 0 only for "" |
| Text.Utf16LengthConcat | src/utils/validators.ts:19 | code-unit lengths add up over concatenation |
| Text.BmpLengthIsSize | src/utils/validators.ts:19 | for text inside the Basic Multilingual Plane the code-unit length is the number of characters |
| Text.AstralCharactersCountTwice | src/utils/validators.ts:35 | "Ab1" followed by three emoji has 6 characters and 9 code units |
| Text.Trim | src/utils/validators.ts:2 | `trim()` returns a slice of the input with only whitespace cut from either end, and it neither starts nor ends with whitespace |
| Text.TrimEmptyIffBlank | src/utils/validators.ts:2 | a string trims to "" exactly when every character of it is whitespace |
| Text.TrimIdempotent | src/components/dashboard/user/ReviewForm.tsx:33 | trimming the trimmed comment changes nothing |
| Text.IndexOf | src/components/dashboard/admin/OrderManagement.tsx:55 | `indexOf` gives -1 exactly when the value is absent, else the first index holding it |
| Text.NatToString | src/utils/helpers.ts:34 | `toString()` of a non-negative integer is its decimal digits with no leading zero, at most 3 digits below 1000 |
| Text.ParseNatToString | src/utils/helpers.ts:34 | reading the printed digits back gives the number printed |
| Text.PadStart | src/utils/helpers.ts:35 | `padStart` ends in the input, reaches the width exactly, and fills only with the pad character |
| Text.PadStartZerosKeepsValue | src/utils/helpers.ts:35 | zero-padding a digit string keeps its value |
| Types.LineTotalStep | src/components/cart/CartItem.tsx:76 | one more unit on a line adds exactly one unit price to the line total |
| CartContext.CartReducer | src/context/CartContext.tsx:13-28 | `cartReducer`; its cases are stated by SetCartInstalls, SetLoadingOnlyLoading, ItemActionsReplaceCart and ClearCartEmpties, and its runs by CartIsLastServerCart |
| CartContext.CartIsLastServerCart | src/context/CartContext.tsx:13-28 | after any sequence of dispatches the cart is the last one a SET_CART/ADD_ITEM/REMOVE_ITEM/UPDATE_QUANTITY carried (none after CLEAR_CART); no cart is computed locally |
| CartContext.RunSnoc | src/context/CartContext.tsx:36 | dispatching one more action applies the reducer once more to the state reached |
| CartContext.SetCartInstalls | src/context/CartContext.tsx:15-16 | SET_CART installs its payload and always ends loading |
| CartContext.SetLoadingOnlyLoading | src/context/CartContext.tsx:17-18 | SET_LOADING changes only the loading flag |
| CartContext.ItemActionsReplaceCart | src/context/CartContext.tsx:19-22 | ADD_ITEM, REMOVE_ITEM and UPDATE_QUANTITY replace the cart with the payload and keep loading |
| CartContext.ClearCartEmpties | src/context/CartContext.tsx:23-24 | CLEAR_CART yields cart null, loading false, from any state |
| CartContext.CartProvider.constructor | src/context/CartContext.tsx:30-33 | the store starts with no cart and not loading |
| CartContext.CartProvider.Dispatch | src/context/CartContext.tsx:36 | the next state is the reducer applied to the current one |
| CartContext.CartProvider.FetchCart | src/context/CartContext.tsx:47-55 | dispatches SET_LOADING true, then SET_CART with the server cart, or SET_LOADING false keeping the old cart; loading ends false |
| CartContext.CartProvider.WriteThrough | src/context/CartContext.tsx:57-82 | on success one action carrying the returned cart, on failure nothing dispatched and the error rethrown |
| CartContext.CartProvider.AddToCart | src/context/CartContext.tsx:57-64 | sends the product and quantity; success installs the server cart and keeps loading, failure leaves the state as it was and rethrows |
| CartContext.CartProvider.RemoveFromCart | src/context/CartContext.tsx:66-73 | the same for removing a line |
| CartContext.CartProvider.UpdateQuantity | src/context/CartContext.tsx:75-82 | the same for a quantity change, with the quantity sent as given |
| CartContext.CartProvider.ClearCart | src/context/CartContext.tsx:84-91 | the store empties only after the server confirmed; a failure keeps the cart and rethrows |
| CartContext.CartProvider.OnUserChange | src/context/CartContext.tsx:39-45 | with no user the cart is cleared; with a user it is fetched |
| AuthContext.AuthReducer | src/context/AuthContext.tsx:13-32 | `authReducer`; its cases are stated by SetUserAndClearUser and SetLoadingAndSetError, and its runs by RunKeepsConsistent |
| AuthContext.RunKeepsConsistent | src/context/AuthContext.tsx:13-32 | from a consistent state, any run whose SET_USER payloads are non-null keeps `isAuthenticated` iff `user != null` |
| AuthContext.InitialStateConsistent | src/context/AuthContext.tsx:34-38 | the initial state is user null, not authenticated, loading, and consistent |
| AuthContext.NullUserBreaksConsistency | src/context/AuthContext.tsx:17-22 | a null SET_USER payload gives an authenticated session with no user |
| AuthContext.SetUserAndClearUser | src/context/AuthContext.tsx:17-28 | SET_USER sets the user, authenticated and not loading; CLEAR_USER resets to null/false/false |
| AuthContext.SetLoadingAndSetError | src/context/AuthContext.tsx:13-32 | SET_LOADING changes only loading; SET_ERROR reaches the default branch and changes nothing |
| AuthContext.AuthProvider.constructor | src/context/AuthContext.tsx:34-41 | the provider starts in the initial state with the token the browser holds |
| AuthContext.AuthProvider.Dispatch | src/context/AuthContext.tsx:41 | the next state is the reducer applied to the current one; the token is untouched |
| AuthContext.AuthProvider.CheckAuthStatus | src/context/AuthContext.tsx:47-60 | no token: only loading ends; token and user found: SET_USER; lookup failed: token removed and loading ends |
| AuthContext.AuthProvider.Authenticate | src/context/AuthContext.tsx:62-84 | loading on; success stores the token then sets the user; failure writes no token, ends loading, keeps the user and rethrows |
| AuthContext.AuthProvider.Login | src/context/AuthContext.tsx:62-72 | `login` with its credentials sent unchanged, as above |
| AuthContext.AuthProvider.Signup | src/context/AuthContext.tsx:74-84 | `signup` with its credentials sent unchanged, as above |
| AuthContext.AuthProvider.Logout | src/context/AuthContext.tsx:86-89 | the token is removed and the user cleared |
| CheckoutPage.Offered | src/pages/CheckoutPage.tsx:71-165 | the controls each step renders: shipping submits or goes back to the cart, payment selects or goes back, review goes back or places the order (used by StepMoves and the walk lemmas) |
| CheckoutPage.NextStep | src/pages/CheckoutPage.tsx:37-45 | the step each control leads to; StepMoves states the moves |
| CheckoutPage.StepMoves | src/pages/CheckoutPage.tsx:71-165 | through the controls each step shows, the page moves at most one step forward, and the only backward moves are payment→shipping and review→payment |
| CheckoutPage.WalkPrefixStep | src/pages/CheckoutPage.tsx:71-165 | a prefix of a walk is its first step followed by the prefix of the rest |
| CheckoutPage.ReviewOnlyViaPayment | src/pages/CheckoutPage.tsx:42-45 | every walk that reaches the review chose a payment method while on the payment step |
| CheckoutPage.PaymentOnlyViaShipping | src/pages/CheckoutPage.tsx:37-40 | every walk that leaves the shipping step submitted an address while on it |
| CheckoutPage.RedirectRule | src/pages/CheckoutPage.tsx:32-35 | the page redirects exactly for a null or empty cart, including the empty store a successful clear leaves |
| CheckoutPage.InitialAddress | src/pages/CheckoutPage.tsx:19-27 | the address starts from the user's name, e-mail and phone (or empty), with empty street and city and country Kenya |
| CheckoutPage.CheckoutPageState.constructor | src/pages/CheckoutPage.tsx:18-30 | the page starts on shipping, with MPESA, the initial address, not loading and no error |
| CheckoutPage.CheckoutPageState.HandleShippingSubmit | src/pages/CheckoutPage.tsx:37-40 | the address is stored as given and the step becomes payment |
| CheckoutPage.CheckoutPageState.HandlePaymentSubmit | src/pages/CheckoutPage.tsx:42-45 | the method is stored and the step becomes review |
| CheckoutPage.CheckoutPageState.BackToShipping | src/pages/CheckoutPage.tsx:86 | payment's back button returns to shipping |
| CheckoutPage.CheckoutPageState.BackToPayment | src/pages/CheckoutPage.tsx:156 | review's back button returns to payment |
| CheckoutPage.CheckoutPageState.BackToCart | src/pages/CheckoutPage.tsx:78 | the address form's back button navigates to the cart |
| CheckoutPage.CheckoutPageState.HandleOrderSubmit | src/pages/CheckoutPage.tsx:47-69 | the request carries only address and method; the cart is cleared only after the order exists; any failure shows the server message or the fallback and does not navigate; loading ends false |
| CheckoutPage.HappyPath | src/pages/CheckoutPage.tsx:37-69 | address, payment, then a successful order and clear leave the cart empty and the browser on the new order |
| OrderSummary.ShippingCost | src/components/checkout/OrderSummary.tsx:9 | free strictly above 10000, else 500; stated by ShippingStep |
| OrderSummary.Tax | src/components/checkout/OrderSummary.tsx:10 | 14% of the subtotal; stated with the total by TotalClosedForm |
| OrderSummary.Total | src/components/checkout/OrderSummary.tsx:11 | subtotal + shipping + tax; TotalClosedForm and TotalDropsJustAboveThreshold state its shape |
| OrderSummary.FreeShippingHint | src/components/checkout/OrderSummary.tsx:68-74 | the hint and its amount; stated by HintIffBelowThreshold |
| OrderSummary.Summarize | src/components/checkout/OrderSummary.tsx:9-74 | each line shows quantity × price, the subtotal is the cart total, tax is 14% of it, shipping is 0 above 10000 and 500 at or below, the total is subtotal + shipping + tax, and the hint appears exactly below 10000 with the amount 10000 − subtotal |
| OrderSummary.ShippingStep | src/components/checkout/OrderSummary.tsx:9 | shipping is 0 exactly above 10000 and 500 otherwise, so exactly 10000 pays 500 |
| OrderSummary.TotalDropsAtThreshold | src/components/checkout/OrderSummary.tsx:9-11 | a subtotal of 10000 totals 11900, and 10001 totals 11401.14, which is less |
| OrderSummary.TotalDropsJustAboveThreshold | src/components/checkout/OrderSummary.tsx:9-11 | every subtotal in (10000, 10000 + 500/1.14) costs less in total than 10000 |
| OrderSummary.TotalClosedForm | src/components/checkout/OrderSummary.tsx:9-11 | the total is 1.14 × subtotal above the threshold and 500 more at or below it |
| OrderSummary.HintIffBelowThreshold | src/components/checkout/OrderSummary.tsx:68-74 | the hint appears exactly below 10000 and names the positive shortfall |
| OrderSummary.HintedTopUpStillPaysShipping | src/components/checkout/OrderSummary.tsx:9-71 | adding the hinted amount lands on exactly 10000, which still pays shipping and shows no hint |
| CheckoutForm.CartShipping | src/components/checkout/CheckoutForm.tsx:9 | CartSummary's shipping; CartSummaryRule and SameAsOrderSummary state it |
| CheckoutForm.CartTax | src/components/checkout/CheckoutForm.tsx:10 | CartSummary's tax; stated by CartSummaryRule |
| CheckoutForm.CartTotal | src/components/checkout/CheckoutForm.tsx:11 | CartSummary's total; stated by CartSummaryRule |
| CheckoutForm.CartHint | src/components/checkout/CheckoutForm.tsx:45-51 | CartSummary's hint; stated by CartSummaryRule |
| CheckoutForm.SameAsOrderSummary | src/components/checkout/CheckoutForm.tsx:9-51 | for every cart, CartSummary shows the same shipping, tax, total and hint as OrderSummary |
| CheckoutForm.CartSummaryRule | src/components/checkout/CheckoutForm.tsx:9-51 | CartSummary: shipping 0 iff over 10000 else 500, tax 14%, total the sum, hint iff under 10000 with the shortfall |
| QuantityAdjuster.DecreaseQuantity | src/components/cart/QuantityAdjuster.tsx:14-18 | `decreaseQuantity` emits quantity−1 only above 1; EmittedWithinBounds and DisabledIffSilent state it |
| QuantityAdjuster.IncreaseQuantity | src/components/cart/QuantityAdjuster.tsx:20-24 | `increaseQuantity` emits quantity+1 only below the max; EmittedWithinBounds and DisabledIffSilent state it |
| QuantityAdjuster.DecreaseDisabled | src/components/cart/QuantityAdjuster.tsx:30 | the minus button's `disabled`; DisabledIffSilent ties it to the handler |
| QuantityAdjuster.IncreaseDisabled | src/components/cart/QuantityAdjuster.tsx:42 | the plus button's `disabled`; DisabledIffSilent ties it to the handler |
| QuantityAdjuster.DisabledIffSilent | src/components/cart/QuantityAdjuster.tsx:14-42 | each button is disabled exactly when its handler would emit nothing |
| QuantityAdjuster.EmittedWithinBounds | src/components/cart/QuantityAdjuster.tsx:14-24 | a decrease emits quantity−1 ≥ 1, an increase quantity+1 ≤ max |
| QuantityAdjuster.ClicksStayInRange | src/components/cart/QuantityAdjuster.tsx:14-24 | from inside [1, max], no series of clicks leaves it, so 0 is never reached |
| QuantityAdjuster.ClicksNeverRaiseAboveStock | src/components/cart/QuantityAdjuster.tsx:20-24 | from a quantity above the stock, clicks never raise it |
| CartItemView.AdjusterMax | src/components/cart/CartItem.tsx:59-63 | the adjuster's bound is the product's stock; AdjusterNeverRemoves uses it |
| CartItemView.QuantityChangeCall | src/components/cart/CartItem.tsx:22-29 | 0 calls removeFromCart(item.id) and never updateQuantity; any other value goes to updateQuantity unchanged |
| Types.LineTotal | src/components/cart/CartItem.tsx:76 | the line total shown is quantity × unit price, never negative for a non-negative quantity and price; `LineTotalStep` gives its growth per unit |
| CartItemView.AdjusterNeverRemoves | src/components/cart/CartItem.tsx:59-63 | with the stock as the bound, nothing the adjuster emits for a positive quantity removes the line or exceeds the stock |
| CartItemView.HandleRemove | src/components/cart/CartItem.tsx:14-20 | removes the line; a failure is swallowed and leaves the store as it was |
| CartItemView.HandleQuantityChange | src/components/cart/CartItem.tsx:22-33 | routes 0 to removal and other values to an update; errors never propagate |
| OrderManagement.GetStatusColor | src/components/dashboard/admin/OrderManagement.tsx:35-51 | `getStatusColor`; StatusColorClasses, BadgesByHue and ColorMapsAgree state its grouping |
| OrderManagement.GetNextStatus | src/components/dashboard/admin/OrderManagement.tsx:53-57 | the next status is always in the flow, so never CANCELLED, and there is none only for DELIVERED |
| OrderManagement.MarkAsLabel | src/components/dashboard/admin/OrderManagement.tsx:147-154 | the "Mark as" button; stated by MarkAsOfferedIffNext |
| OrderManagement.StatusColorClasses | src/components/dashboard/admin/OrderManagement.tsx:35-51 | CONFIRMED and PACKED share yellow, PLACED and unknown strings are gray, CANCELLED red, SHIPPED blue, DELIVERED green |
| OrderManagement.ColorMapsAgree | src/components/dashboard/admin/OrderManagement.tsx:35-51 | two status strings share a badge in the admin map exactly when they share one in `getOrderStatusColor` |
| OrderManagement.BadgesByHue | src/components/dashboard/admin/OrderManagement.tsx:35-51 | both colour maps pick their badge from the same colour family of the status string |
| OrderManagement.BadgesDistinct | src/utils/helpers.ts:15-31 | in each map, different colour families give different badges |
| OrderManagement.OneStepCloser | src/components/dashboard/admin/OrderManagement.tsx:53-57 | only DELIVERED has no next status; every other status moves one step closer to DELIVERED and never to CANCELLED |
| OrderManagement.NextStatusFollowsFlow | src/components/dashboard/admin/OrderManagement.tsx:53-57 | each status of the flow moves to the next entry, and the last has none |
| OrderManagement.NextStatusTable | src/components/dashboard/admin/OrderManagement.tsx:53-57 | PLACED→CONFIRMED→PACKED→SHIPPED→DELIVERED→null, CANCELLED→PLACED |
| OrderManagement.CancelledGoesToPlaced | src/components/dashboard/admin/OrderManagement.tsx:54-56 | CANCELLED has index −1, so its next status is PLACED |
| OrderManagement.NeverCancelled | src/components/dashboard/admin/OrderManagement.tsx:53-57 | the next status is never CANCELLED and is null only for DELIVERED |
| OrderManagement.PlacedReachesDeliveredInFour | src/components/dashboard/admin/OrderManagement.tsx:53-57 | from PLACED, DELIVERED takes exactly 4 steps and a fifth gives null |
| OrderManagement.EveryStatusEndsDelivered | src/components/dashboard/admin/OrderManagement.tsx:53-57 | every status reaches DELIVERED after a fixed number of steps, never passes CANCELLED, and stops there |
| OrderManagement.ReplaceFirstUnderscore | src/components/dashboard/admin/OrderManagement.tsx:152 | `replace('_', ' ')`: the first underscore becomes a space and every other character is kept, so a string without one is unchanged |
| OrderManagement.MarkAsOfferedIffNext | src/components/dashboard/admin/OrderManagement.tsx:147-154 | "Mark as" is offered iff there is a next status and names it, so CANCELLED offers "Mark as PLACED" |
| OrderManagement.NamesHaveNoUnderscore | src/types/order.types.ts:35-41 | no status name contains an underscore |
| OrderManagement.PaymentStatusColor | src/components/dashboard/admin/OrderManagement.tsx:136-140 | green iff completed, yellow iff pending, red for a failed payment |
| Helpers.GetOrderStatusColor | src/utils/helpers.ts:15-31 | `getOrderStatusColor`; OrderStatusColorClasses and BadgesByHue state its grouping |
| Helpers.ValidateEmail | src/utils/helpers.ts:39-42 | the characterisation of an address; ValidateEmailIsRegex proves it equal to the pattern |
| Helpers.ValidatePhone | src/utils/helpers.ts:44-47 | the characterisation of a phone number; ValidatePhoneIsRegex proves it equal to the pattern |
| Helpers.OrderStatusColorClasses | src/utils/helpers.ts:15-31 | CONFIRMED and PACKED share yellow; PLACED and every unknown string share gray |
| Helpers.RandomSuffix | src/utils/helpers.ts:35 | `Math.floor(random * 1000)` is in [0, 999] |
| Helpers.GenerateOrderNumber | src/utils/helpers.ts:33-37 | "ORD-", the timestamp digits, "-", then exactly 3 digits whose value is the random suffix |
| Helpers.OrderNumberRoundTrip | src/utils/helpers.ts:33-37 | parsing an order number gives back its timestamp and suffix |
| Helpers.OrderNumberInjective | src/utils/helpers.ts:33-37 | equal order numbers come from equal timestamps and suffixes |
| Helpers.RegexImpliesValidateEmail | src/utils/helpers.ts:39-42 | every string the pattern matches has no whitespace, one "@" with text before it, and an interior "." after it |
| Helpers.ValidateEmailImpliesRegex | src/utils/helpers.ts:39-42 | every string with those properties is matched by the pattern |
| Helpers.ValidateEmailIsRegex | src/utils/helpers.ts:39-42 | `validateEmail` accepts exactly the strings the pattern matches |
| Helpers.EmptyIsNotEmail | src/utils/helpers.ts:39-42 | the empty string is rejected |
| Helpers.ValidatePhoneIsRegex | src/utils/helpers.ts:44-47 | the phone pattern matches exactly: one optional "+", then ≥ 10 digits, whitespace, "-", "(" or ")" |
| Validators.Required | src/utils/validators.ts:1-6 | `required` on strings; stated by RequiredIffBlank |
| Validators.Email | src/utils/validators.ts:8-16 | `email`; stated by EmailAgreesWithValidateEmail |
| Validators.Password | src/utils/validators.ts:32-52 | `password`; stated by PasswordPassesIff and PasswordCheckOrder |
| Validators.RequiredIffBlank | src/utils/validators.ts:1-6 | `required` errors iff the string is empty or whitespace-only |
| Validators.EmailAgreesWithValidateEmail | src/utils/validators.ts:8-16 | for a non-empty value, `email` passes iff `validateEmail` does, iff the pattern matches |
| Validators.MinLength | src/utils/validators.ts:18-23 | errors iff non-empty and shorter than min in UTF-16 code units, with the min in the message |
| Validators.MaxLength | src/utils/validators.ts:25-30 | errors iff non-empty and longer than max in UTF-16 code units, with the max in the message |
| Validators.EmptyPassesLengthChecks | src/utils/validators.ts:18-30 | the empty value passes both length checks |
| Validators.PasswordPassesIff | src/utils/validators.ts:32-52 | `password` passes iff empty or at least 8 UTF-16 code units long with a lower-case letter, an upper-case letter and a digit |
| Validators.PasswordCheckOrder | src/utils/validators.ts:32-52 | each message is returned exactly when its check is the first to fail, in the order length (in UTF-16 code units), lower, upper, digit |
| Validators.ConfirmPassword | src/utils/validators.ts:54-59 | errors iff the value differs from the password, so two empty strings pass |
| ProductFilters.HandleCategoryChange | src/components/products/ProductFilters.tsx:24-34 | `handleCategoryChange`; TogglesTouchOnlyTheirField, ToggleList and its lemmas state it |
| ProductFilters.HandleBrandChange | src/components/products/ProductFilters.tsx:36-46 | `handleBrandChange`; stated by TogglesTouchOnlyTheirField |
| ProductFilters.HandleConditionChange | src/components/products/ProductFilters.tsx:48-58 | `handleConditionChange`; stated by TogglesTouchOnlyTheirField |
| ProductFilters.HasActiveFilters | src/components/products/ProductFilters.tsx:73-75 | `hasActiveFilters`; stated by ActiveIffNotEmpty |
| ProductFilters.Without | src/components/products/ProductFilters.tsx:28 | the id is gone and every other id keeps its multiplicity |
| ProductFilters.WithoutConcat | src/components/products/ProductFilters.tsx:28 | filtering distributes over concatenation, so the kept ids stay in order |
| ProductFilters.WithoutAbsent | src/components/products/ProductFilters.tsx:28 | filtering out an absent id changes nothing |
| ProductFilters.WithoutIdempotent | src/components/products/ProductFilters.tsx:28 | filtering twice is filtering once |
| ProductFilters.ToggleList | src/components/products/ProductFilters.tsx:24-33 | check appends the id at the end; uncheck filters it out; an empty result is stored as undefined, never `[]` |
| ProductFilters.CheckAppendsWithoutDedup | src/components/products/ProductFilters.tsx:24-27 | checking keeps the old list as a prefix and adds one more occurrence, even of an id already present |
| ProductFilters.UncheckRemovesAll | src/components/products/ProductFilters.tsx:28 | unchecking removes every occurrence and keeps the other ids |
| ProductFilters.CheckThenUncheckRestores | src/components/products/ProductFilters.tsx:24-33 | for a new id, uncheck after check restores the field, with empty normalised to undefined |
| ProductFilters.UncheckIdempotent | src/components/products/ProductFilters.tsx:24-33 | unchecking twice is unchecking once |
| ProductFilters.TogglesTouchOnlyTheirField | src/components/products/ProductFilters.tsx:24-58 | each toggle changes only its own list, and the brand and condition toggles behave exactly like the category toggle |
| ProductFilters.InitialRange | src/components/products/ProductFilters.tsx:16-19 | the range starts at `minPrice \|\| 0` and `maxPrice \|\| 100000`, so a 0 maximum falls back |
| ProductFilters.ApplyPrice | src/components/products/ProductFilters.tsx:60-66 | minPrice is kept iff > 0, maxPrice iff < 100000, all other fields preserved |
| ProductFilters.ApplyThenReadBack | src/components/products/ProductFilters.tsx:16-66 | a range within [0, 100000] with a positive maximum survives being applied and read back |
| ProductFilters.ZeroMaxReadsBackUnbounded | src/components/products/ProductFilters.tsx:16-66 | a maximum of 0 is applied as a bound but reads back as 100000 |
| ProductFilters.ActiveIffNotEmpty | src/components/products/ProductFilters.tsx:73-75 | some filter is active exactly when the filter is not `{}` |
| ProductFilters.FilterPanel.constructor | src/components/products/ProductFilters.tsx:16-19 | the panel starts with the initial range of the filters |
| ProductFilters.FilterPanel.SetMin | src/components/products/ProductFilters.tsx:122 | typing the minimum changes only the minimum |
| ProductFilters.FilterPanel.SetMax | src/components/products/ProductFilters.tsx:134 | typing the maximum changes only the maximum |
| ProductFilters.FilterPanel.HandlePriceChange | src/components/products/ProductFilters.tsx:60-66 | emits the filters with the normalised bounds of the current range |
| ProductFilters.FilterPanel.ClearAllFilters | src/components/products/ProductFilters.tsx:68-71 | resets the range to [0, 100000] and emits `{}`, which has no active filter |
| ProductFilters.ClearedRangeAppliesNothing | src/components/products/ProductFilters.tsx:60-71 | applying the cleared range sets no price bound |
| AdminPanel.TotalRevenue | src/components/dashboard/admin/AdminPanel.tsx:37 | the `reduce` over order amounts; RevenueConcat and RevenueNonNegative state it |
| AdminPanel.RevenueConcat | src/components/dashboard/admin/AdminPanel.tsx:37 | revenue adds up over any split of the orders |
| AdminPanel.RevenueNonNegative | src/components/dashboard/admin/AdminPanel.tsx:37 | revenue is non-negative when every order amount is |
| AdminPanel.PendingOrders | src/components/dashboard/admin/AdminPanel.tsx:41 | the pending orders are the PLACED or CONFIRMED ones, each as many times as in the input, and nothing else |
| AdminPanel.LowStockProducts | src/components/dashboard/admin/AdminPanel.tsx:42 | the low-stock products are those with stock < 10, each as many times as in the input, and nothing else |
| AdminPanel.LowStockConcat | src/components/dashboard/admin/AdminPanel.tsx:42 | the low-stock filter distributes over concatenation, so it keeps the input order |
| AdminPanel.PendingConcat | src/components/dashboard/admin/AdminPanel.tsx:41 | the pending filter distributes over concatenation |
| AdminPanel.AllPendingIffCountIsTotal | src/components/dashboard/admin/AdminPanel.tsx:41 | the pending count equals the order count iff every order is pending |
| AdminPanel.ComputeStats | src/components/dashboard/admin/AdminPanel.tsx:36-43 | totalRevenue is the sum of the order amounts, totalOrders and totalProducts the list lengths, pendingOrders and lowStockProducts the sizes of the filtered lists (so at most the totals), users 1243 |
| AdminPanel.CountCard | src/components/dashboard/admin/AdminPanel.tsx:63-91 | a count card shows "0" before any stats and otherwise the canonical decimal of the count: digits that read back as it, with no leading zero |
| AdminPanel.ChangeColor | src/components/dashboard/admin/AdminPanel.tsx:135-137 | a change label is green iff it starts with "+", red otherwise |
| AdminPanel.OnlyPendingCardIsRed | src/components/dashboard/admin/AdminPanel.tsx:53-96 | of the six fixed change labels only the Pending Orders one is red |
| AdminPanel.AdminPanelState.constructor | src/components/dashboard/admin/AdminPanel.tsx:18-19 | no stats yet, loading |
| AdminPanel.AdminPanelState.FetchDashboardStats | src/components/dashboard/admin/AdminPanel.tsx:26-51 | with both lists fetched the stats are computed from them; if either fetch fails the old stats stay; loading ends false |
| SignupForm.CheckPasswords | src/components/auth/SignupForm.tsx:28-38 | the two checks of `handleSubmit`; stated by CheckPasswordsOrder |
| SignupForm.CheckPasswordsOrder | src/components/auth/SignupForm.tsx:28-38 | passes iff the confirmation matches and the password has at least 8 UTF-16 code units; a mismatch is reported before a short password |
| SignupForm.EightCharactersIsEnough | src/components/auth/SignupForm.tsx:34-38 | 7 code units are refused and 8 pass, so "Ab1" plus three emoji (6 characters, 9 code units) passes |
| SignupForm.AgreesWithValidators | src/components/auth/SignupForm.tsx:28-38 | the form's checks agree with `minLength(8)` and `confirmPassword` on every non-empty password |
| SignupForm.SetFieldOnlyThatField | src/components/auth/SignupForm.tsx:50-56 | a change writes the named credential and no other |
| SignupForm.SignupFormState.constructor | src/components/auth/SignupForm.tsx:12-21 | empty credentials and confirmation, not loading, no error |
| SignupForm.SignupFormState.HandleChange | src/components/auth/SignupForm.tsx:50-56 | updates the named credential only |
| SignupForm.SignupFormState.SetConfirmPassword | src/components/auth/SignupForm.tsx:166 | updates the confirmation only |
| SignupForm.SignupFormState.HandleSubmit | src/components/auth/SignupForm.tsx:23-48 | clears the old error; a failed check shows its message without calling signup; otherwise signup gets the credentials without the confirmation, and a failure shows the server message or the fallback; loading ends false |
| SignupPage.Guard | src/pages/SignupPage.tsx:22-30 | the two guards of `handleSubmit`; stated by GuardOrder |
| SignupPage.GuardOrder | src/pages/SignupPage.tsx:22-30 | refuses exactly on a mismatch or unticked terms, mismatch first, with no length check |
| SignupPage.Strip | src/pages/SignupPage.tsx:34 | the credentials are the form's fields without confirmPassword and agreeTerms |
| SignupPage.PageAcceptsWhatFormRefuses | src/pages/SignupPage.tsx:19-35 | a matching password under 8 UTF-16 code units with terms ticked passes the page but not the form |
| SignupPage.ShortPasswordWitness | src/pages/SignupPage.tsx:19-35 | "abc" typed twice is such a password |
| SignupPage.SetFieldOnlyThatField | src/pages/SignupPage.tsx:45-48 | a change stores `checked` for the checkbox and `value` otherwise, in the named field only |
| SignupPage.SignupPageState.constructor | src/pages/SignupPage.tsx:12-17 | empty form, terms unticked, not loading |
| SignupPage.SignupPageState.HandleChange | src/pages/SignupPage.tsx:45-48 | updates the named field only |
| SignupPage.SignupPageState.HandleSubmit | src/pages/SignupPage.tsx:19-43 | a refused submit toasts and does not touch loading or call signup; an accepted one sends the stripped credentials, toasts the outcome, navigates only on success and ends not loading |
| ReviewForm.RatingLabel | src/components/dashboard/user/ReviewForm.tsx:80-83 | the label under the stars; stated by RatingLabelMap |
| ReviewForm.RatingLabelMap | src/components/dashboard/user/ReviewForm.tsx:80-83 | 5 Excellent, 4 Good, 3 Average, 2 Poor, anything else Very Poor |
| ReviewForm.FilledStars | src/components/dashboard/user/ReviewForm.tsx:64-77 | at most five stars are filled |
| ReviewForm.ClickedStarsFilled | src/components/dashboard/user/ReviewForm.tsx:64-77 | after clicking star k exactly k stars are filled |
| ReviewForm.ReviewFormState.constructor | src/components/dashboard/user/ReviewForm.tsx:19-21 | rating 5, empty comment, not loading |
| ReviewForm.ReviewFormState.SetRating | src/components/dashboard/user/ReviewForm.tsx:68 | a star click sets the rating only |
| ReviewForm.ReviewFormState.SetComment | src/components/dashboard/user/ReviewForm.tsx:96 | typing sets the comment only |
| ReviewForm.ReviewFormState.HandleSubmit | src/components/dashboard/user/ReviewForm.tsx:23-41 | a blank comment alerts and submits nothing; otherwise the rating and the trimmed comment are submitted; success resets to "" and 5, failure keeps both |

## Left out

- The checkout shipping step as written: `CheckoutPage.tsx` imports the default
  export of `CheckoutForm.tsx` (line 7), which is the `CartSummary` price
  panel, and renders it with `address`, `onSubmit` and `onBack` but no `cart`
  (lines 75-79). `cart.totalAmount` (`CheckoutForm.tsx:9`) then throws on the
  shipping step, so as written that step has no controls at all. The model
  assumes a working address form wired to `handleShippingSubmit` and to
  `navigate('/cart')` (`CheckoutPage.Offered`, `BackToCart`); it does not
  capture the crash.
- Text.PadStart: its width counts characters, not UTF-16 code units; it is
  only applied to decimal digits, where the two agree.
- HTML constraint validation: the browser refuses to submit a form while an
  input marked `required` is empty (SignupForm.tsx:76, 93, 111, 144, 164 and
  177, the `required: true` entries of SignupPage.tsx:56-78, ReviewForm.tsx:99).
  The handlers are modelled as if called directly, so they accept submissions
  the page never delivers, such as an empty first name or two empty passwords.
- Rendering: JSX, Tailwind classes and icons. The presentational components
  are not part of this model, apart from the conditions that decide what a
  control offers.
- HTTP clients: `cartService`, `orderService`, `productServices`,
  `authService` and `api` are replaced by the `Reply` each handler receives.
  AuthContext.tsx imports `authService` with `import type` (line 4), and
  AdminPanel.tsx imports `productService` from a path that does not match
  `productServices.ts`. The model treats both as working services.
- `localStorage` is the `token` field. `navigate`, `toast` and `alert` are
  fields or results. `console.error` is dropped.
- Async interleaving: each handler runs as one step. The components do no
  in-flight guarding or cancellation, and the model invents none. This
  includes the race in CheckoutPage between the render-time redirect that an
  emptied cart triggers (lines 32-35) and the navigation after `clearCart`.
  `RedirectRule` states only that the emptied store would redirect.
- React state batching: setters inside one handler are applied in order.
- Floating point: amounts, tax and totals are exact reals. Rounding of
  `* 0.14`, `toLocaleString` and `formatCurrency`/`formatDate` are not
  modelled.
- `Number(e.target.value)` in the price inputs: the value typed is taken as a
  real. NaN from non-numeric text is not modelled.
- `required` on non-string values (numbers, null): only strings are modelled.
- `minLength`/`maxLength` with a non-integer bound: the bound is an integer.
- Validators.Password: the lookahead tests `(?=.*[a-z])` and the like are
  modelled as "contains such a character". That is what an unanchored test
  computes, because the lookahead may start at any position.
- The cart totals (`totalAmount`, `totalItems`) come from the server. The
  client never computes them, so their consistency with the lines is not a
  property of this code.
- SignupPage.SetField: the page's only checkbox is the terms box, so the
  event type is derived from the field. A checkbox event aimed at a text field
  cannot occur in the rendered page and is not modelled.
- OrderManagement's `fetchOrders`/`updateOrderStatus` only set component
  state from the server's answer. They are not part of this model beyond the
  offered action.
- `src/types/auth.types.ts` is not part of this model. The credential shapes
  follow the state objects of SignupForm and LoginForm.
