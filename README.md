# Storefront cart, wishlist and login rules in Dafny

This project models the client-side state logic of a Next.js storefront:

- **The cart provider** (`src/context/CartContext.js`). It covers:
  - the `getItemId` key, where `_id` wins over `id`;
  - the pure `cartReducer`, with ADD_TO_CART merging by addition and appending new keys, REMOVE_FROM_CART, UPDATE_QUANTITY where zero or less means remove, CLEAR_CART, and unknown actions;
  - the `addToCart` quantity clamp;
  - `cartCount`;
  - the provider's mirror of the cart under the `"cart"` key of local storage.
- **The wishlist provider** (`src/context/WishlistContext.js`). A guest's list lives in local storage under `"guest_wishlist"`. A signed-in user's list is re-fetched from the backend after every successful change. The model covers `normalizeId`, add, remove, toggle, `isInWishlist`, the guest load and `syncWithBackend`.
- **The cart sidebar's helpers** (`src/components/layout/CartSidebar.jsx`): image path normalisation, the line price and the subtotal, the quantities sent by the minus and plus buttons, and the handler for storage events on the `"cart"` key.
- **The login page's identifier classifier** (`src/app/auth/login/page.js`): email or ten-digit phone on the trimmed text, the placeholder and icon it selects, and the submit-disabled rule.

Layout:

- `options.dfy`: module `Options`, the `Option` type used for absent JavaScript values.
- `cart_context.dfy`: module `CartContext`. The reducer is written as functions over `seq<Line>`. The provider is the class `CartProvider`, with fields `cart` and `stored`.
- `wishlist_context.dfy`: module `WishlistContext`. The pure list helpers are functions. The provider is the class `WishlistProvider`, with fields `signedIn`, `hasToken`, `wishlist` and `stored`. Its invariant `Valid()` says that, while no user is signed in, a saved guest list is the list in memory; every method keeps it.
- `cart_sidebar.dfy`: module `CartSidebar`.
- `login_page.dfy`: module `LoginPage`.

Modelling conventions:

- **Falsy fields.** A missing or empty string field is `""`, and a missing number is `0`. So `x || y` on strings is "`x` unless it is `""`", and `q || 1` is `OrOne(q)`.
- **Wishlist entries.** An entry `{_id}` is modelled as the id string itself.
- **Backend outcomes.** The outcome of a backend request (`CallOutcome`) and of the re-fetch that follows it (`FetchOutcome`) are parameters of the wishlist methods.
- **Local storage.** A provider's `stored` field is local storage. The JSON round trip is taken to be lossless.
- **Effects.** A React effect that follows a state change is folded into the method that makes the change.

## Model

| member | source | states |
|---|---|---|
| CartContext.ItemId | src/context/CartContext.js:8 | the key is `_id` when present, else `id`; it is empty exactly when both are missing |
| CartContext.OrOne | src/context/CartContext.js:18 | the `or 1` default: a missing (zero) quantity becomes 1 and any non-zero quantity is kept, so the result is never zero |
| CartContext.FindIndex | src/context/CartContext.js:14 | `state.find`: the first line with the key, with no earlier match; none exactly when no line has the key |
| CartContext.SetQuantity | src/context/CartContext.js:39-43 | the map keeps the length; each line with the key gets the new quantity and every other line is unchanged |
| CartContext.Without | src/context/CartContext.js:29-32 | the filter keeps only lines from the cart, no line with the key remains, every other line stays, and an absent key changes nothing |
| CartContext.Add | src/context/CartContext.js:12-27 | a present key keeps the length and sets that line's quantity to old + added, where the added quantity is the payload's (1 if missing), other lines unchanged; an absent key appends the payload carrying the added quantity |
| CartContext.Reduce | src/context/CartContext.js:10-52 | CLEAR_CART gives the empty cart, an unknown action changes nothing, and every action keeps one line per key |
| CartContext.CartCount | src/context/CartContext.js:87 | the sum of quantities; with every quantity at least one it is at least the number of lines |
| CartContext.AddPayload | src/context/CartContext.js:68-75 | `addToCart` sends the product unchanged except its quantity: the quantity when positive, else 1, so always at least 1 |
| CartContext.WithoutKeepsUnique | src/context/CartContext.js:29-32 | REMOVE_FROM_CART keeps "one line per key" |
| CartContext.AddKeepsUnique | src/context/CartContext.js:12-27 | ADD_TO_CART keeps "one line per key" |
| CartContext.AddMergesExisting | src/context/CartContext.js:16-23 | with one line per key, adding the key of line k keeps the length, sets line k to old + added and leaves every other line in place |
| CartContext.AddAppendsNew | src/context/CartContext.js:26 | adding a new key appends exactly one line at the end, with the payload's quantity (1 if missing) |
| CartContext.MergeLaw | src/context/CartContext.js:12-27 | two adds of one new product give a single line at the end with the summed quantity; earlier lines are unchanged and keys stay unique |
| CartContext.RemoveDropsOnlyKey | src/context/CartContext.js:29-32 | after REMOVE_FROM_CART no line has the key and every line with another key is still there |
| CartContext.RemoveIdempotent | src/context/CartContext.js:29-32 | removing twice equals removing once; removing an absent key changes nothing |
| CartContext.RemoveKeepsOrder | src/context/CartContext.js:31 | filtering a concatenation is concatenating the filtered parts, so the order is kept |
| CartContext.UpdateNonPositiveIsRemove | src/context/CartContext.js:36-38 | UPDATE_QUANTITY with a quantity of 0 or less is REMOVE_FROM_CART |
| CartContext.UpdatePositiveNeverAdds | src/context/CartContext.js:39-43 | a positive UPDATE_QUANTITY keeps the length and the keys; a matching line changes only its quantity, to the new one; every line with another key is unchanged; an unknown key is a no-op |
| CartContext.ProviderKeepsQuantitiesPositive | src/context/CartContext.js:10-52 | with adds clamped as `addToCart` does, no action ever leaves a line with a quantity below 1 |
| CartContext.CountConcat | src/context/CartContext.js:87 | `cartCount` is additive over concatenation |
| CartContext.CountSetQuantity | src/context/CartContext.js:39-43 | with one line per key, setting line k's quantity changes the count by new − old |
| CartContext.CountWithout | src/context/CartContext.js:29-32 | with one line per key, removing line k's key lowers the count by exactly its quantity |
| CartContext.CountAfterAdd | src/context/CartContext.js:12-27 | with one line per key, ADD_TO_CART raises the count by exactly the payload's quantity (1 if missing), whether it merges or appends |
| CartContext.CartProvider.constructor | src/context/CartContext.js:55-65 | the initial cart is the saved cart, or empty when none is saved, and storage mirrors it |
| CartContext.CartProvider.Dispatch | src/context/CartContext.js:63-65 | the new cart is the reducer applied to the old one, and storage is rewritten to match |
| CartContext.CartProvider.AddToCart | src/context/CartContext.js:68-75 | dispatches the clamped product; keeps unique keys and positive quantities; raises the count by the clamped quantity |
| CartContext.CartProvider.RemoveFromCart | src/context/CartContext.js:77-79 | dispatches REMOVE_FROM_CART; the key is gone afterwards, and the invariants are kept |
| CartContext.CartProvider.UpdateQuantity | src/context/CartContext.js:81-83 | dispatches UPDATE_QUANTITY; a non-positive quantity leaves no line with the key, and a positive one keeps the length |
| CartContext.CartProvider.ClearCart | src/context/CartContext.js:85 | the cart and the stored copy are both empty |
| WishlistContext.NormalizeId | src/context/WishlistContext.js:60-61 | a string is its own id; an object gives `_id`, else `id`; the id is missing exactly for null, "" or an object with neither field |
| WishlistContext.Contains | src/context/WishlistContext.js:69 | `wishlist.some(p => p._id === id)` holds exactly when the id is a member |
| WishlistContext.Remove | src/context/WishlistContext.js:100 | the filter removes every copy of the id, keeps exactly the other ids, and changes nothing for an absent id |
| WishlistContext.IsInWishlist | src/context/WishlistContext.js:136-143 | true exactly when the id is non-empty and in the list |
| WishlistContext.RemoveKeepsNoDuplicates | src/context/WishlistContext.js:100 | removing keeps "no duplicate ids" |
| WishlistContext.AppendAbsentKeepsNoDuplicates | src/context/WishlistContext.js:69-73 | appending an id that is not present keeps "no duplicate ids" |
| WishlistContext.RemoveKeepsOrder | src/context/WishlistContext.js:100 | the filter keeps the order of the other ids |
| WishlistContext.Synced | src/context/WishlistContext.js:28-54 | the list sync leaves: unchanged without both a user and a token; otherwise the server's ids, or empty when the fetch failed |
| WishlistContext.SyncedDiscardsLocalList | src/context/WishlistContext.js:47 | once signed in, the synced list does not depend on the list held before, so guest entries are not merged |
| WishlistContext.SyncedIsStable | src/context/WishlistContext.js:28-54 | syncing again with the same server answer changes nothing |
| WishlistContext.AddThenRemoveRestores | src/context/WishlistContext.js:73-100 | a guest add of a new id followed by its removal restores the list |
| WishlistContext.WishlistProvider.constructor | src/context/WishlistContext.js:14-26 | starts empty, loads the saved guest list without a user, and fetches with a user and a token |
| WishlistContext.WishlistProvider.LoadGuest | src/context/WishlistContext.js:18-26 | without a user a saved guest list replaces the in-memory list; otherwise nothing changes; afterwards a signed-out provider's list equals its saved guest list whenever one is saved |
| WishlistContext.WishlistProvider.Sync | src/context/WishlistContext.js:28-54 | the list becomes `Synced` of the old one; storage is untouched and the guest-list invariant is kept |
| WishlistContext.WishlistProvider.SetAuth | src/context/WishlistContext.js:18-26 | on sign-out the saved guest list (if any) replaces the list; on sign-in the list is synced; while signed out, a change of token alone leaves the list unchanged, as the effect keyed on the user alone would |
| WishlistContext.WishlistProvider.AddToWishlist | src/context/WishlistContext.js:64-92 | each case: missing id ignored; a present id gives "already"; a guest append is written to storage; a failed call changes nothing; success re-syncs; a guest list keeps no duplicates |
| WishlistContext.WishlistProvider.RemoveFromWishlist | src/context/WishlistContext.js:95-119 | a guest remove filters the id out and writes storage; a failed call changes nothing; success re-syncs |
| WishlistContext.WishlistProvider.ToggleWishlist | src/context/WishlistContext.js:122-133 | a missing id is ignored; a member is removed and a non-member added, so a guest's membership flips |
| CartSidebar.ImageUrl | src/components/layout/CartSidebar.jsx:12-17 | fallback for a missing path, absolute URLs kept, `uploads/` paths and bare names put under the backend's uploads directory |
| CartSidebar.RawImage | src/components/layout/CartSidebar.jsx:21 | the first product image when it is non-empty, otherwise `image` |
| CartSidebar.ShownImage | src/components/layout/CartSidebar.jsx:21-22 | a line with no image shows the fallback; otherwise its URL ends with the first product image, or with `image` when there is none |
| CartSidebar.Price | src/components/layout/CartSidebar.jsx:117 | the discount price when set, otherwise the price |
| CartSidebar.Subtotal | src/components/layout/CartSidebar.jsx:121-124 | the sum of price × quantity (1 when missing); an empty cart has subtotal 0 |
| CartSidebar.LineTotal | src/components/layout/CartSidebar.jsx:118-119 | `getTotal` without formatting: price × quantity, a missing quantity counting as 1; never negative for a non-negative price and quantity |
| CartSidebar.IsEmpty | src/components/layout/CartSidebar.jsx:125 | empty exactly for the empty cart, which has subtotal 0 and count 0 |
| CartSidebar.MinusQuantity | src/components/layout/CartSidebar.jsx:62-68 | minus sends a quantity of 0 or less exactly when the line's quantity is at most 1; otherwise one less |
| CartSidebar.PlusQuantity | src/components/layout/CartSidebar.jsx:76-82 | plus sends one more than any non-zero quantity, including a negative one from a saved cart; a missing quantity shown as 1 sends 2; so plus never removes a line whose quantity is 0 or more |
| CartSidebar.OnStorage | src/components/layout/CartSidebar.jsx:106-110 | a "cart" event sets the visible cart to the new value, or to empty when there is none; other keys are ignored |
| CartSidebar.ImageUrlEndsWithPath | src/components/layout/CartSidebar.jsx:12-17 | a non-empty path is always a suffix of its URL |
| CartSidebar.UploadsPrefixIsOptional | src/components/layout/CartSidebar.jsx:15-16 | a relative path with or without `uploads/` gives the same URL |
| CartSidebar.ImageUrlIdempotent | src/components/layout/CartSidebar.jsx:12-17 | with an absolute backend URL, normalising a non-empty path twice is normalising it once |
| CartSidebar.SubtotalConcat | src/components/layout/CartSidebar.jsx:121-124 | the subtotal is additive over concatenation |
| CartSidebar.SubtotalSetQuantity | src/components/layout/CartSidebar.jsx:121-124 | with one line per key, changing line k's quantity changes the subtotal by the difference of its two line totals |
| CartSidebar.MinusOnSingleRemoves | src/components/layout/CartSidebar.jsx:62-68 | minus on a line showing 1 sends 0, which is REMOVE_FROM_CART, and no line with that key remains |
| CartSidebar.MinusOnSeveralDecrements | src/components/layout/CartSidebar.jsx:62-68 | minus on a quantity of at least 2 lowers only that line's quantity by one |
| CartSidebar.PlusAddsOneUnit | src/components/layout/CartSidebar.jsx:76-82 | plus raises the cart count by 1 and the subtotal by one unit price |
| LoginPage.TrimStart | src/app/auth/login/page.js:22 | a suffix of the text that starts with non-whitespace; only whitespace was dropped |
| LoginPage.TrimEnd | src/app/auth/login/page.js:22 | a prefix of the text that ends with non-whitespace; only whitespace was dropped |
| LoginPage.Trim | src/app/auth/login/page.js:22 | `trim()`: the result is a contiguous slice of the input with only whitespace before and after it, has no whitespace at either end, and holds the same non-whitespace characters |
| LoginPage.MatchesDigits | src/app/auth/login/page.js:26 | `/^\d{n}$/` holds exactly for n ASCII digits and nothing else |
| LoginPage.Classify | src/app/auth/login/page.js:20-28 | isEmail iff the trimmed text has `@`; isPhone iff it is exactly ten digits; never both; an absent identifier is neither |
| LoginPage.Placeholder | src/app/auth/login/page.js:88-94 | the email example iff isEmail, the phone example iff isPhone, otherwise the generic prompt |
| LoginPage.FieldIcon | src/app/auth/login/page.js:100 | the phone icon iff isPhone |
| LoginPage.SubmitDisabled | src/app/auth/login/page.js:138 | enabled iff not loading and both identifier and password are non-empty |
| LoginPage.EmailIffAtSign | src/app/auth/login/page.js:21-25 | the length test is redundant: isEmail iff the typed text contains `@` |
| LoginPage.TrimmedIsFixed | src/app/auth/login/page.js:22 | text with no whitespace at either end is its own trim |
| LoginPage.TrimIdempotent | src/app/auth/login/page.js:22 | trimming twice is trimming once |
| LoginPage.ClassifyIgnoresSurroundingWhitespace | src/app/auth/login/page.js:20-28 | classifying the trimmed text gives the same flags |
| LoginPage.TrimDropsPadding | src/app/auth/login/page.js:22 | a whitespace character on each side of trimmed text is removed |
| LoginPage.PaddedPhoneIsPhone | src/app/auth/login/page.js:26 | ten digits surrounded by whitespace still classify as a phone |
| LoginPage.WhitespaceIdentifierEnablesSubmit | src/app/auth/login/page.js:138 | every non-empty whitespace-only identifier is neither email nor phone, yet enables submit when a password is present |

## Left out

**Outside the model:**
- **Network.** HTTP requests, status codes, headers and JSON parsing are not modelled. Backend results are the `CallOutcome` and `FetchOutcome` parameters.
- **Loading flags.** The wishlist `loading` flag is not modelled, because nothing in the modelled logic reads it. The login page's `loading` is an input of `SubmitDisabled`.
- **Login submit handler** (`handleSubmit`: the login request, toasts and navigation). The password visibility toggle is also out.
- **React scheduling.** Rendering, effect timing, async interleaving and stale closures are out. Each handler, together with the effects it triggers, is one atomic step. `SetAuth` runs the guest-load effect and then the sync effect.
- **Numbers.** `Number(...)` coercion, floating-point prices and `toFixed(2)` are out. Prices and quantities are integers, and totals are exact sums.
- **Other parts of the app.** These are out of scope: the sidebar's `imgSrc` image-error fallback, the `itemCount` and `safeName` display values, and the `justRemoved` auto-close. The provider never supplies `justRemoved`. Also out are `WishlistSidebar`'s call to a `removeFromWishlist` the provider does not expose, the signup and forgot-password pages, `ProfileDropdown`, `AppLayout` and `next.config.mjs`. Checkout, orders, payment and tax are not part of this model.

**Simplifications:**
- **Absent values.** `undefined`, `null` and `""` are one value, `""`, for string fields. A missing quantity or price is `0`. So a merge onto a saved line without a quantity gives `0 + added` here, while JavaScript gives `NaN`.
- CartContext.CartProvider.constructor: the JSON stored under `"cart"` is taken as already parsed. Invalid JSON, which would throw, is not modelled.
- **String ids.** Wishlist ids are strings. `String(...)` coercion in remove and `isInWishlist` is the identity here. A numeric `_id` would be kept by the guest remove's `!==` comparison against `String(id)`. That is not captured.
- WishlistContext.WishlistProvider.LoadGuest: the saved guest list is a list of ids. The `p._id || p.id` re-mapping of saved objects is not modelled.

**Code behaviour followed:**
- **Sign-out.** On sign-out without saved guest data, the code keeps the in-memory list, which is the last server list. The model follows the code, not the intent of discarding it.
- **Failed fetch.** A failed fetch empties the wishlist.
- **Sign-in merge.** On sign-in the guest list is not merged into the server list.
