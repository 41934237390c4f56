# React shopping cart: the rules under the UI, in Dafny

This project models the deterministic core of a React storefront that talks to
a REST API and signs users in with an OAuth 2.0 implicit grant (Amazon Cognito).
The hooks and components are left behind; what remains is stated as Dafny
functions, small classes and lemmas:

- **Cart lines** (`CartProducts`, `CartTotals`): the list transforms of
  `useCartProducts` (merge-or-append add fallback, remove by product id, +1 / −1)
  over `ICartProduct` lines keyed by `product_id`. Remove, +1, −1 and the
  failed-post add fallback store the new list together with the totals
  recomputed from it. A successful add instead reloads the cart from the
  server, which replaces the lines but keeps the old totals. The totals are two
  `reduce` folds. Money is integer cents.
- **Category filter** (`Filter`): the checkbox `Set`, toggled in place and
  snapshotted for `filterProducts`. It is a class whose contents are an
  insertion-ordered, duplicate-free sequence.
- **Listing query** (`ProductParams`, `ProductsProvider`, `Strings`):
  `generateParams`, and the products provider as a class. The provider has a
  fetch-once flag, a fetch-in-progress guard, a single debounced request slot
  where the latest call wins, and the `URLSearchParams` query.
- **Token lifecycle** (`ApiClient`, `AuthCallback`, `TokenExpiration`, `Browser`):
  - the JWT `exp` test (RFC 7519 section 4.1.4);
  - the request interceptor, which adds a Bearer header (RFC 6750 section 2.1);
  - the response interceptor, which clears tokens on 401/403;
  - the redirect callback's decision over the fragment (RFC 6749 section 4.2.2
    and 4.2.2.1, OpenID Connect Core 1.0 section 3.2.2.5) and the query
    (RFC 6749 section 4.1.2);
  - the minutes-left warning.

  `localStorage` and `window.location` are small classes. Navigation and history
  rewriting are recorded as values.

Inputs rather than code: the clock (`nowMs`), JWT decoding
(`decode: string -> Option<Claims>`, where `None` means it throws), the parsed
fragment and query maps, `parseInt`, form encoding of query values (`encode`),
the Cognito login URL, the API origin, and the outcome of each HTTP request.

## Model

| member | source | states |
|---|---|---|
| `CartTotals.Fold` | src/contexts/cart-context/useCartTotal.ts:8-19 | the `reduce` left fold equals the seed plus the reference sum of line amounts |
| `CartTotals.UpdateCartTotal` | src/contexts/cart-context/useCartTotal.ts:7-27 | productQuantity is the sum of quantities and totalPrice the sum of price × quantity (both 0 for an empty cart); currency is always 'USD'/'$'; installments is never set |
| `CartTotals.AppendTotals` | src/contexts/cart-context/useCartTotal.ts:8-19 | appending a line raises productQuantity by its quantity and totalPrice by price × quantity |
| `CartTotals.SumPermutation` | src/contexts/cart-context/useCartTotal.ts:8-19 | a fold gives the same sum for any reordering (equal multisets) of the lines |
| `CartTotals.TotalsIgnoreOrder` | src/contexts/cart-context/useCartTotal.ts:7-27 | the computed total does not depend on line order |
| `CartTotals.SumNonNegative` | src/contexts/cart-context/useCartTotal.ts:8-19 | with no negative price or quantity, each fold is ≥ 0 |
| `CartTotals.TotalsNonNegative` | src/contexts/cart-context/useCartTotal.ts:8-19 | with no negative price or quantity, both totals are ≥ 0 |
| `CartProducts.Commit` | src/contexts/cart-context/useCartProducts.ts:79-80 | a mutator stores its list and the totals computed from that same list |
| `CartProducts.UpdateQuantitySafely` | src/contexts/cart-context/useCartProducts.ts:12-25 | only `quantity` can change; a matching id gains delta, any other line is returned unchanged |
| `CartProducts.MapUpdate` | src/contexts/cart-context/useCartProducts.ts:95-97 | same length and order; matching lines gain delta, all other fields and lines are unchanged |
| `CartProducts.DefaultQuantity` | src/contexts/cart-context/useCartProducts.ts:73 | `quantity \|\| 1`: 0 becomes 1 and any other quantity is kept, so the result is never 0 |
| `CartProducts.AddLocally` | src/contexts/cart-context/useCartProducts.ts:66-77 | a known id keeps length and order and every line with that id gains the defaulted quantity; an unknown id yields the old list with the new line appended unmodified |
| `CartProducts.RemoveById` | src/contexts/cart-context/useCartProducts.ts:86-88 | no line with the id remains, every other line is kept in its original relative order (a subsequence), the length drops by the number of matches, and an absent id changes nothing |
| `CartProducts.Payload` | src/contexts/cart-context/useCartProducts.ts:35-41 | the posted body copies id, name, image and price and defaults the quantity to 1 when 0 |
| `CartProducts.AddProduct` | src/contexts/cart-context/useCartProducts.ts:27-82 | without a token: no request and no change; with one: the payload is posted; on success the cart is refetched and the reloaded lines (or the old ones, when the reload fails) are stored with the old totals; on failure the local fallback is stored with its totals |
| `CartProducts.RefetchLeavesTotalsStale` | src/contexts/cart-context/useCartProducts.ts:55-60 | after a successful add the totals no longer match the reloaded lines: a concrete cart whose reload changes the quantity keeps the old item count |
| `CartProducts.RemoveProduct` | src/contexts/cart-context/useCartProducts.ts:85-92 | stores the filtered list and totals recomputed from it |
| `CartProducts.IncreaseProductQuantity` | src/contexts/cart-context/useCartProducts.ts:94-101 | stores the +1 list and totals recomputed from it |
| `CartProducts.DecreaseProductQuantity` | src/contexts/cart-context/useCartProducts.ts:103-110 | stores the −1 list and totals recomputed from it |
| `CartProducts.IsInCart` | src/contexts/cart-context/useCartProducts.ts:67-69 | `some(p => p.productId === id)`: some line carries the id (related to the match count by `InCartIffCounted`) |
| `CartProducts.InCartIffCounted` | src/contexts/cart-context/useCartProducts.ts:67-69 | `some` finds the id iff at least one line carries it |
| `CartProducts.UniqueCount` | src/contexts/cart-context/useCartProducts.ts:67-77 | in a cart with unique ids, a product present occupies exactly one line |
| `CartProducts.MapUpdateZero` | src/contexts/cart-context/useCartProducts.ts:12-25 | a zero quantity update is the identity on the list |
| `CartProducts.MapUpdateCompose` | src/contexts/cart-context/useCartProducts.ts:94-110 | two quantity updates for the same product compose into one with the summed delta |
| `CartProducts.IncreaseDecreaseInverse` | src/contexts/cart-context/useCartProducts.ts:94-110 | increase then decrease, or decrease then increase, restores the lines |
| `CartProducts.MapUpdateKeepsUnique` | src/contexts/cart-context/useCartProducts.ts:94-110 | quantity updates keep product ids unique |
| `CartProducts.AddLocallyKeepsUnique` | src/contexts/cart-context/useCartProducts.ts:66-77 | the merge-or-append fallback keeps product ids unique |
| `CartProducts.RemoveKeepsUnique` | src/contexts/cart-context/useCartProducts.ts:85-88 | removal keeps product ids unique |
| `CartProducts.RemoveTotals` | src/contexts/cart-context/useCartProducts.ts:85-91 | removal takes exactly the removed lines' amounts out of each total |
| `CartProducts.UpdateQuantityTotal` | src/contexts/cart-context/useCartProducts.ts:94-110 | a quantity update moves productQuantity by delta per matching line |
| `CartProducts.UpdatePriceTotal` | src/contexts/cart-context/useCartProducts.ts:94-110 | a quantity update moves totalPrice by delta times each matching line's price |
| `CartProducts.UniquePriceWhere` | src/contexts/cart-context/useCartProducts.ts:94-110 | with unique ids, the matching lines' unit price is that one line's price |
| `CartProducts.StepTotals` | src/contexts/cart-context/useCartProducts.ts:94-110 | with unique ids, "+" / "−" on a line moves productQuantity by ±1 and totalPrice by ± that line's price |
| `CartProducts.DecreaseEnabled` | src/components/Cart/CartProducts/CartProduct/CartProduct.tsx:46 | the "−" button is enabled exactly when the line's quantity is not 1 (used by `DecreaseKeepsPositive`) |
| `CartProducts.DecreaseKeepsPositive` | src/components/Cart/CartProducts/CartProduct/CartProduct.tsx:44-49 | decrease does not clamp: all lines stay ≥ 1 iff the target held ≥ 2, so the disabled-at-1 "−" button keeps quantities ≥ 1 |
| `CartProducts.AddLocallyTotals` | src/contexts/cart-context/useCartProducts.ts:66-80 | merging moves productQuantity by the defaulted quantity per matching line and totalPrice by the defaulted quantity times the matching lines' unit prices; appending moves them by the new line's quantity and price × quantity |
| `CartProducts.MutatorsKeepInvariant` | src/contexts/cart-context/useCartProducts.ts:53-110 | remove, +1, −1 and an add that does not reload (no token, or a failed post) keep stored totals in step with stored lines and keep ids unique |
| `Strings.Join` | src/contexts/products-context/ProductsContextProvider.tsx:53 | `join(',')`: "" for no pieces; otherwise the first piece leads and the length is the pieces' total plus one comma between each pair |
| `Strings.Split` | src/services/products.ts:21 | reading a joined category value back by `split(',')`: at least one piece, and no piece contains ',' |
| `Strings.JoinSplit` | src/services/products.ts:21 | joining the pieces of any split with ',' gives the string back; with the comma-free pieces this fixes `Split` completely |
| `Strings.SplitJoin` | src/services/products.ts:21 | splitting the ','-join of a non-empty comma-free list gives the list back |
| `Strings.SplitJoinNeedsCommaFree` | src/services/products.ts:21 | a category containing ',' does not survive the round trip |
| `Strings.NatToString` | src/components/TokenExpirationHandler/TokenExpirationHandler.tsx:77 | `{timeRemaining}` as text: decimal digits, no leading zero, denoting the number |
| `Strings.IntToString` | src/components/AuthCallback.tsx:59 | `expiryTime.toString()`: a minus sign for negatives, then the digits of the magnitude |
| `Strings.IntToStringDigits` | src/components/AuthCallback.tsx:59 | the text starts with '-' exactly for negatives, and the digits after it denote the magnitude, with no leading zero |
| `ProductParams.GenerateParams` | src/services/products.ts:17-22 | "" iff the list is empty; otherwise "?category=" followed by the ','-join |
| `ProductParams.SingleCategory` | src/services/products.ts:17-22 | a single category c gives exactly "?category=" + c |
| `ProductParams.ParamsRoundTrip` | src/services/products.ts:21 | the text after "?category=" splits back into the original comma-free categories |
| `Filter.Dedup` | src/components/Filter/Filter.tsx:22 | `new Set(filters)` has no duplicates and exactly the labels of `filters`; a duplicate-free list comes back unchanged, in its own order |
| `Filter.Delete` | src/components/Filter/Filter.tsx:26 | `delete` removes exactly that label and keeps the set duplicate-free |
| `Filter.DeleteAt` | src/components/Filter/Filter.tsx:26 | in a duplicate-free list, deleting the label at index k closes the gap and keeps the order of all other labels |
| `Filter.DeleteAbsent` | src/components/Filter/Filter.tsx:26 | deleting a label that is not there changes nothing |
| `Filter.Toggled` | src/components/Filter/Filter.tsx:24-29 | a selected label leaves, an unselected one is added last, every other label keeps its membership, no duplicates appear |
| `Filter.ToggleTwiceSameLabels` | src/components/Filter/Filter.tsx:24-31 | toggling the same label twice restores the same set of labels |
| `Filter.ToggleTwiceMovesToEnd` | src/components/Filter/Filter.tsx:24-31 | a selected label toggled twice ends up last, behind the others in their order |
| `Filter.ToggleTwiceMayReorder` | src/components/Filter/Filter.tsx:24-31 | the order may differ: ["a","b"] toggled twice on "a" becomes ["b","a"] |
| `Filter.CheckboxSelection.constructor` | src/components/Filter/Filter.tsx:22 | the selection starts as the de-duplicated filters and no call made |
| `Filter.CheckboxSelection.ToggleCheckbox` | src/components/Filter/Filter.tsx:24-33 | the set is toggled in place; filterProducts is called exactly once, with the duplicate-free snapshot |
| `ProductsProvider.SearchParams` | src/contexts/products-context/ProductsContextProvider.tsx:50-58 | `category` is present iff there are filters, with the ','-joined value; `search` is present iff the term is non-empty; no other keys |
| `ProductsProvider.QueryString` | src/contexts/products-context/ProductsContextProvider.tsx:60 | the query string is empty iff there are no params |
| `ProductsProvider.SearchQueryShape` | src/contexts/products-context/ProductsContextProvider.tsx:50-60 | the query is `category=<encoded join>`, `search=<encoded term>`, or both joined by '&' in that order |
| `ProductsProvider.ProductsUrl` | src/contexts/products-context/ProductsContextProvider.tsx:61 | the listing URL: origin + "/products", then '?' and the query only when the query is non-empty |
| `ProductsProvider.RequestUrl` | src/contexts/products-context/ProductsContextProvider.tsx:50-61 | the URL a fetch with these arguments requests (its shape is stated by `RequestUrlShape`) |
| `ProductsProvider.RequestUrlShape` | src/contexts/products-context/ProductsContextProvider.tsx:60-61 | '?' and the query are added only when the query is non-empty |
| `ProductsProvider.ProductsContext.constructor` | src/contexts/products-context/ProductsContextProvider.tsx:29-36 | initial state: not fetching, no products, no filters, empty term, no fetch done, nothing pending |
| `ProductsProvider.ProductsContext.FetchData` | src/contexts/products-context/ProductsContextProvider.tsx:39-64 | does nothing while a fetch is in progress; otherwise raises both flags and requests the URL built from the arguments |
| `ProductsProvider.ProductsAfter` | src/contexts/products-context/ProductsContextProvider.tsx:65-68 | what a finished fetch stores: [] when the request threw, else the body or [] when it is missing |
| `ProductsProvider.ProductsContext.FinishFetch` | src/contexts/products-context/ProductsContextProvider.tsx:64-72 | failure stores [], success stores the body or [] when it is missing; both flags are false afterwards |
| `ProductsProvider.ProductsContext.FetchProducts` | src/contexts/products-context/ProductsContextProvider.tsx:77-82 | only the first call fetches, with no filters and an empty term (the bare listing URL), and a started fetch raises the in-progress flags; later calls change nothing |
| `ProductsProvider.ProductsContext.FilterProducts` | src/contexts/products-context/ProductsContextProvider.tsx:85-100 | filters are stored at once; the pending slot holds exactly one request with the new filters and the current term |
| `ProductsProvider.ProductsContext.SearchProducts` | src/contexts/products-context/ProductsContextProvider.tsx:103-118 | the term is stored at once; the pending slot holds exactly one request with the current filters and the new term |
| `ProductsProvider.ProductsContext.Fire` | src/contexts/products-context/ProductsContextProvider.tsx:97-99 | the timer empties the slot and runs fetchData with the latest scheduled arguments; it starts only when no fetch is in progress, so the flags are raised afterwards either way and a request that fires during a fetch is dropped |
| `ProductsProvider.FireWhileFetchingIsDropped` | src/contexts/products-context/ProductsContextProvider.tsx:39-99 | a debounced fetch that fires while the first listing request is awaited is dropped, and so is one that fires after a fetch it started itself |
| `ProductsProvider.ProductsContext.Unmount` | src/contexts/products-context/ProductsContextProvider.tsx:121-127 | the cleanup drops the pending fetch; the fetch flags, the stored state and the requests made are unchanged |
| `ProductsProvider.DebounceLatestWins` | src/contexts/products-context/ProductsContextProvider.tsx:85-118 | a filter call followed by a search call leaves one pending request carrying both latest arguments, and makes no request |
| `ApiClient.IsTokenExpired` | src/utils/apiClient.ts:10-21 | expired iff exp < now in seconds (exp equal to now is valid); an undecodable token is expired; a token without exp never is |
| `Browser.Truthy` | src/utils/apiClient.ts:43 | JavaScript truthiness of a nullable string, as in `if (token)` here and `!tokenId` in addProduct: present and not "" |
| `ApiClient.IsAuthFailure` | src/utils/apiClient.ts:79 | the error has a response whose status is 401 or 403 |
| `ApiClient.WithBearer` | src/utils/apiClient.ts:59-62 | Authorization becomes "Bearer " + token and every other header is kept |
| `ApiClient.RedirectToSave` | src/utils/apiClient.ts:88-91 | pathname + search is saved unless it equals "/callback" exactly |
| `ApiClient.CallbackWithQueryIsSaved` | src/utils/apiClient.ts:88-91 | "/callback" with any non-empty query is saved, query included; only the bare "/callback" is skipped |
| `ApiClient.WithoutTokens` | src/utils/apiClient.ts:84-85 | both tokens are gone and every other key is untouched |
| `ApiClient.InterceptRequest` | src/utils/apiClient.ts:38-66 | no stored token: the config passes unchanged; expired: tokens removed, login redirect, rejected, no header; valid: Bearer header added, storage untouched |
| `ApiClient.InterceptResponseError` | src/utils/apiClient.ts:77-101 | 401/403: tokens removed, path saved unless "/callback", login redirect, a promise that never settles; any other error is rejected unchanged with storage untouched |
| `AuthCallback.FirstValue` | src/components/AuthCallback.tsx:21-24 | a repeated key contributes its first value; a missing or valueless key gives none |
| `AuthCallback.RawTruthy` | src/components/AuthCallback.tsx:28-91 | the JavaScript truthiness of a parsed value used by `if (hashError)`, `if (queryError)` and `if (code)`: missing, null and "" are false; any other string and any array are true |
| `AuthCallback.Decide` | src/components/AuthCallback.tsx:25-118 | a fragment error wins; the grant path is taken iff there is no error and both tokens are present; only otherwise are the query's error and then its code consulted |
| `AuthCallback.QueryOnlyAsFallback` | src/components/AuthCallback.tsx:28-77 | with a fragment error or both tokens, the query string does not affect the outcome |
| `AuthCallback.RepeatedKeyFirstWins` | src/components/AuthCallback.tsx:21-22 | a repeated id_token uses its first value |
| `AuthCallback.StoredAfterGrant` | src/components/AuthCallback.tsx:53-61 | both tokens are stored; token_expiry = now_ms + expires_in × 1000 only when expires_in is present; token_type defaults to 'Bearer'; other keys are untouched |
| `AuthCallback.CallbackPage.constructor` | src/components/AuthCallback.tsx:11-12 | the page starts loading with no error |
| `AuthCallback.CallbackPage.Render` | src/components/AuthCallback.tsx:123-142 | loading shows "Processing"; the error view shows iff not loading and an error is set |
| `AuthCallback.CallbackPage.ProcessCallback` | src/components/AuthCallback.tsx:16-120 | grant: storage as StoredAfterGrant, tokenId = id_token, fragment cleared, navigate to '/', loading unchanged; every other path: loading false, nothing stored; `error` never changes |
| `AuthCallback.MountCallbackPage` | src/components/AuthCallback.tsx:11-142 | the error view never shows; the page stays on "Processing" exactly on the implicit-grant path |
| `TokenExpiration.RemainingMs` | src/components/TokenExpirationHandler/TokenExpirationHandler.tsx:52 | never negative; 0 once now ≥ expiry, otherwise expiry − now |
| `TokenExpiration.RemainingMinutes` | src/components/TokenExpirationHandler/TokenExpirationHandler.tsx:53 | the floor of remaining / 60000: m × 60000 ≤ remaining < (m + 1) × 60000 |
| `TokenExpiration.ShowWarning` | src/components/TokenExpirationHandler/TokenExpirationHandler.tsx:58 | the warning flag for a whole number of minutes left: more than 0 and fewer than 5 (its window in milliseconds is `WarningWindow`) |
| `TokenExpiration.WarningWindow` | src/components/TokenExpirationHandler/TokenExpirationHandler.tsx:52-58 | the warning shows iff 60 000 ≤ expiry − now < 300 000 ms, i.e. iff 0 < minutes < 5 |
| `TokenExpiration.ExpiredShowsNothing` | src/components/TokenExpirationHandler/TokenExpirationHandler.tsx:52-58 | once now ≥ exp × 1000, minutes is 0 and no warning shows |
| `TokenExpiration.MinutesNonIncreasing` | src/components/TokenExpirationHandler/TokenExpirationHandler.tsx:52-53 | as now increases, minutes never increases |
| `TokenExpiration.Message` | src/components/TokenExpirationHandler/TokenExpirationHandler.tsx:77 | "minute" when the time is exactly 1, "minutes" otherwise |
| `TokenExpiration.Render` | src/components/TokenExpirationHandler/TokenExpirationHandler.tsx:71-77 | something renders iff the warning is on and the time is not null, and it is the message |
| `TokenExpiration.ExpirationHandler.constructor` | src/components/TokenExpirationHandler/TokenExpirationHandler.tsx:36-37 | warning hidden, time null, no interval |
| `TokenExpiration.ExpirationHandler.Tick` | src/components/TokenExpirationHandler/TokenExpirationHandler.tsx:50-59 | sets time to the remaining minutes and the warning to 0 < minutes < 5 (NaN and no warning when exp is missing) |
| `TokenExpiration.ExpirationHandler.OnTokenChange` | src/components/TokenExpirationHandler/TokenExpirationHandler.tsx:39-69 | no token: warning hidden and time null; undecodable: state kept, no interval; otherwise the expiry is captured, one tick runs and the interval starts |
| `TokenExpiration.ExpirationHandler.View` | src/components/TokenExpirationHandler/TokenExpirationHandler.tsx:71-83 | anything rendered implies the warning is on with 1 to 4 minutes left |

## Left out

- HTTP I/O is left out. This covers `getProducts`, the categories request in `Filter.tsx`, the cart POST, and `fetchCartItems` with its response mapping. Each request's outcome is an input. After a successful POST the lines the reload stores are an input (`refetched`); how the server computes them and how `fetchCartItems` maps the response fields are not modelled, nor are its loading and error flags.
- `CartProducts.MutatorsKeepInvariant`: the add conjunct covers only the paths that do not reload (no token, or a failed post). After a successful post `fetchCartItems` replaces the lines without recomputing the totals, so the stored totals can disagree with the stored lines (`RefetchLeavesTotalsStale`).
- Foreign libraries are inputs or parameters:
  - `jwt-decode` is the `decode` parameter;
  - `query-string` parsing gives the `Params` maps; null elements inside a repeated key are not modelled;
  - `URLSearchParams` value encoding is the `encode` parameter;
  - `parseInt` is a parameter, and its NaN result is not modelled;
  - the Cognito login URL built from the environment is the `loginUrl` parameter.
- Timers and async interleaving are not modelled as such. The debounce is a pending slot plus `Fire`; the interval is `Tick`; the awaited request splits `FetchData` from `FinishFetch`. React's stale closures are not modelled: `FilterProducts` and `SearchProducts` read the stored term and filters, as after a re-render.
- Floating-point money is left out: fractional prices, installments and price formatting. Prices are integer cents, and `exp` is a whole number of seconds.
- `CartProducts.DefaultQuantity`: models `quantity || 1` on integer quantities. In the source `NaN` also falls back to 1 (the declared `number` type admits it), but an integer quantity cannot be `NaN`, so that case is not modelled. `undefined` would fall back to 1 as well, and the declared type excludes it.
- The success handler of the response interceptor and the error handler of the request interceptor are left out. Both pass their argument through unchanged, so there is no decision to model.
- Console logging is left out.
- The `userInitiatedAction` ref is set but never read. It is a field and nothing depends on it.
- Presentational components and routing guards are left out (`Cart`, `CartProducts`, `Checkbox`, `Search`, `Main`, `App`, `LoginButton`, `useRequireAuth`, `ProtectedRoute`, `useAuthCheck`). The one exception is the disabled-at-1 "−" button in `CartProduct.tsx`, which is `DecreaseEnabled`.
