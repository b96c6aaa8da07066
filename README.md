# Point-of-sale admin: data hooks, access guard and product row

This project models three parts of a point-of-sale / order-fulfilment system.

- **The admin client's data hooks** (`ui/admin/hooks/index.ts`). Each hook owns a
  piece of React state and fills it from the REST backend. Every endpoint answers
  with the JSON envelope `{success, data, error}`.
  - the order list pages through the orders or looks one up by id;
  - the product list;
  - the earnings figures: a year-to-date total and the last five days;
  - the past year's orders, enriched for the analytics graphs;
  - the station and user lists, with their mutations.
- **The server's access guard** (`cmd/pos-system/main.go`). This is `authHandler`,
  the table that registers every route behind a guard, and the `/` and `/admin`
  page handlers.
- **The product row** of a station's order card
  (`src/app/components/StationOrderBox/ProductRow.tsx`). It is a checkbox that asks
  for a line item's fulfilled flag to be flipped. A spinner replaces the checkbox
  while the confirmation is pending.

Modules, one file each:

- `Api` (`api.dfy`): the shared vocabulary.
  - The envelope.
  - How a `fetch` followed by `req.json()` can end: with a decoded envelope, or
    thrown.
  - How an async function's promise settles.
  - The requests the hooks issue.
  - JavaScript truthiness of a string-or-null.
  - The decimal rendering of ids in URLs.
- `OrdersList`, `ProductsList`, `Earnings`, `PastYear`, `Stations`, `Users`: one
  module per hook, except that `Earnings` holds both `useGetEarningsPerDay` and
  `useGetTotalEarnings`.
  - Each hook's state slot is a class. Its fields are the state's fields plus
    `sent`, the log of requests issued.
  - Each asynchronous function is a method.
  - The server's answer is a parameter of the method. The answer is a `Reply`:
    either a decoded envelope, or `Thrown` for a network or JSON error.
  - Every `setState({...state, ...})` rebuilds the whole record from the state the
    calling render captured. That captured record is therefore a parameter too.
  - Each method's `ensures` ties the new state and the promise's outcome to pure
    functions. Lemmas state the hook's behaviour in terms of those functions.
- `AccessGuard`: `authHandler` as a function of the session cookie, the
  `x-auth-token` header and what `json.Unmarshal` makes of the cookie.
  - The route table is the exact list of 37 registrations.
  - A lemma proves which endpoints sit behind the admin guard, which behind the user
    guard, and which have none.
  - The router `Dispatch` and both page handlers are functions.
- `ProductRow`: the row as a class holding the busy flag, the props, and the values
  passed to `onToggle`.
  - Its render is a function.
  - A pure event fold proves that resolved toggles return the row to idle.
  - The same fold proves that a rejected toggle leaves the spinner up for good.

### Behaviour of the code worth knowing

The model follows the code as written. These behaviours are easy to miss, and each
is stated as a contract or a lemma:

- **A thrown fetch or parse error leaves `loading` true.** A thrown `fetch` or
  `req.json()` escapes the async function after the loading write, and nothing
  follows it. No write ends the loading state
  (`OrdersList.FetchOrdersRun`, `ProductsList.ProductsStore.FetchProducts`). The
  same holds for the order lookup when a successful envelope has a null `data`:
  reading `resp.data.order.id` throws.
- **The earnings join is all or nothing, and it does not check `success`.**
  - `Promise.all` rejects when any one of the five calls throws, and then no slot
    is written.
  - A resolved call whose envelope says `success: false` writes its `data` into its
    slot. That `data` is null, so the slot does not keep its previous value
    (`Earnings.FailedDayWritesNull`).
- **A failure does not clear the data, and a success does not clear the error.**
  The order-list, product and past-year failures keep the list the calling render
  captured. No hook clears `error` on success, so an old message stays next to
  fresh data (`OrdersList.StaleErrorSurvivesSuccess`).
- **A failed order lookup can leave the error null.** It stores `resp.error` as
  sent, with no fallback message, and empties the list.
- **The station and user lists store data differently.** `getStations` stores
  `resp.data` even when it is null; `getUsers` stores it only when it is non-null.
  `useGetTotalEarnings` stores `resp.data` whatever `success` says.
- **An empty configured admin token opens every guard.** A request without the
  header carries the empty string, which equals that token
  (`AccessGuard.EmptyTokenOpensEveryGuard`).
- **`/admin` with no session is forbidden rather than redirected.** The guard runs
  before the handler, so the answer is 403. The request is redirected to `/login`
  only when the token header matches.

## Model

| member | source | states |
|---|---|---|
| `Api.Returned` | ui/admin/hooks/index.ts:239-248 | a function ending in `return resp` rejects exactly when the fetch or the parse threw, and otherwise resolves to the envelope as received |
| `Api.OrElse` | ui/admin/hooks/index.ts:64 | the JavaScript `or` of a string-or-null and a fallback yields `s` when it is a non-empty string and the fallback otherwise, so a non-empty fallback is never replaced by an empty message |
| `Api.MessageOr` | ui/admin/hooks/index.ts:201 | the error a failed list, products or past-year fetch stores is always a non-empty message: the server's own message whenever it is a non-empty string, and the fallback otherwise |
| `Api.DigitsRoundTrip` | ui/admin/hooks/index.ts:70 | the decimal digits written for a natural id read back as that id |
| `Api.NumberRoundTrip` | ui/admin/hooks/index.ts:131 | the decimal rendering of a page, day or id reads back as that number, sign included; JavaScript renders a safe integer this way |
| `Api.NumberToStringInjective` | ui/admin/hooks/index.ts:268 | under that rendering, two different ids never produce the same URL segment |
| `Api.MutationRequests` | ui/admin/hooks/index.ts:260-262 | a station or user mutation sends its own request, followed by one list re-fetch exactly when its envelope says success |
| `OrdersList.ModeOf` | ui/admin/hooks/index.ts:48 | list mode is chosen exactly for a missing id or the falsy id 0, and lookup mode carries the non-zero id |
| `OrdersList.RequestFor` | ui/admin/hooks/index.ts:49-70 | every call is one GET with no body; list mode asks `/api/orders?p=` followed by the page, lookup mode `/api/order/` followed by the id, and the number reads back from the URL |
| `OrdersList.RequestForInjective` | ui/admin/hooks/index.ts:49-70 | two calls send the same request only in the same mode and for the same page or the same id |
| `OrdersList.Started` | ui/admin/hooks/index.ts:42-46 | the loading write turns loading on and empties the list, and keeps the captured error and page |
| `OrdersList.AfterList` | ui/admin/hooks/index.ts:52-68 | loading ends and the page is kept; success shows `data` (or `[]` for null) and resolves to `data`; failure keeps the captured list and resolves to null, storing the server's message when it is a non-empty string and 'Unable to fetch orders' otherwise |
| `OrdersList.CheckLookup` | ui/admin/hooks/index.ts:73 | the lookup succeeds exactly for a successful envelope whose order id is present and non-zero; it throws exactly when a successful envelope lacks `data` or `order` |
| `OrdersList.AfterLookup` | ui/admin/hooks/index.ts:73-90 | no write exactly when the condition throws; a found order becomes the one-element list and the resolved value; otherwise the list is emptied and the server's error is stored as sent |
| `OrdersList.ListRun` | ui/admin/hooks/index.ts:48-68 | the list branch rejects exactly when the fetch or parse threw, leaving the loading write; a decoded envelope leaves `AfterList`'s write and value |
| `OrdersList.LookupRun` | ui/admin/hooks/index.ts:69-91 | the lookup branch rejects exactly when the fetch, the parse or the condition threw, leaving the loading write; otherwise it leaves `AfterLookup`'s write and value |
| `OrdersList.FetchOrdersRun` | ui/admin/hooks/index.ts:41-92 | a whole call keeps the page; in list mode it rejects exactly when the page fetch threw, and otherwise leaves `AfterList`'s write and value; in lookup mode it rejects exactly when the fetch threw or the condition threw, and otherwise leaves `AfterLookup`'s; loading stays on exactly when it rejects, and a lookup shows exactly one order when it resolves to a list |
| `OrdersList.StaleErrorSurvivesSuccess` | ui/admin/hooks/index.ts:52-66 | a failure followed by a success leaves a non-empty error next to the fresh list |
| `OrdersList.OrdersListStore.constructor` | ui/admin/hooks/index.ts:29-34 | the store starts idle, without error, with no orders and the given page, having sent nothing |
| `OrdersList.OrdersListStore.Begin` | ui/admin/hooks/index.ts:42-46 | the first write rebuilds the captured state with loading on and the list emptied |
| `OrdersList.OrdersListStore.ListSettled` | ui/admin/hooks/index.ts:52-68 | the list-mode settle write and return value are those of `AfterList` |
| `OrdersList.OrdersListStore.LookupSettled` | ui/admin/hooks/index.ts:73-90 | the lookup settle writes nothing and rejects when the condition throws, and otherwise writes and resolves as `AfterLookup` says |
| `OrdersList.OrdersListStore.FetchOrders` | ui/admin/hooks/index.ts:41-92 | a call sends exactly one request (the page URL or the order URL, by mode) and leaves the state and outcome of `FetchOrdersRun` |
| `ProductsList.Started` | ui/admin/hooks/index.ts:180-184 | the loading write turns loading on and empties the product list, and keeps the captured error |
| `ProductsList.AfterFetch` | ui/admin/hooks/index.ts:189-205 | loading ends; success stores and returns `data` as sent (null included); failure keeps the captured list and returns null, storing the server's message when it is a non-empty string and 'Unable to fetch products' otherwise |
| `ProductsList.ProductsStore.constructor` | ui/admin/hooks/index.ts:170-174 | the store starts idle, without error, with an empty product list |
| `ProductsList.ProductsStore.FetchProducts` | ui/admin/hooks/index.ts:179-206 | one request for all products; a thrown fetch leaves the loading write and rejects; a reply leaves the state and value of `AfterFetch` |
| `Earnings.Indexed` | ui/admin/hooks/index.ts:137-143 | the joined queue has one entry per call |
| `Earnings.Gather` | ui/admin/hooks/index.ts:137-143 | the join happens exactly when no call threw, and then yields each call's `data` in call order |
| `Earnings.JoinQueue` | ui/admin/hooks/index.ts:144-152 | the copied array keeps its length, and each slot ends with the last queued amount for that day, or its previous value when none was queued |
| `Earnings.IndexedLastFor` | ui/admin/hooks/index.ts:134-149 | in the queue Promise.all yields, slot d ends with what call d reported |
| `Earnings.FailedDayWritesNull` | ui/admin/hooks/index.ts:134 | when no call threw, any day whose envelope says `success: false` with null data has null written into its slot by the join, whatever the slot held before |
| `Earnings.JoinDays` | ui/admin/hooks/index.ts:137-153 | the five-slot write happens exactly when no call threw, and then slot d holds call d's `data` |
| `Earnings.EarningsPerDayStore.constructor` | ui/admin/hooks/index.ts:127 | the per-day figures start as five zeros |
| `Earnings.EarningsPerDayStore.LoadPerDay` | ui/admin/hooks/index.ts:126-157 | the mount effect requests days 0 to 4 in order; if any call throws the figures are unchanged, otherwise slot d holds call d's `data` |
| `Earnings.TotalEarningsStore.constructor` | ui/admin/hooks/index.ts:106 | the total starts at zero |
| `Earnings.TotalEarningsStore.LoadTotal` | ui/admin/hooks/index.ts:105-120 | each run requests the total and overwrites it with `data` whatever `success` says; a thrown call leaves it as it was |
| `PastYear.Prices` | ui/admin/hooks/index.ts:422 | the mapped list has one price per line item, in order |
| `PastYear.FoldAdd` | ui/admin/hooks/index.ts:422 | `reduce((a, b) => a + b, acc)` adds the sum of the list to the accumulator |
| `PastYear.EnrichOne` | ui/admin/hooks/index.ts:418-423 | one enriched record keeps the order whole and adds its hour of day, its number of line items and the sum of its prices |
| `PastYear.Enrich` | ui/admin/hooks/index.ts:417-424 | one enriched record per order, in order, each keeping the original order whole, with its hour of day, its number of line items and the sum of its prices |
| `PastYear.AfterGetOrders` | ui/admin/hooks/index.ts:416-441 | loading ends; success shows the enriched orders and resolves to the raw `data`; failure keeps the captured orders and resolves to null, storing the server's message when it is a non-empty string and 'Unable to fetch orders' otherwise |
| `PastYear.PastYearStore.constructor` | ui/admin/hooks/index.ts:406-410 | the analytics store starts in loading, without error or orders |
| `PastYear.PastYearStore.GetOrders` | ui/admin/hooks/index.ts:412-442 | one request; a throw changes no state and rejects; a reply leaves the state and value of `AfterGetOrders` |
| `Stations.AfterList` | ui/admin/hooks/index.ts:243-245 | the list is replaced by `data` (null included) exactly when the envelope says success, and is otherwise kept |
| `Stations.StationsStore.constructor` | ui/admin/hooks/index.ts:237 | the station list starts empty |
| `Stations.StationsStore.GetStations` | ui/admin/hooks/index.ts:239-248 | one list request; the list is updated as `AfterList` says, and the promise is that of `return resp` |
| `Stations.StationsStore.Mutate` | ui/admin/hooks/index.ts:260-264 | a mutation never patches the list itself; it changes only through the re-fetch a success triggers; the promise is the mutation's own envelope |
| `Stations.StationsStore.CreateStation` | ui/admin/hooks/index.ts:250-265 | POST `/api/station` with the form field `name`, then the re-fetch on success |
| `Stations.StationsStore.DeleteStation` | ui/admin/hooks/index.ts:267-276 | DELETE `/api/station/{id}`, then the re-fetch on success |
| `Stations.StationsStore.AddProductToStation` | ui/admin/hooks/index.ts:278-289 | POST `/api/station/{station}/{product}`, then the re-fetch on success |
| `Stations.StationsStore.RemoveProductFromStation` | ui/admin/hooks/index.ts:291-302 | DELETE `/api/station/{station}/{product}`, then the re-fetch on success |
| `Users.AfterList` | ui/admin/hooks/index.ts:339-341 | the user list is replaced exactly when the envelope says success and carries non-null data, and is otherwise kept |
| `Users.UsersStore.constructor` | ui/admin/hooks/index.ts:333 | the user list starts empty |
| `Users.UsersStore.GetUsers` | ui/admin/hooks/index.ts:335-344 | one list request; the list is updated as `AfterList` says, and the promise is that of `return resp` |
| `Users.UsersStore.Mutate` | ui/admin/hooks/index.ts:362-366 | the user list changes only through the re-fetch a success triggers; the promise is the mutation's own envelope |
| `Users.UsersStore.CreateUser` | ui/admin/hooks/index.ts:346-367 | POST `/api/user` with username, password and station id (0 when omitted), then the re-fetch on success |
| `Users.UsersStore.DeleteUser` | ui/admin/hooks/index.ts:369-380 | DELETE `/api/user/{id}`, then the re-fetch on success |
| `AccessGuard.HasSession` | cmd/pos-system/main.go:64 | a missing cookie and an empty one both mean no session; any non-empty cookie text is a session |
| `AccessGuard.UserAfterUnmarshal` | cmd/pos-system/main.go:68-72 | after the decode, the user is present and an admin exactly when the cookie decodes to a user with the admin flag set |
| `AccessGuard.AuthHandler` | cmd/pos-system/main.go:58-81 | a request passes exactly when its header equals the configured token, or it has a non-empty session and (for the admin guard) the session decodes to an admin; each branch is stated separately too |
| `AccessGuard.EmptyTokenOpensEveryGuard` | cmd/pos-system/main.go:64-67 | with an empty configured token, a request without the header passes either guard whatever its cookie |
| `AccessGuard.GuardOf` | cmd/pos-system/main.go:157-258 | the lookup finds nothing exactly when no registration serves the verb and pattern (its own verb, or `router.Any` for every verb), and otherwise returns the guard of such a registration |
| `AccessGuard.EndpointsListed` | cmd/pos-system/main.go:216-258 | an endpoint is listed under a guard exactly when some registration puts it behind that guard |
| `AccessGuard.FrontEndpoints` | cmd/pos-system/main.go:157-225 | the guarded and open endpoints among the pages, the session routes, the user routes and `/api/orders...` |
| `AccessGuard.BackEndpoints` | cmd/pos-system/main.go:226-258 | the guarded and open endpoints among `/api/order...`, the product, station and remaining routes |
| `AccessGuard.RouteGuards` | cmd/pos-system/main.go:157-258 | exactly user management (create, delete, list), the earnings, past-year, order-deletion, product-creation and station-management endpoints and `/admin` are admin-only; exactly fifteen endpoints need only a session; exactly seven have no guard |
| `AccessGuard.GuardListsDisjoint` | cmd/pos-system/main.go:157-258 | no endpoint appears in two of the admin, user and open lists |
| `AccessGuard.AdminOffRoot` | cmd/pos-system/main.go:157-258 | no admin endpoint is registered with `router.Any` or at `/` |
| `AccessGuard.UserOffRoot` | cmd/pos-system/main.go:157-258 | no user endpoint is registered with `router.Any` or at `/` |
| `AccessGuard.OpenRootIsAny` | cmd/pos-system/main.go:157 | among the open endpoints, exactly the one at `/` is registered with `router.Any` |
| `AccessGuard.TableGuard` | cmd/pos-system/main.go:157-258 | a request is served exactly when its verb and pattern, or `ANY` and its pattern, is in one of the three lists, and it runs the guard of the list it is in; `/` is open for every verb |
| `AccessGuard.Serve` | cmd/pos-system/main.go:58-81 | an open route is always handled; a user route is handled exactly with the token or a session; an admin route exactly with the token or an admin session |
| `AccessGuard.Dispatch` | cmd/pos-system/main.go:157-258 | a request matching no registration is not found; `/` is handled for every verb; an admin endpoint is served exactly with the token or an admin session; a user endpoint exactly with the token or a session; an open endpoint always; a right token is never refused |
| `AccessGuard.RootPage` | cmd/pos-system/main.go:157-164 | `/` redirects to `/login` with 301 exactly when there is no session, and otherwise renders the POS page |
| `AccessGuard.AdminPage` | cmd/pos-system/main.go:185-192 | `/admin` renders the admin page exactly for a session that passes the admin guard; a session that fails it is forbidden; without a session it redirects only when the token matches, and is otherwise forbidden |
| `ProductRow.Render` | src/app/components/StationOrderBox/ProductRow.tsx:26-41 | the row shows the amount and the name, the checkbox is checked exactly when the item is fulfilled, and exactly one of checkbox and spinner is visible: the spinner exactly while busy |
| `ProductRow.Step` | src/app/components/StationOrderBox/ProductRow.tsx:35-37 | a change event and a resolved confirmation each flip the busy flag; a rejected confirmation leaves it as it is |
| `ProductRow.Run` | src/app/components/StationOrderBox/ProductRow.tsx:35-37 | after any run of events the busy flag has been flipped once per toggle that ran, so it is back to its start exactly when that count is even |
| `ProductRow.ResolvedTogglesEndIdle` | src/app/components/StationOrderBox/ProductRow.tsx:34-38 | any number of toggles whose confirmations resolve leaves the row idle |
| `ProductRow.RejectionLeavesSpinner` | src/app/components/StationOrderBox/ProductRow.tsx:34-39 | a rejected confirmation after resolved ones leaves the row busy with its checkbox hidden |
| `ProductRow.Row.constructor` | src/app/components/StationOrderBox/ProductRow.tsx:13-14 | a mounted row starts idle with the given props and has asked for nothing |
| `ProductRow.Row.OnChange` | src/app/components/StationOrderBox/ProductRow.tsx:34-36 | a change event flips the busy flag and asks for the negation of the persisted flag, whatever the event's own checked value |
| `ProductRow.Row.OnToggleSettled` | src/app/components/StationOrderBox/ProductRow.tsx:36-37 | a resolved confirmation flips the busy flag back; a rejected one leaves it as it is |
| `ProductRow.Row.ReceiveProps` | src/app/components/StationOrderBox/ProductRow.tsx:13 | new props replace amount and product and keep the busy flag |

## Left out

- React rendering and lifecycle are not modelled: effects, dependency arrays and
  unmounting. Each effect is modelled as the call it makes: `fetchOrders` on a page
  change, `fetchProducts`, the earnings loads, `getStations` when `shouldGetList`
  is set, and `getUsers`. `useGetTotalEarnings` runs on every render, and the model
  gives one run.
- Promise concurrency and arrival order are not modelled. A mutation's list
  re-fetch is not awaited in the code; the model applies it before the mutation's
  promise settles. Two overlapping `fetchOrders` calls, which can settle out of
  order, are not modelled either.
- `getHexGraph` and `getBoxOpaqueGraph`, the two Plot calls, are left out: they only
  lay out SVG output.
- `new Date(created_at).getHours()` is the parameter `hourOf`. Time zones and date
  parsing are not modelled.
- Prices are unbounded integers, not JavaScript floating-point numbers, so the model
  has no rounding.
- `Api.NumberToString`: ids, pages and days are assumed to be safe integers
  (magnitude below 2^53). JavaScript prints larger numbers inexactly, and from
  1e21 in exponent form. The model prints every integer in plain decimal. A page,
  day or id that is `NaN` or fractional is not modelled.
- JSON `null` and a missing field are both `None`.
- A present `data` is assumed to have the right shape: an array for the lists, an
  object for a looked-up order. The one shape failure modelled is the lookup
  reading `order.id` through a null value.
- `useIsCompactView` is not part of this model: it only forwards a media query.
- `useProductTypes` is not part of this model: it is re-exported from another file.
- Gin's matching of path parameters is not modelled: the router looks up a route by
  its registered pattern, not by a concrete path. A registration made with
  `router.Any` matches every verb. Static file serving, the HTML
  templates, the manifest and the SHA3 cache-busting hash are left out. Panics
  (a session value that is not a string) are left out.
- The handlers behind the guards (`core.*Handlers`) are not part of this model.
- `ProductRow.Row.OnChange`: the two `toggle` calls are modelled as flips of the
  row's current flag. React batching of the state updates is not modelled.
