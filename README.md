# Streaming price synchronisation core of a trading dashboard, in Dafny

This project models three parts of the trading dashboard's client state:

- **The portfolio slice** (`StockData`, `stock_data.dfy`). This is the store's record of the watchlist, the held stocks and commodities, the orders, the raw last-price table (`stockListSocket`) and the cash account. Its reducers are methods of the class `StockStore`. Each method changes only the fields named in its `modifies` clause, so everything it leaves out of that frame is unchanged.
  - A price tick (`updateStockPrice`) goes to three collections. In each one it rewrites only the first entry carrying the tick's symbol.
  - For a held stock, the tick sets the current price to the tick's price and recomputes profit and loss from the average price and the quantity.
  - Pure functions (`TickWatchlist`, `TickPositions`, `TickSocket`, `WithoutId`) specify the reducers. Lemmas give their properties: only the first match changes, no collection changes length, a tick is idempotent, and a removal drops exactly the items with the matching id and keeps the others in order.
- **The reconnecting stream client** (`StreamClient`, `stream_client.dfy`). This is the state machine behind the `useWebSocket` hook, written as the class `Client`.
  - The client holds a socket handle that is absent, connecting, open or closed, plus a reconnect-attempt counter capped at 5, the pending reconnect timer and the log of control frames sent.
  - The socket's notifications, the timer and the hook's two effects are events, and each event is a method.
  - The backoff delay `min(1000·2^k, 30000)` and the acceptance of tick frames are pure functions.
- **The authentication slice** (`Auth`, `auth.dfy`). The class `AuthStore` models user, token, the authenticated flag, the loading flag and the error. Browser storage is a map from keys to strings, held in the store so that the thunks and reducers can write it and a rebuilt store can read it.
- **The thunk rule** shared by the asynchronous thunks of both slices (`Thunks`, `thunks.dfy`). A thunk fulfils only when the envelope's `status`, and for some thunks its `data`, is truthy. Otherwise it rejects with the envelope's message, or with the thunk's fallback text when there is no message.

`wrappers.dfy` holds the `Option` type. JavaScript numbers are `real`. JavaScript truthiness is written out: a number is truthy when it is nonzero and a string when it is non-empty. Optional fields, `null` and `undefined` are `None`.

A fulfilled thunk hands its reducer one of three payloads. The data thunks hand over `response.data`, `removeFromWatchlist` hands over the id it was called with, and the rest hand over the whole envelope. `Thunks.Settle` takes each thunk's shape, which gives its guard, its payload and its fallback text. The two slices give their thunks' shapes in `StockData.Shape` and `Auth.Shape`.

One behaviour of the code follows from storage: a successful login whose answer carries no token stores the text "undefined". A page reload then starts an authenticated session with that token (`Auth.ReloadAfterLogin`).

Behaviours a reader might expect but the code does not have:

- The code has no subscription diff. A symbol-list change on an open socket re-sends the whole list, and `subscribe`/`unsubscribe` send exactly the list they are given.
- The raw price table is updated only when the symbol is already in it. Nothing is ever inserted.
- A tick frame whose `p` equals `c` is not guarded. Its percentage `c/(p−c)·100` is a division by zero. Frames with a zero `p` or `c` are dropped, because zero is falsy.
- `disconnect` does not reset the attempt counter. Only a successful open resets it.
- `onerror` only logs. It does not change the connection state.

## Model

| member | source | states |
|---|---|---|
| `Thunks.Reason` | src/store/slices/stockDataSlice.ts:84 | `message \|\| fallback`: the message when it is present and non-empty, the fallback otherwise; never empty when the fallback is not |
| `Thunks.Settle` | src/store/slices/stockDataSlice.ts:76-127 | a thunk fulfils exactly when `status` is truthy and, for data-guarded thunks, `data` is present; its payload is the envelope, `response.data` or its argument, as its shape says; otherwise it rejects with `Reason` of the message and the fallback |
| `Thunks.SettleThrown` | src/store/slices/stockDataSlice.ts:85-87 | a request that threw rejects with `error.message \|\| fallback`, which is never empty |
| `StockData.Shape` | src/store/slices/stockDataSlice.ts:76-264 | the six thunks guarded on `status && data` are exactly the ones returning `response.data`; only `removeFromWatchlist` returns its argument; every fallback text is the source's, and none is empty |
| `StockData.SettledPayloads` | src/store/slices/stockDataSlice.ts:76-264 | a fulfilled data thunk's payload is the present data; the remove thunk's payload is its id; every rejection, from an envelope or a throw, has a non-empty text |
| `StockData.FirstIndex` | src/store/slices/stockDataSlice.ts:277 | `findIndex`: -1 exactly when no element has the key, otherwise the index of the first element that has it |
| `StockData.FindIndex` | src/store/slices/stockDataSlice.ts:277 | the left-to-right scan returns `FirstIndex` |
| `StockData.FirstIndexSameKeys` | src/store/slices/stockDataSlice.ts:277-300 | two sequences with the same keys have the same first match, so rewriting non-key fields never moves the match |
| `StockData.Requote` | src/store/slices/stockDataSlice.ts:279-281 | a requoted entry has the tick's price, change and percentage, and every other field as before |
| `StockData.Revalue` | src/store/slices/stockDataSlice.ts:287-291 | a revalued position has `currentPrice = price`, `pnl = (price − avgPrice)·quantity` and `pnlPercent = (price − avgPrice)/avgPrice·100`, and every other field as before |
| `StockData.TickWatchlist` | src/store/slices/stockDataSlice.ts:277-282 | same length; only the first item with the symbol changes; it keeps its id and added-at time and gets the tick's quote; no match means no change |
| `StockData.TickPositions` | src/store/slices/stockDataSlice.ts:285-292 | same length; only the first position with the symbol is revalued at the tick's price; every position keeps its symbol, average price and quantity; no match means no change |
| `StockData.TickSocket` | src/store/slices/stockDataSlice.ts:295-300 | same length; only the first row with the symbol is requoted; no row is inserted; no match means no change |
| `StockData.TickWatchlistScan` | src/store/slices/stockDataSlice.ts:277-282 | the watchlist block of the reducer, a `findIndex` scan and an in-place requote, computes `TickWatchlist` |
| `StockData.TickPositionsScan` | src/store/slices/stockDataSlice.ts:285-292 | the positions block, a scan and an inline P&L recomputation, computes `TickPositions` |
| `StockData.TickSocketScan` | src/store/slices/stockDataSlice.ts:295-300 | the raw-table block, a scan and a requote with no insertion, computes `TickSocket` |
| `StockData.RevalueIdempotent` | src/store/slices/stockDataSlice.ts:287-291 | revaluing a position at the price it already carries changes nothing |
| `StockData.TickWatchlistIdempotent` | src/store/slices/stockDataSlice.ts:277-282 | applying a tick twice to the watchlist equals applying it once |
| `StockData.TickPositionsIdempotent` | src/store/slices/stockDataSlice.ts:285-292 | applying a tick twice to the positions equals applying it once |
| `StockData.TickSocketIdempotent` | src/store/slices/stockDataSlice.ts:295-300 | applying a tick twice to the raw table equals applying it once |
| `StockData.TickKeepsPositionsConsistent` | src/store/slices/stockDataSlice.ts:285-292 | when every position's P&L agrees with its current price, that still holds after a tick |
| `StockData.WithoutId` | src/store/slices/stockDataSlice.ts:367 | the filtered watchlist holds exactly the items whose id differs; an absent id changes nothing |
| `StockData.WithoutIdCounts` | src/store/slices/stockDataSlice.ts:367 | items with the id occur zero times afterwards; every other item occurs as often as before |
| `StockData.WithoutIdAppend` | src/store/slices/stockDataSlice.ts:367 | filtering distributes over concatenation, so the kept items keep their order |
| `StockData.SeedWatchlist` | src/store/slices/stockDataSlice.ts:307-313 | three items stamped with the seeding time, with distinct ids, distinct symbols and positive prices |
| `StockData.SeedTransactions` | src/store/slices/stockDataSlice.ts:322-327 | two completed deposits stamped with the seeding time, with distinct ids, adding up to the seeded balance |
| `StockData.SeedDataAgrees` | src/store/slices/stockDataSlice.ts:315-328 | each seeded position has `pnl == (currentPrice − avgPrice)·quantity`, and its percentage is the exact figure to within 0.005; the seeded deposits add up to the seeded balance |
| `StockData.StockStore.constructor` | src/store/slices/stockDataSlice.ts:60-73 | the initial state: all collections empty, not loading, no error, balance 0 |
| `StockData.StockStore.SetStockListSocket` | src/store/slices/stockDataSlice.ts:270-272 | replaces the raw price table and nothing else |
| `StockData.StockStore.UpdateStockPrice` | src/store/slices/stockDataSlice.ts:273-301 | runs the three scans, so the three collections become `TickWatchlist`, `TickPositions` and `TickSocket` of their old values; the frame leaves commodities, orders, balance and everything else untouched |
| `StockData.StockStore.ClearError` | src/store/slices/stockDataSlice.ts:302-304 | clears the error only |
| `StockData.StockStore.CheckAndAddMockData` | src/store/slices/stockDataSlice.ts:305-329 | seeds the watchlist only if it is empty, the positions only if they are empty, and balance 10000 with two transactions only if the balance is 0; afterwards no guard holds |
| `StockData.StockStore.Pending` | src/store/slices/stockDataSlice.ts:334-337 | every pending case (this one and the eleven alike) sets loading and clears the error |
| `StockData.StockStore.Rejected` | src/store/slices/stockDataSlice.ts:343-347 | every rejected case clears loading and stores the reason; only `getWatchList` also sets `watchlistFailed` |
| `StockData.StockStore.GetWatchListFulfilled` | src/store/slices/stockDataSlice.ts:338-342 | replaces the watchlist, clears loading and `watchlistFailed` |
| `StockData.StockStore.Acknowledged` | src/store/slices/stockDataSlice.ts:353-355 | the add-to-watchlist, buy, sell and quotes fulfilled cases clear loading only |
| `StockData.StockStore.RemoveFromWatchlistFulfilled` | src/store/slices/stockDataSlice.ts:365-368 | the watchlist becomes `WithoutId` of the old one; loading is cleared |
| `StockData.StockStore.GetMyStocksFulfilled` | src/store/slices/stockDataSlice.ts:378-381 | replaces the held stocks, clears loading |
| `StockData.StockStore.GetMyCommoditiesFulfilled` | src/store/slices/stockDataSlice.ts:391-394 | replaces the commodities, clears loading |
| `StockData.StockStore.GetStockHistoryFulfilled` | src/store/slices/stockDataSlice.ts:404-407 | replaces the history, clears loading |
| `StockData.StockStore.ApplyFunds` | src/store/slices/stockDataSlice.ts:455-460 | a truthy new balance replaces the balance (0 is ignored); a returned transaction goes in front and the old ones follow unchanged |
| `StockData.StockStore.DepositFulfilled` | src/store/slices/stockDataSlice.ts:453-461 | clears loading and applies the deposit result as `ApplyFunds` does |
| `StockData.StockStore.WithdrawFulfilled` | src/store/slices/stockDataSlice.ts:471-479 | clears loading and applies the withdrawal result as `ApplyFunds` does |
| `StockData.StockStore.GetPaymentInfoFulfilled` | src/store/slices/stockDataSlice.ts:489-494 | balance, transactions and payment methods become the payload's, or 0 and empty when absent |
| `StockData.UpdateStockPriceTwice` | src/store/slices/stockDataSlice.ts:273-301 | dispatching the same tick twice leaves the store as dispatching it once |
| `StockData.UpdateStockPriceAbsent` | src/store/slices/stockDataSlice.ts:273-301 | a tick whose symbol is in none of the three collections changes nothing |
| `StockData.CheckAndAddMockDataTwice` | src/store/slices/stockDataSlice.ts:305-329 | seeding twice leaves the store as seeding once |
| `StockData.GetWatchListRound` | src/store/slices/stockDataSlice.ts:76-89 | pending, settlement, then fulfilled or rejected: a good envelope replaces the watchlist with its data and clears the failure flag; any other leaves the watchlist, raises the flag and stores a non-empty reason |
| `StockData.RemoveFromWatchlistRound` | src/store/slices/stockDataSlice.ts:106-119 | a truthy `status` removes exactly the items with the given id; otherwise the watchlist stays and the reason is stored |
| `StreamClient.Pow2` | src/hooks/useWebSocket.ts:68 | `2^k` is at least 1, and even for k > 0 |
| `StreamClient.Pow2Monotone` | src/hooks/useWebSocket.ts:68 | `2^j ≤ 2^k` for `j ≤ k` |
| `StreamClient.Backoff` | src/hooks/useWebSocket.ts:68 | the delay lies between 1000 and 30000 ms, and below the ceiling it is exactly `1000·2^k` |
| `StreamClient.BackoffSchedule` | src/hooks/useWebSocket.ts:66-68 | counters 1 to 5 give 2000, 4000, 8000, 16000 and 30000 ms |
| `StreamClient.BackoffMonotone` | src/hooks/useWebSocket.ts:68 | the delay never decreases as the counter grows |
| `StreamClient.BackoffCapped` | src/hooks/useWebSocket.ts:68 | from counter 5 on the delay is 30000 ms |
| `StreamClient.AfterClose` | src/hooks/useWebSocket.ts:66-74 | a close schedules a reconnect exactly when fewer than 5 attempts were used, counting first and waiting `Backoff` of the new count; the counter never passes 5 |
| `StreamClient.CloseRun` | src/hooks/useWebSocket.ts:62-75 | `n` consecutive closes give `n` scheduling decisions |
| `StreamClient.CloseRunGivesUp` | src/hooks/useWebSocket.ts:62-75 | of consecutive closes without an open, the first `5 − attempts` schedule the growing delays and every later one schedules nothing |
| `StreamClient.CloseRunFromZero` | src/hooks/useWebSocket.ts:62-75 | from a fresh counter, six closes give 2, 4, 8, 16 and 30 seconds and then no reconnect |
| `StreamClient.ParseFrame` | src/hooks/useWebSocket.ts:41-56 | a frame is dropped exactly when it is unparseable or one of `s`, `p`, `c` is falsy; with `p == c` it is the explicit division-by-zero outcome; otherwise the tick has the frame's symbol, price and change, and `changePercent·(p − c) = 100·c` |
| `StreamClient.ZeroFieldsAreDropped` | src/hooks/useWebSocket.ts:44 | a zero price, a zero change and invalid JSON each produce no tick |
| `StreamClient.Client.constructor` | src/hooks/useWebSocket.ts:12-17 | no socket, counter 0, no timer, nothing sent |
| `StreamClient.Client.Connect` | src/hooks/useWebSocket.ts:19-25 | a no-op exactly when the socket is open; otherwise a new connecting socket that captured the given symbols |
| `StreamClient.Client.OnOpen` | src/hooks/useWebSocket.ts:27-37 | the socket is open, the counter is 0, and exactly one subscribe frame for the captured symbols is sent if there are any, none otherwise |
| `StreamClient.Client.OnMessage` | src/hooks/useWebSocket.ts:39-60 | the outcome is `ParseFrame`; a dispatched tick updates the store as `updateStockPrice`; any other frame leaves the store unchanged |
| `StreamClient.Client.OnClose` | src/hooks/useWebSocket.ts:62-75 | the socket is closed and the counter and timer follow `AfterClose`; the counter stays at most 5 |
| `StreamClient.Client.OnError` | src/hooks/useWebSocket.ts:77-79 | changes nothing |
| `StreamClient.Client.TimerFires` | src/hooks/useWebSocket.ts:70-73 | the timer is gone and the `connect` that scheduled it runs with its captured symbols |
| `StreamClient.Client.Disconnect` | src/hooks/useWebSocket.ts:86-95 | no timer and no socket afterwards; the frame leaves the counter untouched |
| `StreamClient.Client.Subscribe` | src/hooks/useWebSocket.ts:97-103 | appends one subscribe frame when the socket is open, nothing otherwise |
| `StreamClient.Client.Unsubscribe` | src/hooks/useWebSocket.ts:105-111 | appends one unsubscribe frame when the socket is open, nothing otherwise |
| `StreamClient.Client.SetSymbols` | src/hooks/useWebSocket.ts:12 | the hook's symbol argument is replaced |
| `StreamClient.Client.ConnectionEffect` | src/hooks/useWebSocket.ts:113-117 | connects with the current symbols only when there are any |
| `StreamClient.Client.ConnectionEffectCleanup` | src/hooks/useWebSocket.ts:118-120 | disconnects |
| `StreamClient.Client.SubscriptionEffect` | src/hooks/useWebSocket.ts:123-128 | on an open socket, re-sends the whole current symbol list; otherwise nothing |
| `StreamClient.ReconnectGivesUp` | src/hooks/useWebSocket.ts:62-75 | after a socket and five reconnects that all close before opening, the counter is 5 and no timer is pending |
| `Auth.Shape` | src/store/slices/authSlice.ts:28-109 | `loginUser` and `getUserProfile` are guarded on `status && data`; those two and `verifyOTP` return `response.data`, the others the envelope; the fallback texts are the source's and none is empty |
| `Auth.LoginClassification` | src/store/slices/authSlice.ts:30-44 | `loginUser` fulfils exactly when `status && data`, with the present data as payload, and otherwise rejects with the message or "Login failed" |
| `Auth.VerifyOTPClassification` | src/store/slices/authSlice.ts:79-89 | `verifyOTP` fulfils on `status` alone and hands over `data` even when it is absent |
| `Auth.TokenStorageRoundTrip` | src/lib/api.ts:47-73 | `getUserToken` after `setUserToken(t)` gives `t`; the remember-me flag does not disturb the token; after `clearAll` the token is empty |
| `Auth.AuthStore.constructor` | src/store/slices/authSlice.ts:19-25 | no user, the token `getUserToken` reads from storage, authenticated exactly when that token is non-empty |
| `Auth.AuthStore.LoginUserThunk` | src/store/slices/authSlice.ts:28-45 | fulfils with `data` exactly when `status && data`, storing the token and, if asked, the remember-me flag; a rejection leaves storage alone |
| `Auth.AuthStore.VerifyOTPThunk` | src/store/slices/authSlice.ts:77-94 | fulfils with the possibly absent `data` exactly when `status` is truthy, storing the token only when a truthy one came back |
| `Auth.AuthStore.Logout` | src/store/slices/authSlice.ts:115-121 | user and token null, not authenticated, no error, storage cleared |
| `Auth.AuthStore.ClearError` | src/store/slices/authSlice.ts:122-124 | clears the error only |
| `Auth.AuthStore.SetToken` | src/store/slices/authSlice.ts:125-129 | token set and stored, authenticated; the user is outside the frame |
| `Auth.AuthStore.Pending` | src/store/slices/authSlice.ts:134-137 | every pending case sets loading; all but `getUserProfile` clear the error |
| `Auth.AuthStore.Rejected` | src/store/slices/authSlice.ts:145-149 | every rejected case clears loading and stores the reason; a failed login also drops the authenticated flag |
| `Auth.AuthStore.LoginUserFulfilled` | src/store/slices/authSlice.ts:138-144 | user and token from the payload, authenticated, no error, not loading |
| `Auth.AuthStore.Acknowledged` | src/store/slices/authSlice.ts:155-171 | registration and OTP sending clear loading and error and leave the session outside the frame |
| `Auth.AuthStore.VerifyOTPFulfilled` | src/store/slices/authSlice.ts:181-190 | user, token and the flag change only when the payload has both a user and a truthy token; otherwise they are unchanged |
| `Auth.AuthStore.GetUserProfileFulfilled` | src/store/slices/authSlice.ts:199-202 | the profile becomes the user; loading is cleared |
| `Auth.RejectedLoginDropsFlag` | src/store/slices/authSlice.ts:134-149 | a login that fails drops the authenticated flag of an existing session, though user and token stay |
| `Auth.LoginRound` | src/store/slices/authSlice.ts:28-149 | a successful login authenticates, holds the answer's user and token, stores that token and, if asked, the remember-me flag; a failed one stores the reason, drops the flag and leaves session and storage alone |
| `Auth.ReloadAfterSetToken` | src/store/slices/authSlice.ts:125-129 | a store rebuilt from storage after `setToken(t)` has token `t` and is authenticated exactly when `t` is non-empty |
| `Auth.ReloadAfterLogout` | src/store/slices/authSlice.ts:115-121 | a store rebuilt from storage after `logout` has the empty token and is not authenticated |
| `Auth.ReloadAfterLogin` | src/store/slices/authSlice.ts:28-45 | a store rebuilt after a successful login has the login's token, so it is authenticated when that is non-empty; with no token in the answer it is authenticated with "undefined" |

## Left out

- The REST helpers, the HTTP client and its interceptors, and the endpoint URLs are not modelled. A response is an already-received envelope `{status, data?, message?}`. The async machinery that turns a thunk into pending, fulfilled and rejected actions is left out: each reducer case is its own method.
- Browser storage is a map field of the auth store. A browser without a window, where the helpers do nothing, is not modelled.
- The WebSocket transport is an event source. `JSON.parse` is folded into `Inbound`, a frame that is already decoded or marked unparseable. The model assumes `s` is a string and `p` and `c` are numbers.
- Console logging is left out. So are the time a timer waits (only its delay is recorded) and a `new WebSocket` constructor that throws.
- The React hook lifecycle is left out: `useRef`, `useCallback` and effect dependencies. The two effects and a change of the `symbols` argument are separate events. Ordering them as React would is up to the caller.
- Only the current socket's notifications are modelled. A superseded socket can still report: the asynchronous close that follows `disconnect`, or a connecting socket replaced by a later `connect`. Those reports are not modelled.
- StreamClient.Client.OnClose: a reconnect scheduled while another is pending replaces it in the model. In the source, the earlier timer would still fire.
- Floating point is not modelled: rounding, NaN and Infinity. `Math.pow(2, k)` is exact here.
- StockData.StockStore.UpdateStockPrice: requires the first position with the tick's symbol to have a nonzero average price, because the source's `pnlPercent` would be Infinity or NaN.
- StreamClient.Client.OnMessage: requires every held position to have a nonzero average price, which is stronger than a single tick needs.
- StreamClient.ParseFrame: a frame with `p == c` gives the outcome `DivideByZero` and dispatches nothing. The source dispatches a tick whose `changePercent` is ±Infinity, and a real number cannot hold that.
- StockData.StockStore.CheckAndAddMockData: one timestamp `now` stands for every `new Date().toISOString()` call in the seed data.
- The slice's `orders` field is in the state, but no reducer writes it.
- The pages, the components, the dashboard totals, the view-local filter and sort helpers, the demo login fallback and the store configuration are outside this model.
- Auth.AuthStore.LoginUserThunk: `None` stands for a token that is absent or `null`, and both are stored as "undefined". The source stores an explicit `null` as "null".
- Thunks.Settle: `Body(None)` stands for a `data` field that is absent or falsy, and the model does not tell those apart.
