# Crypto portfolio dashboard: portfolio store and price stream, in Dafny

This project models the two parts of the crypto-portfolio dashboard that carry logic
with a statable contract, and proves properties of them.

- **The portfolio store** (`lib/features/portfolio/portfolioSlice.ts`). The slice state
  `{assets, initialTotalValue}` is the class `Portfolio.PortfolioState`. Its reducers
  `addAsset`, `removeAsset` and `updateAssetPrice` are methods that update the state in
  place. Each method is tied to a function from the old `Snapshot` to the new one
  (`AddAssetTo`, `RemoveAssetFrom`, `UpdatePriceIn`), and the lemmas state the store's
  promises about those functions. The promises are: a symbol is merged into its first
  holding or appended, symbols stay unique, repeated adds sum their quantities, removal
  keeps the others in order and is idempotent, a tick reprices only the first holding of
  its symbol, and the baseline is captured at most once.
  The selectors are pure functions in `PortfolioSelectors`: total value, percentage change,
  number of holdings, best performer, allocation breakdown and the colour hash. The colour
  hash is computed by the loop method `GetRandomColor`, which is proved against the
  function `StringHash`.
- **The price-stream manager** (`lib/websocket.ts`). The module variables `socket`,
  `reconnectTimeout` and `priceUpdateCallback` are fields of the class
  `PriceStream.PriceStreamManager`. The entry points and socket handlers are its methods.
  Two more fields stand for the environment:
  - `sockets` logs every WebSocket created, with its ready state;
  - `timers` holds the runtime's pending reconnect timers, by handle.
  The object invariant `Valid()` says every live socket is the current one, so at most one
  socket is ever live. Subscription-URL construction is pure: the stream part of the URL
  splits back into exactly one `<symbol>@ticker` name per subscribed symbol.

JavaScript numbers are modelled as exact `real`s. The colour hash works on `int`, with
ECMAScript `ToInt32` written out for `<<`.

Where the documented behaviour and the code differ, the model follows the code:
- `updateAssetPrice` records a delta only when the previous price is **positive**
  (`> 0`), not merely non-zero.
- The chart label removes the **first** occurrence of `"USDT"` anywhere in the symbol, not
  only a trailing quote currency.
- The reducer `addAsset` does not reject a non-positive quantity. That check lives in the
  add-asset form, so the model has no such precondition.
- `onclose` never resets `socket`. After an unclean close, `addSymbolToStream` still sees a
  socket and reconnects. The model keeps the stale reference.

## Model

| member | source | states |
|---|---|---|
| Portfolio.FindIndex | lib/features/portfolio/portfolioSlice.ts:44 | the result is -1 or the first position holding the symbol; no earlier position (and, for -1, no position at all) holds it |
| Portfolio.TotalValue | lib/features/portfolio/portfolioSlice.ts:89-93 | the left-to-right sum of quantity × price over the holdings, starting at 0; `selectTotalValue` (lines 108-111) is the same reduce |
| Portfolio.TotalValueAppend | lib/features/portfolio/portfolioSlice.ts:89-93 | appending a holding adds exactly quantity × price to the total |
| Portfolio.TotalValueReplace | lib/features/portfolio/portfolioSlice.ts:89-93 | replacing one holding changes the total by new worth minus old worth |
| Portfolio.TotalValueNonNegative | lib/features/portfolio/portfolioSlice.ts:89-93 | with non-negative quantities and prices the total is non-negative |
| Portfolio.WithoutId | lib/features/portfolio/portfolioSlice.ts:58 | the filter keeps exactly the holdings whose id differs, never grows the list, and is the identity when no holding has the id |
| Portfolio.AddAssetTo | lib/features/portfolio/portfolioSlice.ts:42-56 | `addAsset` on a value: when some holding has the payload's symbol, the first such holding's quantity grows by the payload's; otherwise the payload is appended; the baseline is kept |
| Portfolio.RemoveAssetFrom | lib/features/portfolio/portfolioSlice.ts:57-62 | `removeAsset` on a value: the holdings become `WithoutId` of the id; the baseline is kept |
| Portfolio.RepricedAsset | lib/features/portfolio/portfolioSlice.ts:69-74 | the edits to the found holding: delta := new − old price only when the old price is positive, price := tick, timestamp := now |
| Portfolio.UpdatePriceIn | lib/features/portfolio/portfolioSlice.ts:63-84 | `updateAssetPrice` on a value: no change for an unheld symbol; otherwise the first holding of it is repriced, and a zero baseline becomes the total after the write |
| Portfolio.PortfolioState.constructor | lib/features/portfolio/portfolioSlice.ts:13-36 | the store starts in the loaded state |
| Portfolio.PortfolioState.AddAsset | lib/features/portfolio/portfolioSlice.ts:42-56 | the new state is `AddAssetTo` of the old one (merge into first match, else append) |
| Portfolio.PortfolioState.RemoveAsset | lib/features/portfolio/portfolioSlice.ts:57-62 | the new state keeps exactly the holdings with a different id; the baseline is untouched |
| Portfolio.PortfolioState.UpdateAssetPrice | lib/features/portfolio/portfolioSlice.ts:63-84 | the new state is `UpdatePriceIn` of the old one (reprice first match, capture baseline when 0) |
| Portfolio.AddAssetMergesIntoFirstMatch | lib/features/portfolio/portfolioSlice.ts:44-48 | a held symbol: the first holding of it gains the payload quantity, nothing else about it changes, other holdings, the length and the baseline are unchanged |
| Portfolio.AddAssetAppendsNewSymbol | lib/features/portfolio/portfolioSlice.ts:49-52 | a symbol not held: the payload is appended unchanged after the existing holdings |
| Portfolio.AddAssetKeepsSymbolsUnique | lib/features/portfolio/portfolioSlice.ts:44-52 | pairwise-distinct symbols stay distinct; the symbol set grows by exactly the payload's symbol |
| Portfolio.WithoutIdKeepsSymbolsUnique | lib/features/portfolio/portfolioSlice.ts:58 | filtering a list with pairwise-distinct symbols by id leaves the symbols pairwise distinct |
| Portfolio.RemoveAssetKeepsSymbolsUnique | lib/features/portfolio/portfolioSlice.ts:57-62 | `removeAsset` keeps the holdings' symbols pairwise distinct |
| Portfolio.UpdatePriceKeepsSymbolsUnique | lib/features/portfolio/portfolioSlice.ts:63-84 | `updateAssetPrice` leaves the set of symbols unchanged and keeps them pairwise distinct |
| Portfolio.RepeatedAddsMergeIntoOneHolding | lib/features/portfolio/portfolioSlice.ts:44-52 | any number of adds of one new symbol leave exactly one holding of it, appended, whose quantity is the sum of all added quantities |
| Portfolio.WithoutIdConcat | lib/features/portfolio/portfolioSlice.ts:58 | removal distributes over concatenation, so survivors keep their original order |
| Portfolio.RemoveAssetIdempotent | lib/features/portfolio/portfolioSlice.ts:57-58 | removing twice equals removing once; removing an absent id leaves the state unchanged |
| Portfolio.UpdateUnknownSymbolIsNoop | lib/features/portfolio/portfolioSlice.ts:65-67 | a tick for a symbol no holding has leaves assets and baseline unchanged |
| Portfolio.UpdateRepricesFirstMatch | lib/features/portfolio/portfolioSlice.ts:65-74 | only the first holding of the symbol changes: price := tick, delta := new − old when old > 0 else kept, timestamp := now, id/symbol/quantity kept |
| Portfolio.BaselineCapturedOnce | lib/features/portfolio/portfolioSlice.ts:76-79 | a non-zero baseline is never changed by any reducer; a zero one becomes the post-update total when a held symbol is repriced |
| Portfolio.BaselineFromPriorTotal | lib/features/portfolio/portfolioSlice.ts:77-79 | the captured baseline is the pre-tick total with the repriced holding's old worth replaced by its new worth |
| Portfolio.BaselineWorkedExample | lib/features/portfolio/portfolioSlice.ts:65-79 | BTC ×2 at price 0: tick 100 gives baseline 200 and no delta; tick 110 gives delta 10 and keeps baseline 200 |
| PortfolioSelectors.PercentageChange | lib/features/portfolio/portfolioSlice.ts:112-119 | 0 when the baseline is 0; otherwise the percentage r with baseline·(1 + r/100) = current total |
| PortfolioSelectors.PercentageChangeSign | lib/features/portfolio/portfolioSlice.ts:112-119 | with a positive baseline the change is positive iff the total grew, zero iff it is unchanged |
| PortfolioSelectors.PercentageChangeExample | lib/features/portfolio/portfolioSlice.ts:112-119 | baseline 200 and total 220 give 10 |
| PortfolioSelectors.TotalAssets | lib/features/portfolio/portfolioSlice.ts:120 | `selectTotalAssets`: the number of holdings |
| PortfolioSelectors.TotalAssetsAfterAddAndRemove | lib/features/portfolio/portfolioSlice.ts:120 | the count grows by one on add iff the symbol was new; removal shrinks it iff the id was present and never grows it |
| PortfolioSelectors.WithoutIdDropsPresentId | lib/features/portfolio/portfolioSlice.ts:58 | the filter drops at least one holding when some holding has the id |
| PortfolioSelectors.ChangePercent | lib/features/portfolio/portfolioSlice.ts:126-134 | 0 when the delta is 0 or price equals delta; otherwise the percentage by which the reconstructed previous price (price − delta) grew to the current price |
| PortfolioSelectors.BestStep | lib/features/portfolio/portfolioSlice.ts:125-139 | one step of the reduce: the current holding wins only when its change is strictly larger; the winner carries its own change, which is at least both inputs' changes |
| PortfolioSelectors.BestFold | lib/features/portfolio/portfolioSlice.ts:125-139 | the reduce over a non-empty list ends on the seed's holding or a listed one, carries that holding's own change, and that change is at least the seed's and every listed holding's |
| PortfolioSelectors.BestPerformer | lib/features/portfolio/portfolioSlice.ts:121-140 | `selectBestPerformer`: null iff there are no holdings; otherwise a held holding with its own change, which no holding exceeds |
| PortfolioSelectors.FirstMaximumIsUnique | lib/features/portfolio/portfolioSlice.ts:136-138 | the first maximal position is unique |
| PortfolioSelectors.BestFoldFindsFirstMaximum | lib/features/portfolio/portfolioSlice.ts:125-139 | the reduce, started from the prefix's first maximum, ends at the first maximum of the whole list with its own change |
| PortfolioSelectors.BestPerformerIsFirstMaximum | lib/features/portfolio/portfolioSlice.ts:121-140 | null iff there are no holdings; otherwise the first holding with maximal change (ties keep the earlier) paired with that change |
| PortfolioSelectors.IndexOf | lib/features/portfolio/portfolioSlice.ts:153 | -1 or the position of the first occurrence of the pattern; no earlier occurrence |
| PortfolioSelectors.RemoveFirst | lib/features/portfolio/portfolioSlice.ts:153 | unchanged when the pattern does not occur; otherwise shorter by the pattern, and re-inserting the pattern at its first position restores the input |
| PortfolioSelectors.Label | lib/features/portfolio/portfolioSlice.ts:153 | the slice name: the symbol with its first "USDT" removed (`RemoveFirst`) |
| PortfolioSelectors.LabelExamples | lib/features/portfolio/portfolioSlice.ts:153 | "BTCUSDT" is labelled "BTC"; a symbol without "USDT" is its own label |
| PortfolioSelectors.Share | lib/features/portfolio/portfolioSlice.ts:150 | `value / total * 100` scaled back by the total is the value in percent |
| PortfolioSelectors.Entry | lib/features/portfolio/portfolioSlice.ts:149-157 | the `map` callback: name = first-"USDT"-stripped symbol, value = quantity × price, percentage = `Share` of the total, colour = `Color(symbol)` |
| PortfolioSelectors.Allocation | lib/features/portfolio/portfolioSlice.ts:148-158 | one slice per holding, in order, each the holding's label, worth, share and colour |
| PortfolioSelectors.PortfolioData | lib/features/portfolio/portfolioSlice.ts:142-159 | empty when the total is 0; otherwise one slice per holding in order, labelled by symbol, worth quantity × price, coloured `Color(symbol)`, a palette entry |
| PortfolioSelectors.AllocationShares | lib/features/portfolio/portfolioSlice.ts:149-150 | each slice's percentage times the total equals its worth times 100 |
| PortfolioSelectors.AllocationPercentagesSum | lib/features/portfolio/portfolioSlice.ts:148-158 | the shares against a fixed total sum to the holdings' total as a percentage of it |
| PortfolioSelectors.PercentagesSumTo100 | lib/features/portfolio/portfolioSlice.ts:142-159 | whenever slices are shown, their percentages sum to exactly 100 |
| PortfolioSelectors.AllocationExample | lib/features/portfolio/portfolioSlice.ts:142-159 | holdings worth 75 and 25 get shares 75 and 25 |
| PortfolioSelectors.ToInt32 | lib/features/portfolio/portfolioSlice.ts:165 | the result is in the signed 32-bit range and congruent to the input modulo 2^32 |
| PortfolioSelectors.ShiftLeft5 | lib/features/portfolio/portfolioSlice.ts:165 | `hash << 5`: in the signed 32-bit range and congruent to hash × 32 modulo 2^32 |
| PortfolioSelectors.HashStep | lib/features/portfolio/portfolioSlice.ts:165 | one loop iteration: the character code plus `(hash << 5) - hash` |
| PortfolioSelectors.StringHash | lib/features/portfolio/portfolioSlice.ts:163-166 | the loop's hash: 0 for the empty string, else `HashStep` of the hash of all but the last character with the last character (via `LastStepHash`) |
| PortfolioSelectors.StringHashBound | lib/features/portfolio/portfolioSlice.ts:163-166 | the hash's magnitude grows by at most 2^31 + 0x110000 per character, so it stays exact in a double for strings under about four million characters |
| PortfolioSelectors.ColorIndex | lib/features/portfolio/portfolioSlice.ts:179 | `Math.abs(hash) % 8` is a valid palette index |
| PortfolioSelectors.Color | lib/features/portfolio/portfolioSlice.ts:162-180 | the colour is one of the eight palette entries, a function of the symbol alone |
| PortfolioSelectors.GetRandomColor | lib/features/portfolio/portfolioSlice.ts:162-180 | the loop computes `StringHash` and returns the palette entry it selects |
| PriceStream.ToLower | lib/websocket.ts:32 | `toLowerCase` applied character by character (ASCII letters only) |
| PriceStream.ToLowerIsLowerCase | lib/websocket.ts:32 | lower-casing keeps the length, leaves no upper-case letter, changes nothing else and is idempotent |
| PriceStream.SubscriptionSymbols | lib/websocket.ts:26-42 | never empty; the default five symbols when none are saved; otherwise the saved symbols lower-cased, in order |
| PriceStream.StreamNames | lib/websocket.ts:45 | one name per symbol, each the symbol followed by "@ticker" |
| PriceStream.Join | lib/websocket.ts:45 | `join("/")`: the parts in order with one separator between neighbours; empty for no parts |
| PriceStream.SplitJoinRoundTrip | lib/websocket.ts:45 | splitting a "/"-join of separator-free names gives the names back |
| PriceStream.StreamUrl | lib/websocket.ts:44-46 | the fixed endpoint followed by the "/"-joined stream names of the subscribed symbols |
| PriceStream.StreamUrlListsEachSymbol | lib/websocket.ts:44-46 | the URL is the fixed endpoint followed by exactly one "<symbol>@ticker" per subscribed symbol, "/"-separated |
| PriceStream.AddedSymbolIsSubscribed | lib/websocket.ts:29-32 | after `addAsset` is saved, the added symbol, lower-cased, is among the subscribed symbols |
| PriceStream.TrimStart | lib/websocket.ts:120 | the result is a suffix of the input, everything cut off is white space, and it is empty or starts with a non-space |
| PriceStream.TrimEnd | lib/websocket.ts:120 | the result is a prefix of the input, everything cut off is white space, and it is empty or ends with a non-space |
| PriceStream.Trim | lib/websocket.ts:120 | `trim()`: the slice of the input left after cutting white space at both ends, empty or starting and ending with a non-space |
| PriceStream.TrimEmptyIffBlank | lib/websocket.ts:120 | `trim()` is empty exactly when every character is white space |
| PriceStream.CloseSocket | lib/websocket.ts:20-22 | `socket.close()`: a connecting or open socket starts closing; a closing or closed one is unchanged |
| PriceStream.CloseCurrent | lib/websocket.ts:20-22 | `if (socket) socket.close()` on the socket log (also lines 109-110): the current socket, when there is one, is closed and the rest of the log is kept |
| PriceStream.CloseCurrentLeavesNoneLive | lib/websocket.ts:20-22 | closing the only live socket leaves the log the same length with no socket connecting or open |
| PriceStream.PriceStreamManager.constructor | lib/websocket.ts:2-8 | starts with no socket, no timer, no callback |
| PriceStream.PriceStreamManager.Connect | lib/websocket.ts:16-49 | stores the callback, closes the current socket, opens one on the URL for the saved symbols; afterwards only the new socket is live; timers untouched |
| PriceStream.PriceStreamManager.OnOpen | lib/websocket.ts:51-59 | the socket is open, the timer named by `reconnectTimeout` is cleared and none is named |
| PriceStream.PriceStreamManager.OnMessage | lib/websocket.ts:61-77 | the callback is invoked with (symbol, price) iff the frame parsed, has `data`, and a callback is set; nothing else changes |
| PriceStream.PriceStreamManager.OnClose | lib/websocket.ts:79-93 | exactly one new 5000 ms timer with the current callback iff the close is unclean and a callback is set; otherwise no timer |
| PriceStream.PriceStreamManager.OnCloseReplacingTimer | lib/websocket.ts:79-93 | as `OnClose`, but the pending timer is cleared first, so every pending timer stays reachable from `reconnectTimeout` |
| PriceStream.PriceStreamManager.FireReconnectTimer | lib/websocket.ts:89-91 | a firing timer is dropped and reconnects with the callback it captured |
| PriceStream.PriceStreamManager.Disconnect | lib/websocket.ts:101-116 | no socket, no callback, no timer named; terminal when no stray timer was pending; a second call changes nothing |
| PriceStream.PriceStreamManager.AddSymbolToStream | lib/websocket.ts:119-127 | no-op for a blank symbol or without socket or callback; otherwise a reconnect with the stored callback on the saved symbols, independent of the argument |
| PriceStream.AtMostOneLiveSocket | lib/websocket.ts:20-23 | in every valid state no two sockets are live |
| PriceStream.TwoPendingTimers | lib/websocket.ts:89-91 | with `onclose` as written, an unclean close, `addSymbolToStream` and a second unclean close leave timers 0 and 1 pending while `reconnectTimeout` names only timer 1 |
| PriceStream.LeakedTimerRevivesStream | lib/websocket.ts:89-91 | continuing that run, `disconnectWebSocket` clears only timer 1, and when timer 0 fires the stream is live again on the old callback |
| PriceStream.ReplacingTimerStopsForGood | lib/websocket.ts:101-116 | the same run with the corrected `onclose` ends terminal |

## Findings

| source | as written | input that shows it | evidently intended | confidence | as-written member | corrected member |
|---|---|---|---|---|---|---|
| lib/websocket.ts:89-91 | `onclose` stores a new timer handle in `reconnectTimeout` without clearing a timer that is still pending, so the only handle to the older timer is lost; `disconnectWebSocket` (lines 103-106) then clears the newer timer only | connect; unclean close (timer 0); `addSymbolToStream` while timer 0 is pending; the new socket also closes uncleanly (timer 1); `disconnectWebSocket`; timer 0 fires and reconnects with the old callback | clear any pending reconnect before scheduling another, so that disconnecting stops the stream for good | medium, not executed | PriceStream.LeakedTimerRevivesStream | PriceStream.PriceStreamManager.OnCloseReplacingTimer |

## Left out

- Persistence: `loadState` and `saveState` (`portfolioSlice.ts:19-34, 96-104`) and the
  storage read in `websocket.ts:27-37` are browser storage and JSON. The store's
  constructor takes the loaded state. The saved symbols are an input to `Connect`,
  `FireReconnectTimer` and `AddSymbolToStream`. Absent or unreadable storage is the empty
  list.
- Transport and timers: the WebSocket itself, `setTimeout`/`clearTimeout`, `JSON.parse`
  and `parseFloat` are foreign runtime calls. Socket events are methods the environment
  calls. A frame arrives already parsed (`Frame`), and the transport decides `wasClean`.
  The handlers never consult which socket fired them, so only `OnOpen` and `OnClose` name
  one, to record its ready state.
- `onerror` (`websocket.ts:95-97`) and all console logging only log; no state changes.
- Floating point: prices, quantities and percentages are reals, so "percentages sum to
  100" holds exactly only in that abstraction. `NaN` from `parseFloat` of a bad price is
  not modelled.
- `StringHash` uses unbounded integers. This is exact only while the hash fits a double
  (see `StringHashBound`). Each `char` is taken as one UTF-16 code unit, so characters
  outside the Basic Multilingual Plane are not modelled.
- ToLower: only ASCII letters are lower-cased. Symbols are ASCII tickers.
- Ids from `uuid` and `new Date().toISOString()` timestamps are opaque strings supplied by
  the caller.
- `selectAssets` (`portfolioSlice.ts:107`) only returns the list (`State().assets`).
- `selectBestPerformer`'s `{...asset, changePercent}` spread is modelled as the pair
  `Performer(asset, changePercent)`.
- Redux Toolkit and Immer (action creators, draft proxies, `RootState`), the store
  configuration, and every React component are left out.
- PriceStream.StreamUrlListsEachSymbol: proved only for saved symbols without "/". A "/"
  inside a symbol would make the stream list split into more names than symbols.
