# Stock price checker: likes and quotes route

A model of the `GET /api/stock-prices` route of a small stock-price-checker service
(`routes/api.js`). The route takes one ticker (`stock=GOOG`) or a list of tickers
(`stock=GOOG&stock=MSFT`) and an optional `like=true`. For each ticker it finds or creates
the stored record, adds the client address to the record's likes when a like is asked for and
the address is not there yet, fetches the latest price from a quote proxy, and answers with
`{stock, price, likes}` per ticker. With exactly two tickers each view also carries
`rel_likes`, its likes minus the other's. A missing price shows as `'N/A'`. A store failure, or a quote
fetch that rejects (a network failure or an HTTP status outside 2xx), answers 500, and a malformed `stock` query answers 400.

The model has four modules:

- `Wrappers` (`wrappers.dfy`): the `Option` type. It stands for JavaScript's `undefined`/`null`.
- `StockStore` (`stock_store.dfy`): the record store as a class `Store` whose `records` map
  (ticker code to list of liker addresses) is updated in place by `SaveStock`. This is
  `saveStock`. Its specification functions `SavedLikes`/`AfterSave` are pure, and the lemmas
  about them give creation, append-only growth, idempotence, no duplicates and locality.
- `StockViews` (`stock_views.dfy`): view assembly. `MapViews` is the `results.map(...)`.
  `ParseData` is `parseData`, `PairViews` is the inline assembly of the list path, and
  `WithRelLikes` attaches `rel_likes`. `PriceOf` and `SinglePriceOf` are the two ways the
  route writes the `'N/A'` fallback.
- `StockPrices` (`stock_prices.dfy`): the handler. `Classify` gives the shape of the `stock`
  query and `LikeRequested` is the `like === 'true'` rule. `Handle` is the whole handler as a
  function of the store before the request. `GetStockPrices` (with `HandleSingle`,
  `SaveAndFetchEach`, `HandleList`) runs it against a live `Store`, and its postcondition ties
  the response and the new store to `Handle`.

The external collaborators are inputs. The document store is the `records` map, and whether it
answers during a request is `Upstream.storeUp`. The quote proxy is `Upstream.quote`, which maps
each code to `Rejected` (the fetch rejects: a network failure, or a status outside 2xx, which
the HTTP client rejects by default) or to a 2xx reply whose body may be missing. A price is a real
number. Its JavaScript truthiness is `Truthy`: a missing field, `null` and `0` are falsy.

Points where the code's behaviour is easy to misread:

- The single-ticker path saves first and fetches the quote afterwards (not concurrently). So a
  rejected quote fetch answers 500 while the like stays saved. A store failure skips the
  fetch and leaves the store as it was.
- Likes are a list guarded by `indexOf`, not a set. The model proves the list never gets a
  duplicate when saves of the same code are handled one at a time.
- An empty ticker list starts no save, so it answers 200 with an empty `stockData` even when the
  store is down.
- `parseData` sets `rel_likes` whenever there is more than one result, but the handler never
  calls it. The inline code the handler does use sets `rel_likes` only for exactly two
  results. `ParseDataMatchesPairViews` proves the two agree exactly when there are at most two
  results.

## Model

| member | source | states |
|---|---|---|
| `StockStore.IndexOf` | routes/api.js:20 | `indexOf`: -1 exactly when the address is absent, otherwise the position of its first occurrence |
| `StockStore.SavedLikes` | routes/api.js:14-25 | a save only appends. Old likes are a prefix of the new ones. The list grows by one exactly when a like is asked for from an address not in it, and the requester is in the list afterwards exactly when a like was asked for or it was there before. A new record starts with `[ip]` or `[]` |
| `StockStore.AfterSave` | routes/api.js:14-26 | after a save the store holds the records it held before plus the one of the saved code, and no other |
| `StockStore.SavedLikesContents` | routes/api.js:16-23 | after a save the likes hold exactly the old likers plus the requester if a like was asked for |
| `StockStore.SaveWithoutLikeKeepsLikes` | routes/api.js:16-23 | without a like, an existing record keeps its likes and a created one is empty |
| `StockStore.SaveTouchesOnlyItsCode` | routes/api.js:15-24 | a save leaves every record but its own code's unchanged |
| `StockStore.SaveSettles` | routes/api.js:16-23 | after a save the record exists and, when a like was asked for, holds the address |
| `StockStore.SaveSettledIsNoOp` | routes/api.js:20-23 | saving a record that already exists (and already holds the address when liking) changes nothing |
| `StockStore.SaveLikeIdempotent` | routes/api.js:20-22 | liking twice from one address leaves the store as liking once |
| `StockStore.SaveKeepsNoDuplicates` | routes/api.js:20-21 | a save never puts a duplicate address into a likes list |
| `StockStore.Store.constructor` | routes/api.js:7-11 | the model's starting state: the `stock` collection the schema registers, holding no record yet, so every likes list (each defaulting to `[]`) is duplicate-free |
| `StockStore.Store.SaveStock` | routes/api.js:14-26 | updates the store in place to `AfterSave` of the old store, keeps every likes list duplicate-free, and returns the saved record with its new likes |
| `StockViews.PriceOf` | routes/api.js:33-44 | the price is 'N/A' exactly when the body is missing or its `latestPrice` is missing, `null` or 0; otherwise it is `latestPrice`. A missing price is not an error |
| `StockViews.SinglePriceOf` | routes/api.js:82-88 | the single path's fallback through an empty object and a logical or chooses the same price as the list path's conditional |
| `StockViews.MapViews` | routes/api.js:29-46 | one view per result, in input order. Each keeps the record's code as `stock`, shows the chosen price, counts the record's likes and has no `rel_likes` |
| `StockViews.WithRelLikes` | routes/api.js:49-52 | attaching `rel_likes` keeps length, order and every other field. Only the first two views get it, each as its likes minus the other's |
| `StockViews.ParseData` | routes/api.js:28-56 | `parseData` gives one view per result in input order with its code, price and like count, and `rel_likes` on exactly the first two views whenever there is more than one result, each as its likes minus the other's |
| `StockViews.PairViews` | routes/api.js:140-158 | the inline assembly keeps input order, code, price and like count, and carries `rel_likes` on every view exactly when there are two results |
| `StockViews.RelLikesAntisymmetric` | routes/api.js:155-158 | for two results, `rel_likes[0] == -rel_likes[1]` and `rel_likes[0] == likes[0] - likes[1]`. Both are 0 exactly when the like counts are equal |
| `StockViews.ParseDataMatchesPairViews` | routes/api.js:28-56 | `parseData` and the inline assembly give the same views if and only if there are at most two results |
| `StockPrices.Upper` | routes/api.js:72 | upper-casing keeps the length, turns each lower-case letter into its upper-case letter, changes nothing else and leaves no lower-case letter |
| `StockPrices.UpperIgnoresCase` | routes/api.js:72 | strings that differ only in letter case upper-case to the same code |
| `StockPrices.UpperIdempotent` | routes/api.js:72 | upper-casing an upper-cased code changes nothing |
| `StockPrices.UpperAll` | routes/api.js:126 | one code per array item, in order, each the upper case of its item, as long as it and with no lower-case letter |
| `StockPrices.Classify` | routes/api.js:70-72 | a string is one ticker, its upper case, and an array a list of tickers, the upper case of each item in order; anything else is an invalid query |
| `StockPrices.LikeRequested` | routes/api.js:75 | a like is requested if and only if `like` is the string 'true'. An array of 'true's does not count |
| `StockPrices.SaveAll` | routes/api.js:129-134 | after the list's saves every record there was is still there and every requested code has one |
| `StockPrices.SavedRecords` | routes/api.js:129-134 | one saved record per requested code, in request order, each with its own code |
| `StockPrices.SingleOutcome` | routes/api.js:70-123 | the single path answers 200 exactly when the store and the quote fetch answer, otherwise 500 'Error processing stock'. The save stays even when the fetch fails, and a store failure leaves the store alone. The view shows the code, its price and the saved like count |
| `StockPrices.ListOutcome` | routes/api.js:124-167 | the list path answers 200 with one view per code exactly when no fetch rejects and the store answers or the list is empty, otherwise 500 'Error processing multiple stocks'. A store that is down is left alone |
| `StockPrices.Handle` | routes/api.js:68-171 | a 400 'Invalid stock query' is given if and only if `stock` is neither a string nor an array, and then the store is untouched. A string answers one view and an array a list of views |
| `StockPrices.SaveAllSettles` | routes/api.js:129-134 | after the list's saves every requested record exists and, when liking, holds the address |
| `StockPrices.SaveAllStable` | routes/api.js:129-134 | saving codes whose records are all settled changes nothing |
| `StockPrices.SaveAllTouchesOnlyTickers` | routes/api.js:129-134 | the list's saves create or update exactly the requested records |
| `StockPrices.SaveAllKeepsOthers` | routes/api.js:129-134 | the list's saves leave every record of a code not requested unchanged |
| `StockPrices.SaveAllWithoutLike` | routes/api.js:129-131 | without a like, the list's saves add no liker anywhere |
| `StockPrices.SaveAllRecordsLike` | routes/api.js:129-131 | with a like, the requester ends up among the likers of every requested code |
| `StockPrices.SaveAllKeepsNoDuplicates` | routes/api.js:129-134 | the list's saves never create a duplicate liker |
| `StockPrices.SavedRecordsFinal` | routes/api.js:129-152 | with the saves in request order, each saved record already equals that code's record at the end of the request, so a later save of a repeated ticker does not change an earlier view |
| `StockPrices.SaveAllClosedForm` | routes/api.js:129-134 | after the list's saves each requested record is what one save of it from the store before the request gives: with a like it gains only the requester, and repeats change nothing |
| `StockPrices.SavedRecordsClosedForm` | routes/api.js:129-152 | each saved record of a list holds what one save of its code from the store before the request gives, whatever the order of the saves |
| `StockPrices.SaveAllOrderIndependent` | routes/api.js:129-134 | any two lists naming the same codes, in any order and with any repeats, leave the same store |
| `StockPrices.FailuresAreAllOrNothing` | routes/api.js:77-167 | a valid query fails if and only if the store is down while there is a ticker to save, or some quote fetch rejects (a network failure or a status outside 2xx). It then answers 500 with the path's message and no data. A store that is down is left untouched |
| `StockPrices.OnlyRequestedRecordsChange` | routes/api.js:70-134 | a request creates or changes only the records of its own tickers |
| `StockPrices.NoLikeNoNewLiker` | routes/api.js:99-101 | without the literal like, no request adds anyone to any likes list |
| `StockPrices.LikeIsRecorded` | routes/api.js:75-77 | with the literal like and a live store, the requester ends up among the likers of every requested ticker, even when a quote fetch then rejects |
| `StockPrices.HandleKeepsNoDuplicates` | routes/api.js:68-171 | no request ever creates a duplicate liker, when saves of the same code are handled one at a time |
| `StockPrices.HandleIdempotent` | routes/api.js:68-171 | repeating a request with the same collaborators answers the same and leaves the same store. A second like from one address never raises a count |
| `StockPrices.SingleIdempotent` | routes/api.js:70-123 | repeating the single-ticker path with the same collaborators gives the same response and store |
| `StockPrices.ListIdempotent` | routes/api.js:124-167 | repeating the ticker-list path with the same collaborators gives the same response and store |
| `StockPrices.SingleTickerView` | routes/api.js:70-92 | one ticker with a live store and a reply gets one view: the upper-cased code, the chosen price, and the record's like count after the request. It equals the view `parseData` builds |
| `StockPrices.TickerListViews` | routes/api.js:124-161 | a list whose fetches all reply, with a live store or no tickers, gets one view per ticker in order: upper-cased code, chosen price, like count after the request. For two tickers each `rel_likes` is its likes minus the other's, so the two are opposite |
| `StockPrices.TickerCaseIgnored` | routes/api.js:70-72 | `stock=goog` and `stock=GOOG` (any strings equal up to letter case) give the same response and the same store |
| `StockPrices.FreshStoreLikeExample` | routes/api.js:72-91 | `stock=goog&like=true` on an empty store creates GOOG with the requester as its one liker and shows 1 like |
| `StockPrices.FreshPairExample` | routes/api.js:124-161 | `stock=GOOG&stock=MSFT` on an empty store shows 0 likes and `rel_likes` 0 for both, with 'N/A' prices for missing price data |
| `StockPrices.EmptyListAnswersEmpty` | routes/api.js:126-161 | an empty ticker list starts no save and no fetch, and answers 200 with an empty `stockData` whether or not the store answers |
| `StockPrices.HandleSingle` | routes/api.js:70-123 | the single-ticker path over a live store produces exactly `SingleOutcome`'s response and new store |
| `StockPrices.SaveAndFetchEach` | routes/api.js:129-137 | saves each code in turn (the store becomes `SaveAll`), returns the saved records in order, and reports whether some fetch failed |
| `StockPrices.HandleList` | routes/api.js:124-167 | the list path over a live store produces exactly `ListOutcome`'s response and new store |
| `StockPrices.GetStockPrices` | routes/api.js:67-172 | the handler over a live store produces exactly `Handle`'s response and new store, and keeps likes duplicate-free |

## Left out

- The document-store schema and the `findOne`/`save` persistence are replaced by the `records` map. Store failure is one flag per request (`Upstream.storeUp`), so a failure of only some of a list's saves is not modelled.
- The HTTP call to the quote proxy and its URL are replaced by `Upstream.quote`. The reply for a code is fixed within a request.
- Separate requests are modelled as handled one after another. The real handler can interleave two requests between `findOne` and `save`. Two identical like requests can then both pass the `indexOf` test and push the address twice, and two first requests for a new code can each create a record.
- StockPrices.HandleKeepsNoDuplicates: holds only when saves of the same code run one at a time, as does `StockStore.SaveKeepsNoDuplicates`. This excludes two concurrent requests, and also one list that repeats a ticker with a like (`stock=X&stock=X&like=true`), whose two `saveStock` calls can both pass `findOne` and the `indexOf` test before either saves.
- StockPrices.HandleIdempotent: holds only when saves of the same code run one at a time, across requests and within a list that repeats a ticker, as do `StockPrices.SingleIdempotent`, `StockPrices.ListIdempotent` and `StockStore.SaveLikeIdempotent`.
- StockStore.Store.SaveStock: the read and the write are one step here, so a save cannot interleave with another request.
- The concurrent fan-out of the list path is modelled as saves in request order. When a list repeats a ticker, the real saves race, and the outcome depends on the store's atomicity. `SaveAllOrderIndependent` shows that every serialisation order of one list's saves leaves the same store, and `SavedRecordsFinal` shows that, in request order, each view shows its record's final likes.
- `GET /api/testing`, which echoes the client address and the `accept-language` header, is a plain read of request metadata and is not modelled.
- Console logging is not modelled.
- Prices are real numbers. JavaScript's `NaN`, strings and other JSON values in `latestPrice` are not modelled.
- `toUpperCase` is modelled on ASCII letters only, without Unicode case mapping.
- `StockViews.MapViews`: the `saveResult.likes ? … : 0` fallback is not modelled. The schema defaults likes to an empty list, so every saved record has one.
- An array `stock` whose elements are not strings is not modelled. There `toUpperCase` throws before any promise is created, and the framework's own error handling takes over.
