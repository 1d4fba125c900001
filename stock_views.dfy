/** Response assembly: each saved record paired with its quote reply becomes a view
    `{stock, price, likes}`, and when two views are produced each gets a signed `rel_likes`.
    The route does this twice, once in `parseData` and once inline in the two-ticker path; both
    are modelled here, and so is the single-ticker path's own way of choosing the price. */
module StockViews {
  import opened Wrappers
  import opened StockStore

  /** The `latestPrice` field of a quote payload: missing, `null`, or a number. */
  datatype PriceField = Absent | Null | Number(amount: real)

  /** The `data` body of a quote reply; only its `latestPrice` field is read. */
  datatype QuoteData = QuoteData(latestPrice: PriceField)

  /** What a view shows as `price`: the latest price, or the string 'N/A'. */
  datatype ShownPrice = Latest(amount: real) | NotAvailable

  /** One element of `stockData`; `relLikes` is the optional `rel_likes` field. */
  datatype StockView = StockView(stock: Code, price: ShownPrice, likes: nat, relLikes: Option<int>)

  /** A saved record together with the `data` of its quote reply (None when the body is missing). */
  datatype Fetched = Fetched(saved: StockRecord, data: Option<QuoteData>)

  /** JavaScript truthiness of a price field: a missing field, `null` and `0` are falsy. */
  predicate Truthy(p: PriceField) {
    p.Number? && p.amount != 0.0
  }

  /** The price of the view-building code, `data && data.latestPrice ? data.latestPrice : 'N/A'`.
      A missing price is not an error: the price falls back to 'N/A' exactly when the body is
      missing or its `latestPrice` is missing, `null` or zero, and otherwise is `latestPrice`. */
  function PriceOf(data: Option<QuoteData>): (p: ShownPrice)
    ensures p == NotAvailable <==> data == None || data.value.latestPrice in {Absent, Null, Number(0.0)}
    ensures p.Latest? ==> data.value.latestPrice == Number(p.amount)
  {
    if data.Some? && Truthy(data.value.latestPrice) then Latest(data.value.latestPrice.amount)
    else NotAvailable
  }

  /** The price of the single-ticker path, `(data || {}).latestPrice || 'N/A'`: the fallback
      through an empty object and a logical or chooses the same price as the conditional. */
  function SinglePriceOf(data: Option<QuoteData>): (p: ShownPrice)
    ensures p == PriceOf(data)
  {
    var info := if data.Some? then data.value else QuoteData(Absent);
    if Truthy(info.latestPrice) then Latest(info.latestPrice.amount) else NotAvailable
  }

  /** `results.map(...)`: one view per result, in the order of the results, each keeping the
      record's code, showing its price and counting its likes. */
  function MapViews(results: seq<Fetched>): (views: seq<StockView>)
    ensures |views| == |results|
    ensures forall i :: 0 <= i < |results| ==>
              && views[i].stock == results[i].saved.code
              && views[i].price == PriceOf(results[i].data)
              && views[i].likes == |results[i].saved.likes|
              && views[i].relLikes == None
  {
    if results == [] then []
    else
      var last := results[|results| - 1];
      MapViews(results[..|results| - 1]) + [StockView(last.saved.code, PriceOf(last.data), |last.saved.likes|, None)]
  }

  /** Attaching `rel_likes`: it keeps order, length and every other field; only the first two
      views get it, each as its likes minus the other's. */
  function WithRelLikes(views: seq<StockView>): (rel: seq<StockView>)
    requires |views| >= 2
    ensures |rel| == |views|
    ensures forall i :: 0 <= i < |views| ==> rel[i].(relLikes := None) == views[i].(relLikes := None)
    ensures forall i :: 2 <= i < |views| ==> rel[i] == views[i]
    ensures rel[0].relLikes == Some(views[0].likes - views[1].likes)
    ensures rel[1].relLikes == Some(views[1].likes - views[0].likes)
  {
    [views[0].(relLikes := Some(views[0].likes - views[1].likes)),
     views[1].(relLikes := Some(views[1].likes - views[0].likes))] + views[2..]
  }

  /** `parseData(results)`: one view per result in input order, keeping its code, price and like
      count, with `rel_likes` on exactly the first two views whenever there is more than one result. */
  function ParseData(results: seq<Fetched>): (views: seq<StockView>)
    ensures |views| == |results|
    ensures forall i :: 0 <= i < |results| ==>
              && views[i].stock == results[i].saved.code
              && views[i].price == PriceOf(results[i].data)
              && views[i].likes == |results[i].saved.likes|
              && (views[i].relLikes.Some? <==> |results| > 1 && i < 2)
    ensures |results| > 1 ==> && views[0].relLikes.value == views[0].likes - views[1].likes
                              && views[1].relLikes.value == views[1].likes - views[0].likes
  {
    var views := MapViews(results);
    if |views| > 1 then WithRelLikes(views) else views
  }

  /** The two-ticker path's inline assembly: one view per result in input order, keeping its code,
      price and like count, with `rel_likes` on every view exactly when there are two results. */
  function PairViews(results: seq<Fetched>): (views: seq<StockView>)
    ensures |views| == |results|
    ensures forall i :: 0 <= i < |results| ==>
              && views[i].stock == results[i].saved.code
              && views[i].price == PriceOf(results[i].data)
              && views[i].likes == |results[i].saved.likes|
              && (views[i].relLikes.Some? <==> |results| == 2)
  {
    var views := MapViews(results);
    if |views| == 2 then WithRelLikes(views) else views
  }

  /** For two results, `rel_likes` is antisymmetric: each is the negation of the other, each is
      that view's likes minus the other's, and both are 0 exactly when the like counts are equal. */
  lemma RelLikesAntisymmetric(results: seq<Fetched>)
    requires |results| == 2
    ensures var v := PairViews(results);
            && |v| == 2
            && v[0].relLikes.Some? && v[1].relLikes.Some?
            && v[0].relLikes.value == -v[1].relLikes.value
            && v[0].relLikes.value == |results[0].saved.likes| - |results[1].saved.likes|
            && (v[0].relLikes.value == 0 <==> v[0].likes == v[1].likes)
  {
  }

  /** `parseData` and the inline assembly agree exactly when there are at most two results;
      beyond two, `parseData` still sets `rel_likes` on the first two and the inline code on none. */
  lemma {:induction false} ParseDataMatchesPairViews(results: seq<Fetched>)
    ensures ParseData(results) == PairViews(results) <==> |results| <= 2
  {
    if |results| > 2 {
      assert ParseData(results)[0].relLikes.Some?;
      assert PairViews(results)[0].relLikes == None;
    }
  }
}
