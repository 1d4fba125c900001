/** The `GET /api/stock-prices` handler: it classifies the `stock` query (one ticker, a list of
    tickers, or anything else), reads the `like` flag, saves each ticker's record, fetches each
    ticker's quote and answers 200 with the views, 500 when the store or a quote fetch fails, or
    400 for a malformed query. The store and the quote proxy are inputs: the records before the
    request, and an `Upstream` saying whether the store answers and what the proxy replies. */
module StockPrices {
  import opened Wrappers
  import opened StockStore
  import opened StockViews

  /** A query-string value as the web framework parses it. */
  datatype QueryValue = Missing | Text(s: string) | List(items: seq<string>) | Object

  /** The two query parameters the handler reads. */
  datatype Query = Query(stock: QueryValue, like: QueryValue)

  /** What the quote fetch does for one ticker: `Rejected` when the fetch rejects (a network
      failure, or an HTTP status outside 2xx, which the client rejects by default), or `Reply`
      with a 2xx answer whose body may be missing. */
  datatype QuoteReply = Rejected | Reply(data: Option<QuoteData>)

  /** The external collaborators for one request: whether the record store answers, and the
      proxy's reply for each ticker code. */
  datatype Upstream = Upstream(storeUp: bool, quote: Code -> QuoteReply)

  /** The `stockData` of a 200 response: one view, or an array of views. */
  datatype StockData = One(view: StockView) | Many(views: seq<StockView>)

  /** An HTTP response: 200 with a JSON `stockData`, or an error status with a plain-text message. */
  datatype Response = Ok(stockData: StockData) | Failed(status: nat, message: string)

  /** The shape of the `stock` query, after upper-casing. */
  datatype Request = SingleTicker(code: Code) | TickerList(codes: seq<Code>) | InvalidQuery

  /** The response of a request together with the store it leaves behind. */
  datatype Outcome = Outcome(response: Response, records: map<Code, seq<Ip>>)

  const InvalidStockQuery := "Invalid stock query"
  const ErrorProcessingStock := "Error processing stock"
  const ErrorProcessingStocks := "Error processing multiple stocks"

  /** `toUpperCase` on one character, restricted to ASCII letters. */
  function UpperChar(c: char): char {
    if 'a' <= c <= 'z' then (c as int - 32) as char else c
  }

  /** `s.toUpperCase()`, restricted to ASCII letters: it keeps the length, turns each lower-case
      letter into its upper-case letter, 32 code points lower, leaves no lower-case letter behind
      and changes nothing else. */
  function Upper(s: string): (u: string)
    ensures |u| == |s|
    ensures forall i :: 0 <= i < |s| && 'a' <= s[i] <= 'z' ==> u[i] == (s[i] as int - 32) as char
    ensures forall i :: 0 <= i < |s| && !('a' <= s[i] <= 'z') ==> u[i] == s[i]
    ensures forall i :: 0 <= i < |s| ==> !('a' <= u[i] <= 'z')
  {
    seq(|s|, i requires 0 <= i < |s| => UpperChar(s[i]))
  }

  /** Two characters are the same letter up to ASCII case: equal, or one is the lower-case form
      of the other. */
  predicate SameCharUpToCase(a: char, b: char) {
    || a == b
    || ('a' <= a <= 'z' && b == (a as int - 32) as char)
    || ('a' <= b <= 'z' && a == (b as int - 32) as char)
  }

  /** Two strings spell the same ticker up to ASCII case, such as "goog", "Goog" and "GOOG". */
  predicate SameUpToCase(s: string, t: string) {
    |s| == |t| && forall i :: 0 <= i < |s| ==> SameCharUpToCase(s[i], t[i])
  }

  /** Strings that differ only in ASCII case upper-case to the same code. */
  lemma UpperIgnoresCase(s: string, t: string)
    requires SameUpToCase(s, t)
    ensures Upper(s) == Upper(t)
  {
    assert forall i :: 0 <= i < |s| ==> Upper(s)[i] == Upper(t)[i];
  }

  /** Upper-casing is idempotent: an upper-cased code is its own upper case. */
  lemma UpperIdempotent(s: string)
    ensures Upper(Upper(s)) == Upper(s)
  {
  }

  /** `items.map((code) => code.toUpperCase())`: one code per item, in order, each the upper case
      of its item, as long as it and free of lower-case letters. */
  function UpperAll(items: seq<string>): (codes: seq<Code>)
    ensures |codes| == |items|
    ensures forall i :: 0 <= i < |items| ==> codes[i] == Upper(items[i])
    ensures forall i :: 0 <= i < |items| ==> |codes[i]| == |items[i]|
    ensures forall i, j :: 0 <= i < |items| && 0 <= j < |codes[i]| ==> !('a' <= codes[i][j] <= 'z')
  {
    seq(|items|, i requires 0 <= i < |items| => Upper(items[i]))
  }

  /** The input classification: a string is one ticker, an array is a list of tickers with one
      code per item, both upper-cased; anything else is invalid. */
  function Classify(stock: QueryValue): (r: Request)
    ensures r.SingleTicker? <==> stock.Text?
    ensures r.TickerList? <==> stock.List?
    ensures r.InvalidQuery? <==> !(stock.Text? || stock.List?)
    ensures r.SingleTicker? ==> r.code == Upper(stock.s)
    ensures r.TickerList? ==> r.codes == UpperAll(stock.items)
  {
    match stock
    case Text(s) => SingleTicker(Upper(s))
    case List(items) => TickerList(UpperAll(items))
    case _ => InvalidQuery
  }

  /** `req.query.like === 'true'`: a like counts only for the literal string 'true'; an absent
      value, any other string, an array (even of 'true's) or an object is no like. */
  function LikeRequested(like: QueryValue): (b: bool)
    ensures b <==> like == Text("true")
  {
    like.Text? && like.s == "true"
  }

  /** The ticker codes a request touches. */
  function Tickers(request: Request): seq<Code> {
    match request
    case SingleTicker(code) => [code]
    case TickerList(codes) => codes
    case InvalidQuery => []
  }

  /** The body of a reply; a rejected fetch has none. */
  function DataOf(reply: QuoteReply): Option<QuoteData> {
    if reply.Reply? then reply.data else None
  }

  /** No quote fetch for the codes rejects. */
  predicate AllReplied(codes: seq<Code>, up: Upstream) {
    forall i :: 0 <= i < |codes| ==> up.quote(codes[i]).Reply?
  }

  /** The store after saving each code in turn, in input order: every record there was before is
      still there, and every requested code has one. */
  function SaveAll(records: map<Code, seq<Ip>>, codes: seq<Code>, like: bool, ip: Ip): (after: map<Code, seq<Ip>>)
    ensures forall c :: c in records ==> c in after
    ensures forall i :: 0 <= i < |codes| ==> codes[i] in after
    decreases |codes|
  {
    if codes == [] then records
    else
      var n := |codes| - 1;
      assert codes == codes[..n] + [codes[n]];
      AfterSave(SaveAll(records, codes[..n], like, ip), codes[n], like, ip)
  }

  /** The record each save resolves to, in input order: the record of that code just after its own save. */
  function SavedRecords(records: map<Code, seq<Ip>>, codes: seq<Code>, like: bool, ip: Ip): (saved: seq<StockRecord>)
    ensures |saved| == |codes|
    ensures forall i :: 0 <= i < |codes| ==> saved[i].code == codes[i]
    decreases |codes|
  {
    if codes == [] then []
    else
      var n := |codes| - 1;
      SavedRecords(records, codes[..n], like, ip)
        + [StockRecord(codes[n], PriorLikes(SaveAll(records, codes, like, ip), codes[n]))]
  }

  /** Each saved record paired with the body of its ticker's quote reply. */
  function FetchedAll(saved: seq<StockRecord>, codes: seq<Code>, up: Upstream): seq<Fetched>
    requires |saved| == |codes|
  {
    seq(|codes|, i requires 0 <= i < |codes| => Fetched(saved[i], DataOf(up.quote(codes[i]))))
  }

  /** The single-ticker path: save, then fetch. It answers 200 with one view exactly when the store
      and the quote fetch both answer; otherwise 500. A store failure leaves the store as it was,
      while a fetch failure after the save keeps the save. The view shows the code, its price and
      the like count of the record just saved. */
  function SingleOutcome(records: map<Code, seq<Ip>>, code: Code, like: bool, ip: Ip, up: Upstream): (o: Outcome)
    ensures o.response.Ok? <==> up.storeUp && up.quote(code).Reply?
    ensures o.response.Failed? ==> o.response == Failed(500, ErrorProcessingStock)
    ensures o.records == if up.storeUp then AfterSave(records, code, like, ip) else records
    ensures o.response.Ok? ==>
              && o.response.stockData.One?
              && code in o.records
              && o.response.stockData.view == StockView(code, PriceOf(up.quote(code).data), |o.records[code]|, None)
  {
    if !up.storeUp then Outcome(Failed(500, ErrorProcessingStock), records)
    else
      var after := AfterSave(records, code, like, ip);
      var saved := StockRecord(code, after[code]);
      match up.quote(code)
      case Rejected => Outcome(Failed(500, ErrorProcessingStock), after)
      case Reply(data) => Outcome(Ok(One(StockView(saved.code, SinglePriceOf(data), |saved.likes|, None))), after)
  }

  /** The ticker-list path: every save and every fetch is started. It answers 200 with one view per
      code exactly when every fetch replies and the store answers (an empty list never reaches the
      store, so it always answers 200 with no views); otherwise 500 with no views. A store that is
      down is left as it was, while saves that ran stay saved when a fetch fails. */
  function ListOutcome(records: map<Code, seq<Ip>>, codes: seq<Code>, like: bool, ip: Ip, up: Upstream): (o: Outcome)
    ensures o.response.Ok? <==> (up.storeUp || codes == []) && AllReplied(codes, up)
    ensures o.response.Failed? ==> o.response == Failed(500, ErrorProcessingStocks)
    ensures o.records == if up.storeUp then SaveAll(records, codes, like, ip) else records
    ensures o.response.Ok? ==> o.response.stockData.Many? && |o.response.stockData.views| == |codes|
  {
    if !up.storeUp && codes != [] then Outcome(Failed(500, ErrorProcessingStocks), records)
    else
      var after := SaveAll(records, codes, like, ip);
      if !AllReplied(codes, up) then Outcome(Failed(500, ErrorProcessingStocks), after)
      else Outcome(Ok(Many(PairViews(FetchedAll(SavedRecords(records, codes, like, ip), codes, up)))), after)
  }

  /** The whole handler, as a function of the store before the request. A malformed `stock`
      query, and only that, answers 400 'Invalid stock query' and leaves the store untouched; a
      string answers with one view and an array with a list of views. */
  function Handle(records: map<Code, seq<Ip>>, q: Query, ip: Ip, up: Upstream): (o: Outcome)
    ensures o.response == Failed(400, InvalidStockQuery) <==> !(q.stock.Text? || q.stock.List?)
    ensures !(q.stock.Text? || q.stock.List?) ==> o.records == records
    ensures o.response.Ok? ==> (o.response.stockData.One? <==> q.stock.Text?)
  {
    match Classify(q.stock)
    case InvalidQuery => Outcome(Failed(400, InvalidStockQuery), records)
    case SingleTicker(code) => SingleOutcome(records, code, LikeRequested(q.like), ip, up)
    case TickerList(codes) => ListOutcome(records, codes, LikeRequested(q.like), ip, up)
  }

  // ---------------------------------------------------------------------------------------------
  // Saving a list of codes

  /** Saving `cs` then `ds` is saving `cs + ds`. */
  lemma {:induction false} SaveAllSplit(records: map<Code, seq<Ip>>, cs: seq<Code>, ds: seq<Code>, like: bool, ip: Ip)
    ensures SaveAll(records, cs + ds, like, ip) == SaveAll(SaveAll(records, cs, like, ip), ds, like, ip)
    decreases |ds|
  {
    if ds != [] {
      var n := |ds| - 1;
      assert (cs + ds)[..|cs + ds| - 1] == cs + ds[..n];
      SaveAllSplit(records, cs, ds[..n], like, ip);
    } else {
      assert cs + ds == cs;
    }
  }

  /** Saving `cs` is saving its first `k` codes and then the rest. */
  lemma SaveAllSplitAt(records: map<Code, seq<Ip>>, cs: seq<Code>, k: nat, like: bool, ip: Ip)
    requires k <= |cs|
    ensures SaveAll(records, cs, like, ip) == SaveAll(SaveAll(records, cs[..k], like, ip), cs[k..], like, ip)
  {
    assert cs[..k] + cs[k..] == cs;
    SaveAllSplit(records, cs[..k], cs[k..], like, ip);
  }

  /** One more save extends the store and the saved records by the next code. */
  lemma SaveAllStep(records: map<Code, seq<Ip>>, codes: seq<Code>, like: bool, ip: Ip, i: nat)
    requires i < |codes|
    ensures SaveAll(records, codes[..i + 1], like, ip) == AfterSave(SaveAll(records, codes[..i], like, ip), codes[i], like, ip)
    ensures SavedRecords(records, codes[..i + 1], like, ip)
            == SavedRecords(records, codes[..i], like, ip)
               + [StockRecord(codes[i], SaveAll(records, codes[..i + 1], like, ip)[codes[i]])]
  {
    assert codes[..i + 1][..i] == codes[..i];
  }

  /** The replies of one more code. */
  lemma AllRepliedStep(codes: seq<Code>, up: Upstream, i: nat)
    requires i < |codes|
    ensures AllReplied(codes[..i + 1], up) <==> AllReplied(codes[..i], up) && up.quote(codes[i]).Reply?
  {
    assert codes[..i + 1] == codes[..i] + [codes[i]];
  }

  /** A settled record is left alone by any further saves. */
  lemma {:induction false} SaveAllKeepsSettled(records: map<Code, seq<Ip>>, ds: seq<Code>, c: Code, like: bool, ip: Ip)
    requires Settled(records, c, like, ip)
    ensures Settled(SaveAll(records, ds, like, ip), c, like, ip)
    ensures SaveAll(records, ds, like, ip)[c] == records[c]
    decreases |ds|
  {
    if ds != [] {
      var n := |ds| - 1;
      SaveAllKeepsSettled(records, ds[..n], c, like, ip);
      var before := SaveAll(records, ds[..n], like, ip);
      if ds[n] == c {
        SaveSettledIsNoOp(before, c, like, ip);
      }
    }
  }

  /** After saving a list of codes, every one of them is settled. */
  lemma {:induction false} SaveAllSettles(records: map<Code, seq<Ip>>, cs: seq<Code>, like: bool, ip: Ip)
    ensures forall c :: c in cs ==> Settled(SaveAll(records, cs, like, ip), c, like, ip)
    decreases |cs|
  {
    if cs != [] {
      var n := |cs| - 1;
      var before := SaveAll(records, cs[..n], like, ip);
      SaveAllSettles(records, cs[..n], like, ip);
      SaveSettles(before, cs[n], like, ip);
      forall c | c in cs
        ensures Settled(SaveAll(records, cs, like, ip), c, like, ip)
      {
        if c != cs[n] {
          assert c in cs[..n] by {
            var k :| 0 <= k < |cs| && cs[k] == c;
            assert cs[..n][k] == c;
          }
        }
      }
    }
  }

  /** Saving codes whose records are all settled changes nothing. */
  lemma {:induction false} SaveAllStable(records: map<Code, seq<Ip>>, cs: seq<Code>, like: bool, ip: Ip)
    requires forall c :: c in cs ==> Settled(records, c, like, ip)
    ensures SaveAll(records, cs, like, ip) == records
    decreases |cs|
  {
    if cs != [] {
      var n := |cs| - 1;
      assert forall c :: c in cs[..n] ==> c in cs;
      SaveAllStable(records, cs[..n], like, ip);
      SaveSettledIsNoOp(records, cs[n], like, ip);
    }
  }

  /** Saving a list of codes creates or updates exactly their records. */
  lemma {:induction false} SaveAllTouchesOnlyTickers(records: map<Code, seq<Ip>>, cs: seq<Code>, like: bool, ip: Ip)
    ensures SaveAll(records, cs, like, ip).Keys == records.Keys + (set c | c in cs)
    decreases |cs|
  {
    if cs != [] {
      var n := |cs| - 1;
      SaveAllTouchesOnlyTickers(records, cs[..n], like, ip);
      assert cs == cs[..n] + [cs[n]];
      assert (set c | c in cs) == (set c | c in cs[..n]) + {cs[n]};
    }
  }

  /** Saving a list of codes leaves the record of every other code as it was. */
  lemma {:induction false} SaveAllKeepsOthers(records: map<Code, seq<Ip>>, cs: seq<Code>, like: bool, ip: Ip)
    ensures forall c :: c in records && c !in cs ==> SaveAll(records, cs, like, ip)[c] == records[c]
    decreases |cs|
  {
    if cs != [] {
      var n := |cs| - 1;
      SaveAllKeepsOthers(records, cs[..n], like, ip);
      SaveTouchesOnlyItsCode(SaveAll(records, cs[..n], like, ip), cs[n], like, ip);
      assert forall c :: c in cs[..n] ==> c in cs;
    }
  }

  /** Each requested record ends up as one save of it from the store before the request would
      leave it: the first save of a code settles it and later saves of it change nothing. The right
      side mentions no order. */
  lemma {:induction false} SaveAllClosedForm(records: map<Code, seq<Ip>>, cs: seq<Code>, like: bool, ip: Ip)
    ensures forall c :: c in cs ==> c in SaveAll(records, cs, like, ip) && SaveAll(records, cs, like, ip)[c] == SavedLikes(records, c, like, ip)
    decreases |cs|
  {
    if cs != [] {
      var n := |cs| - 1;
      var d := cs[n];
      var before := SaveAll(records, cs[..n], like, ip);
      SaveAllClosedForm(records, cs[..n], like, ip);
      SaveTouchesOnlyItsCode(before, d, like, ip);
      assert cs == cs[..n] + [d];
      if d in cs[..n] {
        SaveSettles(records, d, like, ip);
        SaveSettledIsNoOp(before, d, like, ip);
      } else {
        SaveAllTouchesOnlyTickers(records, cs[..n], like, ip);
        SaveAllKeepsOthers(records, cs[..n], like, ip);
        assert PriorLikes(before, d) == PriorLikes(records, d);
      }
    }
  }

  /** The store after a list's saves does not depend on the order of the codes, nor on how often
      each is repeated: any two lists naming the same codes leave the same store. */
  lemma SaveAllOrderIndependent(records: map<Code, seq<Ip>>, cs: seq<Code>, ds: seq<Code>, like: bool, ip: Ip)
    requires forall c :: c in cs <==> c in ds
    ensures SaveAll(records, cs, like, ip) == SaveAll(records, ds, like, ip)
  {
    SaveAllTouchesOnlyTickers(records, cs, like, ip);
    SaveAllTouchesOnlyTickers(records, ds, like, ip);
    assert (set c | c in cs) == (set c | c in ds);
    SaveAllKeepsOthers(records, cs, like, ip);
    SaveAllKeepsOthers(records, ds, like, ip);
    SaveAllClosedForm(records, cs, like, ip);
    SaveAllClosedForm(records, ds, like, ip);
  }

  /** Each saved record of a list holds what one save of its code from the store before the
      request gives, so the views of a ticker list do not depend on the order in which its saves
      are serialised. */
  lemma SavedRecordsClosedForm(records: map<Code, seq<Ip>>, cs: seq<Code>, like: bool, ip: Ip, i: nat)
    requires i < |cs|
    ensures SavedRecords(records, cs, like, ip)[i] == StockRecord(cs[i], SavedLikes(records, cs[i], like, ip))
  {
    SavedRecordsFinal(records, cs, like, ip, i);
    SaveAllClosedForm(records, cs, like, ip);
  }

  /** Without a like, saving a list of codes adds no liker anywhere: existing records keep their
      likes and new ones start empty. */
  lemma {:induction false} SaveAllWithoutLike(records: map<Code, seq<Ip>>, cs: seq<Code>, ip: Ip)
    ensures forall c :: c in SaveAll(records, cs, false, ip) ==> SaveAll(records, cs, false, ip)[c] == PriorLikes(records, c)
    decreases |cs|
  {
    if cs != [] {
      var n := |cs| - 1;
      SaveAllWithoutLike(records, cs[..n], ip);
      SaveAllKeepsOthers(records, cs[..n], false, ip);
      SaveWithoutLikeKeepsLikes(SaveAll(records, cs[..n], false, ip), cs[n], ip);
    }
  }

  /** With a like, saving a list of codes leaves the requester among the likers of each of them. */
  lemma {:induction false} SaveAllRecordsLike(records: map<Code, seq<Ip>>, cs: seq<Code>, ip: Ip)
    ensures forall c :: c in cs ==> c in SaveAll(records, cs, true, ip) && ip in SaveAll(records, cs, true, ip)[c]
  {
    SaveAllSettles(records, cs, true, ip);
  }

  /** Saving a list of codes never puts a duplicate into any likes list. */
  lemma {:induction false} SaveAllKeepsNoDuplicates(records: map<Code, seq<Ip>>, cs: seq<Code>, like: bool, ip: Ip)
    requires forall c :: c in records ==> NoDuplicates(records[c])
    ensures forall c :: c in SaveAll(records, cs, like, ip) ==> NoDuplicates(SaveAll(records, cs, like, ip)[c])
    decreases |cs|
  {
    if cs != [] {
      var n := |cs| - 1;
      var before := SaveAll(records, cs[..n], like, ip);
      SaveAllKeepsNoDuplicates(records, cs[..n], like, ip);
      SaveKeepsNoDuplicates(before, cs[n], like, ip);
    }
  }

  /** The `i`-th saved record is its code's record just after the `i`-th save. */
  lemma {:induction false} SavedRecordsAt(records: map<Code, seq<Ip>>, cs: seq<Code>, like: bool, ip: Ip, i: nat)
    requires i < |cs|
    ensures SavedRecords(records, cs, like, ip)[i] == StockRecord(cs[i], PriorLikes(SaveAll(records, cs[..i + 1], like, ip), cs[i]))
    decreases |cs|
  {
    var n := |cs| - 1;
    if i < n {
      SavedRecordsAt(records, cs[..n], like, ip, i);
      assert cs[..n][..i + 1] == cs[..i + 1];
    } else {
      assert cs[..i + 1] == cs;
    }
  }

  /** With the saves in request order, the `i`-th saved record already equals its code's record at
      the end of the request: a later save of the same code cannot change it. */
  lemma {:induction false} SavedRecordsFinal(records: map<Code, seq<Ip>>, cs: seq<Code>, like: bool, ip: Ip, i: nat)
    requires i < |cs|
    ensures cs[i] in SaveAll(records, cs, like, ip)
    ensures SavedRecords(records, cs, like, ip)[i] == StockRecord(cs[i], SaveAll(records, cs, like, ip)[cs[i]])
  {
    SavedRecordsAt(records, cs, like, ip, i);
    var head, tail := cs[..i + 1], cs[i + 1..];
    assert head[..|head| - 1] == cs[..i];
    var mid := SaveAll(records, head, like, ip);
    SaveSettles(SaveAll(records, cs[..i], like, ip), cs[i], like, ip);
    SaveAllKeepsSettled(mid, tail, cs[i], like, ip);
    SaveAllSplitAt(records, cs, i + 1, like, ip);
    assert SaveAll(records, cs, like, ip)[cs[i]] == mid[cs[i]];
  }

  // ---------------------------------------------------------------------------------------------
  // Properties of the handler

  /** Failures are all-or-nothing: a valid query fails exactly when the store is down (and the
      request has a ticker to save) or some quote fetch rejects; then it answers 500
      with the path's message and no views, and a store that is down is left untouched. */
  lemma FailuresAreAllOrNothing(records: map<Code, seq<Ip>>, q: Query, ip: Ip, up: Upstream)
    requires q.stock.Text? || q.stock.List?
    ensures var o := Handle(records, q, ip, up);
            var codes := Tickers(Classify(q.stock));
            && (o.response.Failed? <==> (!up.storeUp && codes != []) || !AllReplied(codes, up))
            && (o.response.Failed? ==>
                  o.response == Failed(500, if q.stock.Text? then ErrorProcessingStock else ErrorProcessingStocks))
            && (!up.storeUp ==> o.records == records)
  {
    if q.stock.Text? {
      var code := Upper(q.stock.s);
      assert AllReplied([code], up) <==> up.quote(code).Reply? by {
        assert [code][0] == code;
      }
    }
  }

  /** Only the requested tickers' records are created or changed. */
  lemma {:induction false} OnlyRequestedRecordsChange(records: map<Code, seq<Ip>>, q: Query, ip: Ip, up: Upstream)
    ensures var o := Handle(records, q, ip, up);
            var codes := Tickers(Classify(q.stock));
            && o.records.Keys <= records.Keys + (set c | c in codes)
            && forall c :: c in records && c !in codes ==> c in o.records && o.records[c] == records[c]
  {
    match Classify(q.stock)
    case InvalidQuery =>
    case SingleTicker(code) =>
      assert (set c | c in [code]) == {code};
    case TickerList(codes) =>
      SaveAllTouchesOnlyTickers(records, codes, LikeRequested(q.like), ip);
      SaveAllKeepsOthers(records, codes, LikeRequested(q.like), ip);
  }

  /** A request without the literal like adds nobody to any likes list: existing records keep
      their likes and records it creates are empty. */
  lemma {:induction false} NoLikeNoNewLiker(records: map<Code, seq<Ip>>, q: Query, ip: Ip, up: Upstream)
    requires !LikeRequested(q.like)
    ensures var o := Handle(records, q, ip, up);
            forall c :: c in o.records ==> o.records[c] == PriorLikes(records, c)
  {
    match Classify(q.stock)
    case InvalidQuery =>
    case SingleTicker(code) =>
      SaveWithoutLikeKeepsLikes(records, code, ip);
    case TickerList(codes) =>
      SaveAllWithoutLike(records, codes, ip);
  }

  /** A request with the literal like, once the store answers, leaves the requester among the
      likers of every requested ticker, even when a quote fetch then fails. */
  lemma {:induction false} LikeIsRecorded(records: map<Code, seq<Ip>>, q: Query, ip: Ip, up: Upstream)
    requires LikeRequested(q.like) && up.storeUp
    ensures var o := Handle(records, q, ip, up);
            forall c :: c in Tickers(Classify(q.stock)) ==> c in o.records && ip in o.records[c]
  {
    match Classify(q.stock)
    case InvalidQuery =>
    case SingleTicker(code) =>
      SaveSettles(records, code, true, ip);
    case TickerList(codes) =>
      SaveAllRecordsLike(records, codes, ip);
  }

  /** No request ever puts a duplicate into a likes list. */
  lemma {:induction false} HandleKeepsNoDuplicates(records: map<Code, seq<Ip>>, q: Query, ip: Ip, up: Upstream)
    requires forall c :: c in records ==> NoDuplicates(records[c])
    ensures var o := Handle(records, q, ip, up);
            forall c :: c in o.records ==> NoDuplicates(o.records[c])
  {
    match Classify(q.stock)
    case InvalidQuery =>
    case SingleTicker(code) =>
      SaveKeepsNoDuplicates(records, code, LikeRequested(q.like), ip);
    case TickerList(codes) =>
      SaveAllKeepsNoDuplicates(records, codes, LikeRequested(q.like), ip);
  }

  /** Repeating the single-ticker path with the same collaborators changes nothing more. */
  lemma {:induction false} SingleIdempotent(records: map<Code, seq<Ip>>, code: Code, like: bool, ip: Ip, up: Upstream)
    ensures SingleOutcome(SingleOutcome(records, code, like, ip, up).records, code, like, ip, up)
            == SingleOutcome(records, code, like, ip, up)
  {
    if up.storeUp {
      SaveSettles(records, code, like, ip);
      SaveSettledIsNoOp(AfterSave(records, code, like, ip), code, like, ip);
    }
  }

  /** Repeating the ticker-list path with the same collaborators changes nothing more. */
  lemma {:induction false} ListIdempotent(records: map<Code, seq<Ip>>, codes: seq<Code>, like: bool, ip: Ip, up: Upstream)
    ensures ListOutcome(ListOutcome(records, codes, like, ip, up).records, codes, like, ip, up)
            == ListOutcome(records, codes, like, ip, up)
  {
    if up.storeUp {
      var after := SaveAll(records, codes, like, ip);
      SaveAllSettles(records, codes, like, ip);
      SaveAllStable(after, codes, like, ip);
      forall i | 0 <= i < |codes|
        ensures SavedRecords(after, codes, like, ip)[i] == SavedRecords(records, codes, like, ip)[i]
      {
        SavedRecordsFinal(after, codes, like, ip, i);
        SavedRecordsFinal(records, codes, like, ip, i);
      }
      assert SavedRecords(after, codes, like, ip) == SavedRecords(records, codes, like, ip);
    }
  }

  /** Repeating a request changes nothing more: the second time, with the same collaborators,
      answers exactly as the first and leaves the store as the first left it. In particular a
      second like from the same address does not raise any like count. */
  lemma {:induction false} HandleIdempotent(records: map<Code, seq<Ip>>, q: Query, ip: Ip, up: Upstream)
    ensures Handle(Handle(records, q, ip, up).records, q, ip, up) == Handle(records, q, ip, up)
  {
    match Classify(q.stock)
    case InvalidQuery =>
    case SingleTicker(code) =>
      SingleIdempotent(records, code, LikeRequested(q.like), ip, up);
    case TickerList(codes) =>
      ListIdempotent(records, codes, LikeRequested(q.like), ip, up);
  }

  /** A single ticker whose store and quote answer gets one view: the upper-cased code, the price
      or 'N/A', and the like count its record has after the request; it is the view `parseData`
      would build for the same record and reply. */
  lemma SingleTickerView(records: map<Code, seq<Ip>>, s: string, like: QueryValue, ip: Ip, up: Upstream)
    requires up.storeUp && up.quote(Upper(s)).Reply?
    ensures var o := Handle(records, Query(Text(s), like), ip, up);
            var code := Upper(s);
            var data := up.quote(code).data;
            && code in o.records
            && o.response == Ok(One(ParseData([Fetched(StockRecord(code, o.records[code]), data)])[0]))
            && o.response.stockData.view.stock == code
            && o.response.stockData.view.likes == |o.records[code]|
            && o.response.stockData.view.price == PriceOf(data)
  {
  }

  /** A ticker list whose store and quotes all answer gets one view per ticker in request order:
      the upper-cased code, its price or 'N/A', and the like count its record has after the whole
      request; with exactly two tickers each view carries `rel_likes`, the negation of the other's. */
  lemma {:induction false} TickerListViews(records: map<Code, seq<Ip>>, items: seq<string>, like: QueryValue, ip: Ip, up: Upstream)
    requires (up.storeUp || items == []) && AllReplied(UpperAll(items), up)
    ensures Handle(records, Query(List(items), like), ip, up).response.Ok?
    ensures Handle(records, Query(List(items), like), ip, up).response.stockData.Many?
    ensures var o := Handle(records, Query(List(items), like), ip, up);
            var views := o.response.stockData.views;
            && |views| == |items|
            && forall i :: 0 <= i < |items| ==>
                 && Upper(items[i]) in o.records
                 && views[i].stock == Upper(items[i])
                 && views[i].price == PriceOf(DataOf(up.quote(Upper(items[i]))))
                 && views[i].likes == |o.records[Upper(items[i])]|
                 && (views[i].relLikes.Some? <==> |items| == 2)
    ensures var views := Handle(records, Query(List(items), like), ip, up).response.stockData.views;
            |items| == 2 ==> && views[0].relLikes.value == views[0].likes - views[1].likes
                             && views[1].relLikes.value == views[1].likes - views[0].likes
                             && views[0].relLikes.value == -views[1].relLikes.value
  {
    var codes := UpperAll(items);
    var l := LikeRequested(like);
    var saved := SavedRecords(records, codes, l, ip);
    var results := FetchedAll(saved, codes, up);
    var o := Handle(records, Query(List(items), like), ip, up);
    assert o == Outcome(Ok(Many(PairViews(results))), SaveAll(records, codes, l, ip));
    forall i | 0 <= i < |items|
      ensures codes[i] == Upper(items[i]) && codes[i] in o.records
      ensures results[i] == Fetched(StockRecord(codes[i], o.records[codes[i]]), DataOf(up.quote(codes[i])))
    {
      SavedRecordsFinal(records, codes, l, ip, i);
    }
    if |items| == 2 {
      RelLikesAntisymmetric(results);
    }
  }

  /** The ticker is case-insensitive: `stock=goog` and `stock=GOOG` reach the same record and
      give the same response and store. */
  lemma TickerCaseIgnored(records: map<Code, seq<Ip>>, s: string, t: string, like: QueryValue, ip: Ip, up: Upstream)
    requires SameUpToCase(s, t)
    ensures Handle(records, Query(Text(s), like), ip, up) == Handle(records, Query(Text(t), like), ip, up)
  {
    UpperIgnoresCase(s, t);
  }

  /** `stock=goog&like=true` on an empty store: the record GOOG is created with the requester as
      its one liker and the view shows one like. */
  lemma FreshStoreLikeExample(ip: Ip, up: Upstream)
    requires up.storeUp && up.quote("GOOG") == Reply(Some(QuoteData(Number(100.0))))
    ensures Handle(map[], Query(Text("goog"), Text("true")), ip, up)
            == Outcome(Ok(One(StockView("GOOG", Latest(100.0), 1, None))), map["GOOG" := [ip]])
  {
    assert Upper("goog") == "GOOG";
  }

  /** `stock=GOOG&stock=MSFT` on an empty store, the quotes missing their price: two views with
      no likes, `rel_likes` 0 each, price 'N/A'. */
  lemma FreshPairExample(ip: Ip, up: Upstream)
    requires up.storeUp && up.quote("GOOG") == Reply(None) && up.quote("MSFT") == Reply(Some(QuoteData(Null)))
    ensures Handle(map[], Query(List(["GOOG", "MSFT"]), Missing), ip, up).response
            == Ok(Many([StockView("GOOG", NotAvailable, 0, Some(0)), StockView("MSFT", NotAvailable, 0, Some(0))]))
  {
    var items := ["GOOG", "MSFT"];
    var q := Query(List(items), Missing);
    assert Upper(items[0]) == "GOOG" && Upper(items[1]) == "MSFT";
    assert AllReplied(UpperAll(items), up);
    TickerListViews(map[], items, Missing, ip, up);
    NoLikeNoNewLiker(map[], q, ip, up);
    var o := Handle(map[], q, ip, up);
    var views := o.response.stockData.views;
    assert o.records["GOOG"] == [] && o.records["MSFT"] == [];
    assert views[0].relLikes.value == 0 && views[1].relLikes.value == 0;
    assert views[0] == StockView("GOOG", NotAvailable, 0, Some(0));
    assert views[1] == StockView("MSFT", NotAvailable, 0, Some(0));
    assert views == [views[0], views[1]];
  }

  /** An empty ticker list starts no save and no fetch, so it answers 200 with an empty
      `stockData` and leaves the store alone, whether or not the store answers. The default query
      parsers never produce an empty array, so only a custom parser reaches this case. */
  lemma EmptyListAnswersEmpty(records: map<Code, seq<Ip>>, like: QueryValue, ip: Ip, up: Upstream)
    ensures Handle(records, Query(List([]), like), ip, up) == Outcome(Ok(Many([])), records)
  {
  }

  // ---------------------------------------------------------------------------------------------
  // The handler over a live store

  /** The single-ticker path over the store: save, then fetch. */
  method HandleSingle(store: Store, code: Code, like: bool, ip: Ip, up: Upstream) returns (response: Response)
    requires store.Valid()
    modifies store
    ensures store.Valid()
    ensures Outcome(response, store.records) == SingleOutcome(old(store.records), code, like, ip, up)
  {
    if !up.storeUp {
      return Failed(500, ErrorProcessingStock);
    }
    var saved := store.SaveStock(code, like, ip);
    match up.quote(code)
    case Rejected =>
      response := Failed(500, ErrorProcessingStock);
    case Reply(data) =>
      response := Ok(One(StockView(saved.code, SinglePriceOf(data), |saved.likes|, None)));
  }

  /** `codes.map((code) => Promise.all([saveStock(code, like, ip), fetch(code)]))` over the store:
      every code is saved in turn and its quote fetched; returns the saved records and whether
      some fetch rejected. */
  method SaveAndFetchEach(store: Store, codes: seq<Code>, like: bool, ip: Ip, up: Upstream)
    returns (saved: seq<StockRecord>, failed: bool)
    requires store.Valid()
    modifies store
    ensures store.Valid()
    ensures store.records == SaveAll(old(store.records), codes, like, ip)
    ensures saved == SavedRecords(old(store.records), codes, like, ip)
    ensures failed <==> !AllReplied(codes, up)
  {
    ghost var before := store.records;
    saved, failed := [], false;
    var i := 0;
    while i < |codes|
      invariant 0 <= i <= |codes|
      invariant store.Valid()
      invariant store.records == SaveAll(before, codes[..i], like, ip)
      invariant saved == SavedRecords(before, codes[..i], like, ip)
      invariant failed <==> !AllReplied(codes[..i], up)
    {
      SaveAllStep(before, codes, like, ip, i);
      AllRepliedStep(codes, up, i);
      var record := store.SaveStock(codes[i], like, ip);
      saved := saved + [record];
      failed := failed || up.quote(codes[i]).Rejected?;
      i := i + 1;
    }
    assert codes[..i] == codes;
  }

  /** The ticker-list path over the store: the views are built only when every fetch replied. */
  method HandleList(store: Store, codes: seq<Code>, like: bool, ip: Ip, up: Upstream) returns (response: Response)
    requires store.Valid()
    modifies store
    ensures store.Valid()
    ensures Outcome(response, store.records) == ListOutcome(old(store.records), codes, like, ip, up)
  {
    if !up.storeUp && codes != [] {
      return Failed(500, ErrorProcessingStocks);
    }
    var saved, failed := SaveAndFetchEach(store, codes, like, ip, up);
    if failed {
      response := Failed(500, ErrorProcessingStocks);
    } else {
      response := Ok(Many(PairViews(FetchedAll(saved, codes, up))));
    }
  }

  /** `GET /api/stock-prices`: classify the query and take the matching path. */
  method GetStockPrices(store: Store, q: Query, ip: Ip, up: Upstream) returns (response: Response)
    requires store.Valid()
    modifies store
    ensures store.Valid()
    ensures Outcome(response, store.records) == Handle(old(store.records), q, ip, up)
  {
    match Classify(q.stock)
    case InvalidQuery =>
      response := Failed(400, InvalidStockQuery);
    case SingleTicker(code) =>
      response := HandleSingle(store, code, LikeRequested(q.like), ip, up);
    case TickerList(codes) =>
      response := HandleList(store, codes, LikeRequested(q.like), ip, up);
  }
}
