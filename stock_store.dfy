/** The like-recording half of the stock-prices route: a document store that keeps one record per
    ticker code with the list of client addresses that liked it, and `saveStock`, which finds the
    record for a code (creating it when there is none) and appends a like when one is asked for. */
module StockStore {

  /** An upper-cased ticker code, the lookup key of the store. */
  type Code = string

  /** A client address (`req.ip`), the identity of a liker. */
  type Ip = string

  /** A stored stock document as `saveStock` resolves it: its code and the addresses that liked it. */
  datatype StockRecord = StockRecord(code: Code, likes: seq<Ip>)

  /** No address occurs twice in a likes list. */
  predicate NoDuplicates(s: seq<Ip>) {
    forall i, j :: 0 <= i < j < |s| ==> s[i] != s[j]
  }

  /** `s.indexOf(x)`: the first position of `x` in `s`, or -1 when it does not occur. */
  function IndexOf(s: seq<Ip>, x: Ip): (i: int)
    ensures -1 <= i < |s|
    ensures i == -1 <==> x !in s
    ensures 0 <= i ==> s[i] == x && x !in s[..i]
  {
    if s == [] then -1
    else if s[0] == x then 0
    else
      var k := IndexOf(s[1..], x);
      if k == -1 then -1
      else
        assert s[..k + 1] == [s[0]] + s[1..][..k];
        k + 1
  }

  /** The likes of `code` before a save: its record's list, or nothing when there is no record. */
  function PriorLikes(records: map<Code, seq<Ip>>, code: Code): seq<Ip> {
    if code in records then records[code] else []
  }

  /** The likes list `saveStock(code, like, ip)` persists for `code`. A save only ever appends: the
      old likes are a prefix of the new ones, and the list grows by one exactly when a like is asked
      for from an address not yet in it, which then ends up in the list. A new record starts from
      nothing. */
  function SavedLikes(records: map<Code, seq<Ip>>, code: Code, like: bool, ip: Ip): (likes: seq<Ip>)
    ensures PriorLikes(records, code) <= likes
    ensures |likes| == |PriorLikes(records, code)| + (if like && ip !in PriorLikes(records, code) then 1 else 0)
    ensures ip in likes <==> like || ip in PriorLikes(records, code)
  {
    if code !in records then (if like then [ip] else [])
    else if like && IndexOf(records[code], ip) == -1 then records[code] + [ip]
    else records[code]
  }

  /** The whole store after `saveStock(code, like, ip)`: the record of `code` is created or
      updated, and the store holds no record it did not hold before but that one. */
  function AfterSave(records: map<Code, seq<Ip>>, code: Code, like: bool, ip: Ip): (after: map<Code, seq<Ip>>)
    ensures after.Keys == records.Keys + {code}
  {
    records[code := SavedLikes(records, code, like, ip)]
  }

  /** A record is settled for a save when saving it again cannot change it: it exists and, when a
      like is asked for, already holds the address. */
  predicate Settled(records: map<Code, seq<Ip>>, code: Code, like: bool, ip: Ip) {
    code in records && (like ==> ip in records[code])
  }

  /** After a save the list holds precisely the old likers plus, if asked for, the requester. */
  lemma SavedLikesContents(records: map<Code, seq<Ip>>, code: Code, like: bool, ip: Ip)
    ensures forall x :: x in SavedLikes(records, code, like, ip) <==> x in PriorLikes(records, code) || (like && x == ip)
  {
  }

  /** A save leaves every record but its own unchanged. */
  lemma SaveTouchesOnlyItsCode(records: map<Code, seq<Ip>>, code: Code, like: bool, ip: Ip)
    ensures forall c :: c in records && c != code ==> AfterSave(records, code, like, ip)[c] == records[c]
  {
  }

  /** Without a like, an existing record keeps its likes and a new one starts empty. */
  lemma SaveWithoutLikeKeepsLikes(records: map<Code, seq<Ip>>, code: Code, ip: Ip)
    ensures SavedLikes(records, code, false, ip) == PriorLikes(records, code)
  {
  }

  /** After a save its record is settled. */
  lemma SaveSettles(records: map<Code, seq<Ip>>, code: Code, like: bool, ip: Ip)
    ensures Settled(AfterSave(records, code, like, ip), code, like, ip)
  {
  }

  /** Saving a settled record changes nothing: in particular a second like from the same address
      leaves the store as the first one left it. */
  lemma SaveSettledIsNoOp(records: map<Code, seq<Ip>>, code: Code, like: bool, ip: Ip)
    requires Settled(records, code, like, ip)
    ensures AfterSave(records, code, like, ip) == records
  {
    assert SavedLikes(records, code, like, ip) == records[code];
  }

  /** Liking is idempotent: liking twice from one address leaves the store as liking once. */
  lemma {:induction false} SaveLikeIdempotent(records: map<Code, seq<Ip>>, code: Code, ip: Ip)
    ensures AfterSave(AfterSave(records, code, true, ip), code, true, ip) == AfterSave(records, code, true, ip)
  {
    SaveSettles(records, code, true, ip);
    SaveSettledIsNoOp(AfterSave(records, code, true, ip), code, true, ip);
  }

  /** A save never puts a duplicate into a likes list. */
  lemma SaveKeepsNoDuplicates(records: map<Code, seq<Ip>>, code: Code, like: bool, ip: Ip)
    requires NoDuplicates(PriorLikes(records, code))
    ensures NoDuplicates(SavedLikes(records, code, like, ip))
  {
  }

  /** The record store, updated in place by `saveStock`. */
  class Store {
    var records: map<Code, seq<Ip>>

    /** Every likes list is free of duplicates. */
    ghost predicate Valid()
      reads this
    {
      forall c :: c in records ==> NoDuplicates(records[c])
    }

    /** An empty store. */
    constructor ()
      ensures records == map[] && Valid()
    {
      records := map[];
    }

    /** `saveStock(code, like, ip)`: find the record of `code`; create it with likes `[ip]` or `[]`
        when there is none, otherwise push `ip` onto its likes when `like` is set and `ip` is not
        among them; persist it and return the saved record. */
    method SaveStock(code: Code, like: bool, ip: Ip) returns (saved: StockRecord)
      requires Valid()
      modifies this
      ensures Valid()
      ensures records == AfterSave(old(records), code, like, ip)
      ensures saved == StockRecord(code, records[code])
    {
      SaveKeepsNoDuplicates(records, code, like, ip);
      if code !in records {
        var created := StockRecord(code, if like then [ip] else []);
        records := records[code := created.likes];
        saved := created;
      } else {
        var likes := records[code];
        if like && IndexOf(likes, ip) == -1 {
          likes := likes + [ip];
        }
        records := records[code := likes];
        saved := StockRecord(code, likes);
      }
    }
  }
}
