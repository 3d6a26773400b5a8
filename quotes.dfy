/** Quote records, what one call of the quote source can do, and the fallback
    policy that turns a failed or empty live fetch into a record. */
module Quotes {

  datatype Option<+T> = None | Some(value: T)

  /** One quote record: the keys of the dictionary the quote source returns
      (ticker, price, change, market_status, last_updated) and the optional
      'error' key of a synthesised error record. */
  datatype Quote = Quote(
    ticker: string,
    price: string,
    change: string,
    marketStatus: string,
    lastUpdated: string,
    error: Option<string>)

  /** The "could not determine a price" sentinel. */
  const Unavailable: string := "N/A"
  /** Appended to the price of a cached record served in place of a live one. */
  const CachedMarker: string := " (cached)"
  const StaleStatus: string := "Data may be stale"
  const RateLimitedStatus: string := "Error: Rate limited"

  /** What one call of the quote source did: returned a record, or raised. */
  datatype Outcome = Ok(record: Quote) | Raise(message: string)

  /** One call of the quote source and the wall-clock time it took. */
  datatype Reply = Reply(outcome: Outcome, duration: real)

  predicate HasPrice(q: Quote) {
    q.price != Unavailable
  }

  /** A live result good enough to be cached. */
  predicate Usable(o: Outcome) {
    o.Ok? && HasPrice(o.record)
  }

  /** The copy of a cached record served when a live fetch failed: the price
      gets the cached marker, the market status says the data may be stale,
      every other field is the cached one. */
  function StaleCopy(q: Quote): (r: Quote)
    ensures r.price == q.price + CachedMarker && r.marketStatus == StaleStatus
    ensures r.(price := q.price, marketStatus := q.marketStatus) == q
    ensures HasPrice(r)
  {
    q.(price := q.price + CachedMarker, marketStatus := StaleStatus)
  }

  /** The record synthesised when the quote source raised and nothing is cached. */
  function RateLimitedRecord(ticker: string, message: string, stamp: string): (r: Quote)
    ensures !HasPrice(r) && r.change == Unavailable
    ensures r.ticker == ticker && r.marketStatus == RateLimitedStatus && r.error == Some(message)
  {
    Quote(ticker, Unavailable, Unavailable, RateLimitedStatus, stamp, Some(message))
  }

  /** The record a live fetch yields, given the outcome of the call and the
      cache entry for the ticker if there is one (fresh or not). */
  function Resolve(ticker: string, outcome: Outcome, entry: Option<Quote>, stamp: string): (r: Quote)
    ensures HasPrice(r) <==> Usable(outcome) || entry.Some?
  {
    if Usable(outcome) then outcome.record
    else if entry.Some? then StaleCopy(entry.value)
    else if outcome.Ok? then outcome.record
    else RateLimitedRecord(ticker, outcome.message, stamp)
  }

  /** The fallback policy case by case: a usable result is returned as it is;
      otherwise any cache entry, even an expired one, is served as a stale
      copy; with no entry, an unavailable result is returned raw and an
      exception becomes a rate-limited error record. */
  lemma FallbackPolicy(ticker: string, outcome: Outcome, entry: Option<Quote>, stamp: string)
    ensures var r := Resolve(ticker, outcome, entry, stamp);
      && (Usable(outcome) ==> r == outcome.record)
      && (!Usable(outcome) && entry.Some? ==>
            r.price == entry.value.price + CachedMarker && r.marketStatus == StaleStatus
            && r.ticker == entry.value.ticker && r.change == entry.value.change)
      && (outcome.Ok? && !Usable(outcome) && entry.None? ==> r == outcome.record && !HasPrice(r))
      && (outcome.Raise? && entry.None? ==>
            r.price == Unavailable && r.change == Unavailable
            && r.marketStatus == RateLimitedStatus && r.error == Some(outcome.message))
  {
  }

  /** A stale copy can always be told apart from a live record of the same
      entry: its price is strictly longer and ends with the marker. */
  lemma StaleCopyIsMarked(q: Quote)
    ensures |StaleCopy(q).price| == |q.price| + |CachedMarker|
    ensures StaleCopy(q).price[|q.price|..] == CachedMarker
    ensures StaleCopy(q) != q
  {
    assert |StaleCopy(q).price| != |q.price|;
  }
}
