/** The fetch-orchestration object: a TTL cache of quote records in front of a
    rate-sensitive quote source, a throttle, a batch dispatcher and running
    statistics. The worker pool runs the tickers of a sub-batch one after
    another, in their shuffled order. */
module Scraper {
  import opened Quotes
  import opened Throttle
  import opened Clocks
  import opened Batching

  const DefaultMaxWorkers: int := 6
  const DefaultCacheTtl: real := 600.0
  /** The key under which a batch result carries its metadata. */
  const MetadataKey: string := "metadata"

  /** One cache entry: the record and the time it was stored. */
  datatype CacheEntry = CacheEntry(data: Quote, timestamp: real)

  /** The statistics dictionary. */
  datatype Stats = Stats(
    requestsMade: nat,
    successfulRequests: nat,
    failedRequests: nat,
    totalTime: real,
    lastBatchTime: real,
    lastBatchSize: nat,
    lastRequestTime: real)

  /** The report of `get_stats`. */
  datatype StatsReport = StatsReport(
    requestsMade: nat,
    successfulRequests: nat,
    failedRequests: nat,
    cacheSize: nat,
    cacheTtl: real,
    averageTimePerRequest: real)

  /** One ticker's line in the report of `get_cache_info` (ages in seconds). */
  datatype TickerAge = TickerAge(age: real, timeLeft: real, isFresh: bool)

  /** The report of `get_cache_info`. */
  datatype CacheInfo = CacheInfo(cacheSize: nat, cacheTtl: real, tickers: map<string, TickerAge>)

  /** The metadata entry of a batch result. */
  datatype Metadata = Metadata(
    totalTime: real,
    tickersProcessed: nat,
    averageTimePerTicker: real,
    cachedTickers: nat,
    uncachedTickers: nat,
    fastMode: bool)

  /** A value of the batch result: a ticker's record, or the metadata. */
  datatype BatchValue = Data(quote: Quote) | Meta(metadata: Metadata)

  /** What a batch call gives back: the batch result, or the error it raises. */
  datatype BatchReply = Results(entries: map<string, BatchValue>) | Raised(message: string)

  /** The error the worker pool raises when asked for no workers. */
  const WorkerCountMessage: string := "max_workers must be greater than 0"

  /** A total spread evenly over `n` items. */
  function Mean(total: real, n: nat): real
    requires n > 0
  {
    total / (n as real)
  }

  /** The freshness test of a cache lookup. */
  predicate FreshIn(cache: map<string, CacheEntry>, ticker: string, now: real, ttl: real) {
    ticker in cache && now - cache[ticker].timestamp < ttl
  }

  /** The cache entry of `ticker`, if there is one. */
  function Entry(cache: map<string, CacheEntry>, ticker: string): Option<CacheEntry> {
    if ticker in cache then Some(cache[ticker]) else None
  }

  /** The cached record of `ticker`, if there is one. */
  function Lookup(cache: map<string, CacheEntry>, ticker: string): Option<Quote> {
    match Entry(cache, ticker)
    case None => None
    case Some(e) => Some(e.data)
  }

  /** The tickers a batch serves from the cache, in input order, duplicates kept. */
  function FreshTickers(tickers: seq<string>, cache: map<string, CacheEntry>, now: real, ttl: real): seq<string>
  {
    if tickers == [] then []
    else
      var last := tickers[|tickers| - 1];
      FreshTickers(tickers[..|tickers| - 1], cache, now, ttl)
        + (if FreshIn(cache, last, now, ttl) then [last] else [])
  }

  /** The tickers a batch sends to the quote source, in input order, duplicates kept. */
  function StaleTickers(tickers: seq<string>, cache: map<string, CacheEntry>, now: real, ttl: real): seq<string>
  {
    if tickers == [] then []
    else
      var last := tickers[|tickers| - 1];
      StaleTickers(tickers[..|tickers| - 1], cache, now, ttl)
        + (if FreshIn(cache, last, now, ttl) then [] else [last])
  }

  /** Every input ticker, duplicates included, is counted exactly once as a
      cache hit or as a miss. */
  lemma {:induction false} PartitionCounts(tickers: seq<string>, cache: map<string, CacheEntry>, now: real, ttl: real)
    ensures |FreshTickers(tickers, cache, now, ttl)| + |StaleTickers(tickers, cache, now, ttl)| == |tickers|
  {
    if tickers != [] {
      PartitionCounts(tickers[..|tickers| - 1], cache, now, ttl);
    }
  }

  /** The batch result: every fetched record under its ticker, then the
      metadata entry, which takes the place of a ticker named like its key. */
  function WithMetadata(quotes: map<string, Quote>, metadata: Metadata): (r: map<string, BatchValue>)
    ensures forall t :: t in r <==> t in quotes || t == MetadataKey
    ensures r[MetadataKey] == Meta(metadata)
    ensures forall t :: t in quotes && t != MetadataKey ==> r[t] == Data(quotes[t])
  {
    (map t | t in quotes :: Data(quotes[t]))[MetadataKey := Meta(metadata)]
  }

  /** The next sub-batch lies within the misses, right after those done. */
  lemma SubBatchWithin(done: seq<string>, batches: seq<seq<string>>, b: nat, misses: seq<string>)
    requires b < |batches| && done + Flatten(batches[b..]) == misses
    ensures (done + batches[b]) + Flatten(batches[b + 1..]) == misses
    ensures forall t :: t in batches[b] ==> t in misses
  {
    FlattenStep(batches, b);
    assert done + (batches[b] + Flatten(batches[b + 1..])) == (done + batches[b]) + Flatten(batches[b + 1..]);
  }

  /** A shuffled list holds the same tickers as the original, and as many. */
  lemma SameElements(a: seq<string>, b: seq<string>)
    requires multiset(a) == multiset(b)
    ensures forall t :: t in a <==> t in b
    ensures |a| == |b|
  {
    forall t ensures t in a <==> t in b {
      assert t in a <==> t in multiset(a);
      assert t in b <==> t in multiset(b);
    }
    assert |multiset(a)| == |multiset(b)|;
  }

  /** The hits are exactly the input tickers with a fresh entry, the misses
      exactly the others. */
  lemma {:induction false} PartitionMembers(tickers: seq<string>, cache: map<string, CacheEntry>, now: real, ttl: real)
    ensures forall t :: t in FreshTickers(tickers, cache, now, ttl) <==> t in tickers && FreshIn(cache, t, now, ttl)
    ensures forall t :: t in StaleTickers(tickers, cache, now, ttl) <==> t in tickers && !FreshIn(cache, t, now, ttl)
  {
    if tickers != [] {
      var init := tickers[..|tickers| - 1];
      PartitionMembers(init, cache, now, ttl);
      assert tickers == init + [tickers[|tickers| - 1]];
    }
  }

  /** No ticker is both a hit and a miss, and every input ticker is one of them. */
  lemma HitsAreNotMisses(tickers: seq<string>, cache: map<string, CacheEntry>, now: real, ttl: real)
    ensures forall t :: t in FreshTickers(tickers, cache, now, ttl) ==>
      t in tickers && t in cache && t !in StaleTickers(tickers, cache, now, ttl)
    ensures forall t :: t in StaleTickers(tickers, cache, now, ttl) ==> t in tickers
    ensures forall t :: t in tickers ==> t in FreshTickers(tickers, cache, now, ttl) || t in StaleTickers(tickers, cache, now, ttl)
  {
    PartitionMembers(tickers, cache, now, ttl);
  }

  /** The batch result holds every input ticker and the metadata key and
      nothing else; every input ticker maps to a record, and every hit to its
      record in `cache`. */
  lemma BatchResultShape(tickers: seq<string>, hits: seq<string>, cache: map<string, CacheEntry>,
                         quotes: map<string, Quote>, metadata: Metadata)
    requires forall t :: t in quotes <==> t in tickers
    requires forall t :: t in hits ==> t in cache && t in quotes && quotes[t] == cache[t].data
    ensures var r := WithMetadata(quotes, metadata);
      && (forall t :: t in r <==> t in tickers || t == MetadataKey)
      && (forall t :: t in tickers && t != MetadataKey ==> r[t].Data?)
      && (forall t :: t in hits && t != MetadataKey ==> t in cache && t in r && r[t] == Data(cache[t].data))
  {
  }

  /** `m1` agrees with `m0` on every key outside `keys`. */
  ghost predicate SameOutside<V>(m0: map<string, V>, m1: map<string, V>, keys: seq<string>) {
    forall t :: t !in keys ==> (t in m0 <==> t in m1) && (t in m1 ==> m1[t] == m0[t])
  }

  /** The batch timings of the statistics are the same in both. */
  ghost predicate SameTimings(s0: Stats, s1: Stats) {
    s0.totalTime == s1.totalTime && s0.lastBatchTime == s1.lastBatchTime && s0.lastBatchSize == s1.lastBatchSize
  }

  /** The live fetch of `ticker`, answered by `reply` at time `time`, left
      behind: its record in `results` is what the fallback policy makes of the
      reply given the entry `cache0` held, and its entry in `cache` is the new
      record stamped `time` when the reply is usable, the entry of `cache0`
      otherwise. */
  ghost predicate FetchedOne(ticker: string, reply: Reply, cache0: map<string, CacheEntry>, time: real,
                             format: real -> string, results: map<string, Quote>, cache: map<string, CacheEntry>) {
    && ticker in results
    && results[ticker] == Resolve(ticker, reply.outcome, Lookup(cache0, ticker), format(time))
    && Entry(cache, ticker) == (if Usable(reply.outcome) then Some(CacheEntry(reply.outcome.record, time))
                                else Entry(cache0, ticker))
  }

  /** Every ticker of `order` was fetched live, the one at index `j` at
      dispatch position `first + j` and answered at `times[j]`. */
  ghost predicate Fetched(order: seq<string>, first: nat, source: nat -> Reply, format: real -> string,
                          cache0: map<string, CacheEntry>, results: map<string, Quote>,
                          cache: map<string, CacheEntry>, times: seq<real>) {
    && |times| == |order|
    && forall j: nat :: j < |order| ==> FetchedAt(order, first, source, format, cache0, results, cache, times, j)
  }

  /** The ticker at index `j` of `order` was fetched live, as `FetchedOne`
      says, at dispatch position `first + j` and answered at `times[j]`. */
  ghost predicate FetchedAt(order: seq<string>, first: nat, source: nat -> Reply, format: real -> string,
                            cache0: map<string, CacheEntry>, results: map<string, Quote>,
                            cache: map<string, CacheEntry>, times: seq<real>, j: nat) {
    && j < |order| && j < |times|
    && FetchedOne(order[j], source(first + j), cache0, times[j], format, results, cache)
  }

  /** How many of the `n` replies from dispatch position `first` on are usable. */
  function Successes(source: nat -> Reply, first: nat, n: nat): (k: nat)
    ensures k <= n
  {
    if n == 0 then 0
    else Successes(source, first, n - 1) + (if Usable(source(first + n - 1).outcome) then 1 else 0)
  }

  /** The usable replies of two consecutive runs of positions add up. */
  lemma {:induction false} SuccessesSplit(source: nat -> Reply, first: nat, m: nat, n: nat)
    ensures Successes(source, first, m + n) == Successes(source, first, m) + Successes(source, first + m, n)
    decreases n
  {
    if n > 0 {
      SuccessesSplit(source, first, m, n - 1);
      assert first + (m + n) - 1 == (first + m) + n - 1;
    }
  }

  /** The end of the last of `times`, or `start` when there is none. */
  function LastOr(times: seq<real>, start: real): real {
    if times == [] then start else times[|times| - 1]
  }

  /** When `ticker` was last fetched live according to `lastScrape`; 0 if never. */
  function LastFetched(lastScrape: map<string, real>, ticker: string): real {
    if ticker in lastScrape then lastScrape[ticker] else 0.0
  }

  /** The throttle delay of a live fetch at time `now` of a ticker last
      fetched at `lastFetched`, when the last request of all went out at
      `lastRequest`. */
  function ThrottleWait(fast: bool, lastFetched: real, lastRequest: real, now: real, jitter: real): real
    requires JitterInRange(fast, jitter)
  {
    Delay(fast, now - lastFetched, now - lastRequest, jitter)
  }

  /** The state a live fetch of `ticker` that woke from the throttle at
      `wake`, from state (`cache0`, `lastScrape0`, `stats0`), left behind:
      both last-request times are the wake-up time; one request is counted, a
      success exactly when the reply is usable; the cache holds the new record,
      stamped with the answer time, only if it is usable; and `r` is what the
      fallback policy makes of the outcome, given the entry the cache held. */
  ghost predicate LiveFetched(ticker: string, reply: Reply, format: real -> string,
                              cache0: map<string, CacheEntry>, lastScrape0: map<string, real>, stats0: Stats,
                              wake: real, r: Quote,
                              cache: map<string, CacheEntry>, lastScrape: map<string, real>, stats: Stats) {
    var success := Usable(reply.outcome);
    && lastScrape == lastScrape0[ticker := wake]
    && stats == stats0.(
         requestsMade := stats0.requestsMade + 1,
         successfulRequests := stats0.successfulRequests + (if success then 1 else 0),
         failedRequests := stats0.failedRequests + (if success then 0 else 1),
         lastRequestTime := wake)
    && cache == (if success then cache0[ticker := CacheEntry(reply.outcome.record, wake + reply.duration)] else cache0)
    && r == Resolve(ticker, reply.outcome, Lookup(cache0, ticker), format(wake + reply.duration))
  }

  /** When the fetch at index `i` of a run woke from the throttle: its answer
      time less its call's duration. */
  function Wake(source: nat -> Reply, first: nat, times: seq<real>, i: nat): real
    requires i < |times|
  {
    times[i] - source(first + i).duration
  }

  /** The global last-request time after a run of live fetches begun with
      `lastRequest0`: the wake-up of the last fetch, or `lastRequest0`. */
  function LastRequest(source: nat -> Reply, first: nat, lastRequest0: real, times: seq<real>): real {
    if times == [] then lastRequest0 else Wake(source, first, times, |times| - 1)
  }

  /** The fetch at index `j` of `order`, ready to go `gaps[j]` after the
      previous answer (or `start`), slept exactly the throttle delay that the
      last-scrape times `lastScrape0` and the previous fetch's wake-up (or
      `lastRequest0`) give, then took its call's duration. */
  ghost predicate PacedAt(order: seq<string>, first: nat, source: nat -> Reply, jitter: nat -> real, fast: bool,
                          lastScrape0: map<string, real>, lastRequest0: real, start: real,
                          times: seq<real>, gaps: seq<real>, j: nat) {
    && j < |times| && j < |order| && j < |gaps|
    && JitterInRange(fast, jitter(first + j))
    && var ready := LastOr(times[..j], start) + gaps[j];
       Wake(source, first, times, j)
         == ready + ThrottleWait(fast, LastFetched(lastScrape0, order[j]),
                                 LastRequest(source, first, lastRequest0, times[..j]), ready, jitter(first + j))
  }

  /** Every fetch of the run was paced by the throttle, as `PacedAt` says. */
  ghost predicate Paced(order: seq<string>, first: nat, source: nat -> Reply, jitter: nat -> real, fast: bool,
                        lastScrape0: map<string, real>, lastRequest0: real, start: real,
                        times: seq<real>, gaps: seq<real>) {
    forall j: nat :: j < |times| ==> PacedAt(order, first, source, jitter, fast, lastScrape0, lastRequest0,
                                             start, times, gaps, j)
  }

  /** The last-scrape time of every ticker of the run is its fetch's wake-up. */
  ghost predicate Stamped(order: seq<string>, first: nat, source: nat -> Reply, times: seq<real>,
                          lastScrape: map<string, real>) {
    forall j: nat :: j < |times| && j < |order| ==>
      order[j] in lastScrape && lastScrape[order[j]] == Wake(source, first, times, j)
  }

  /** The answer times never go back: the first is no earlier than `start`
      and each later one no earlier than the one before. */
  ghost predicate Ascending(times: seq<real>, start: real) {
    && (|times| > 0 ==> start <= times[0])
    && forall j :: 0 < j < |times| ==> times[j - 1] <= times[j]
  }

  /** Every ticker of `order` is fetched live exactly once: none repeats, and
      none has a fresh cache entry. */
  ghost predicate LiveOnly(order: seq<string>, cache: map<string, CacheEntry>, now: real, ttl: real) {
    NoDuplicates(order) && forall t :: t in order ==> !FreshIn(cache, t, now, ttl)
  }

  /** Fetch results of two runs of distinct tickers, the second dispatched
      right after the first, combine; the second run may start from a cache
      that differs only on tickers outside it. */
  lemma FetchedConcat(a: seq<string>, b: seq<string>, first: nat, source: nat -> Reply, format: real -> string,
                      cache0: map<string, CacheEntry>, cacheMid: map<string, CacheEntry>,
                      results1: map<string, Quote>, cache1: map<string, CacheEntry>, times1: seq<real>,
                      results2: map<string, Quote>, cache2: map<string, CacheEntry>, times2: seq<real>)
    requires Fetched(a, first, source, format, cache0, results1, cache1, times1)
    requires Fetched(b, first + |a|, source, format, cacheMid, results2, cache2, times2)
    requires forall t :: t in a ==> t !in b
    requires forall t :: t in b ==> Entry(cacheMid, t) == Entry(cache0, t)
    requires forall t :: t in a && t in results1 ==> t in results2 && results2[t] == results1[t]
    requires forall t :: t in a ==> Entry(cache2, t) == Entry(cache1, t)
    ensures Fetched(a + b, first, source, format, cache0, results2, cache2, times1 + times2)
  {
    var s, ts := a + b, times1 + times2;
    forall j: nat | j < |s| ensures FetchedAt(s, first, source, format, cache0, results2, cache2, ts, j) {
      if j < |a| {
        assert s[j] == a[j] && ts[j] == times1[j];
        assert FetchedAt(a, first, source, format, cache0, results1, cache1, times1, j);
      } else {
        var k := j - |a|;
        assert s[j] == b[k] && ts[j] == times2[k] && first + j == first + |a| + k;
        assert FetchedAt(b, first + |a|, source, format, cacheMid, results2, cache2, times2, k);
      }
    }
  }

  /** The first `j` tickers of `order`, dispatched from position `first` on
      and from the cache `cache0`, last-scrape times `lastScrape0`,
      statistics `stats0` and clock `start`, were fetched live one after the
      other, each paced by the throttle, stamped with its wake-up and counted. */
  ghost predicate Progress(order: seq<string>, j: nat, first: nat, source: nat -> Reply, jitter: nat -> real,
                           format: real -> string, fast: bool, cache0: map<string, CacheEntry>,
                           lastScrape0: map<string, real>, start: real, stats0: Stats,
                           results: map<string, Quote>, cache: map<string, CacheEntry>,
                           lastScrape: map<string, real>, times: seq<real>, stats: Stats) {
    && j <= |order|
    && Fetched(order[..j], first, source, format, cache0, results, cache, times)
    && Paced(order, first, source, jitter, fast, lastScrape0, stats0.lastRequestTime, start, times, Zeros(|order|))
    && Stamped(order, first, source, times, lastScrape)
    && stats.lastRequestTime == LastRequest(source, first, stats0.lastRequestTime, times)
    && stats.requestsMade == stats0.requestsMade + j
    && stats.successfulRequests == stats0.successfulRequests + Successes(source, first, j)
  }

  /** One more live fetch, of a ticker not fetched before, extends a run of
      live fetches by one. */
  lemma FetchedStep(order: seq<string>, j: nat, first: nat, source: nat -> Reply, format: real -> string,
                    cache0: map<string, CacheEntry>, results0: map<string, Quote>, cacheMid: map<string, CacheEntry>,
                    times0: seq<real>, results: map<string, Quote>, cache: map<string, CacheEntry>, t: real)
    requires j < |order| && order[j] !in order[..j]
    requires Fetched(order[..j], first, source, format, cache0, results0, cacheMid, times0)
    requires Entry(cacheMid, order[j]) == Entry(cache0, order[j])
    requires FetchedOne(order[j], source(first + j), cacheMid, t, format, results, cache)
    requires forall u :: u in results0 && u != order[j] ==> u in results && results[u] == results0[u]
    requires SameOutside(cacheMid, cache, [order[j]])
    ensures Fetched(order[..j + 1], first, source, format, cache0, results, cache, times0 + [t])
  {
    var ticker := order[j];
    assert order[..j + 1] == order[..j] + [ticker];
    assert FetchedAt([ticker], first + |order[..j]|, source, format, cacheMid, results, cache, [t], 0);
    FetchedConcat(order[..j], [ticker], first, source, format, cache0, cacheMid,
                  results0, cacheMid, times0, results, cache, [t]);
  }

  /** One more live fetch, of a ticker not fetched before, that slept the
      throttle delay from the last answer on and was counted, extends the
      progress by one. */
  lemma ProgressStep(order: seq<string>, j: nat, first: nat, source: nat -> Reply, jitter: nat -> real,
                     format: real -> string, fast: bool, cache0: map<string, CacheEntry>,
                     lastScrape0: map<string, real>, start: real, stats0: Stats,
                     results0: map<string, Quote>, cacheMid: map<string, CacheEntry>,
                     lastScrapeMid: map<string, real>, times0: seq<real>, statsMid: Stats,
                     results: map<string, Quote>, cache: map<string, CacheEntry>,
                     lastScrape: map<string, real>, t: real, stats: Stats)
    requires j < |order| && order[j] !in order[..j]
    requires Progress(order, j, first, source, jitter, format, fast, cache0, lastScrape0, start, stats0,
                      results0, cacheMid, lastScrapeMid, times0, statsMid)
    requires Entry(cacheMid, order[j]) == Entry(cache0, order[j])
    requires JitterInRange(fast, jitter(first + j))
    requires t - source(first + j).duration
          == LastOr(times0, start) + ThrottleWait(fast, LastFetched(lastScrape0, order[j]), statsMid.lastRequestTime,
                                                  LastOr(times0, start), jitter(first + j))
    requires FetchedOne(order[j], source(first + j), cacheMid, t, format, results, cache)
    requires forall u :: u in results0 && u != order[j] ==> u in results && results[u] == results0[u]
    requires SameOutside(cacheMid, cache, [order[j]])
    requires lastScrape == lastScrapeMid[order[j] := t - source(first + j).duration]
    requires stats.lastRequestTime == t - source(first + j).duration
    requires stats.requestsMade == statsMid.requestsMade + 1
    requires stats.successfulRequests == statsMid.successfulRequests + (if Usable(source(first + j).outcome) then 1 else 0)
    ensures Progress(order, j + 1, first, source, jitter, format, fast, cache0, lastScrape0, start, stats0,
                     results, cache, lastScrape, times0 + [t], stats)
  {
    FetchedStep(order, j, first, source, format, cache0, results0, cacheMid, times0, results, cache, t);
    assert |times0| == j && Zeros(|order|)[j] == 0.0;
    PacedStep(order, first, source, jitter, fast, lastScrape0, stats0.lastRequestTime, start, times0, Zeros(|order|), t);
    StampedStep(order, first, source, times0, lastScrapeMid, t, lastScrape);
  }

  /** An entry that was not fresh stays so while it is untouched and the
      clock only moves on. */
  lemma StillStale(cache0: map<string, CacheEntry>, cache: map<string, CacheEntry>, ticker: string,
                   now0: real, now: real, ttl: real)
    requires !FreshIn(cache0, ticker, now0, ttl) && Entry(cache, ticker) == Entry(cache0, ticker) && now0 <= now
    ensures !FreshIn(cache, ticker, now, ttl)
  {
  }

  /** The part of `PoolState` that holds whether or not the run is live. */
  ghost predicate PoolFrame(order: seq<string>, j: nat, base: map<string, Quote>,
                            cache0: map<string, CacheEntry>, lastScrape0: map<string, real>, stats0: Stats,
                            start: real, acc: map<string, Quote>, times: seq<real>,
                            cache: map<string, CacheEntry>, lastScrape: map<string, real>, stats: Stats, now: real) {
    && j <= |order|
    && (forall t :: t in acc <==> t in base || t in order[..j])
    && (forall t :: t in base && t !in order ==> acc[t] == base[t])
    && SameOutside(cache0, cache, order[..j]) && cache0.Keys <= cache.Keys
    && SameOutside(lastScrape0, lastScrape, order[..j]) && lastScrape0.Keys <= lastScrape.Keys
    && stats0.requestsMade <= stats.requestsMade <= stats0.requestsMade + j
    && SameTimings(stats0, stats)
    && start <= now
    && |times| == j && now == LastOr(times, start)
    && Ascending(times, start)
  }

  /** The frame part of `PoolStep`. */
  lemma PoolFrameStep(order: seq<string>, j: nat, base: map<string, Quote>,
                      cache0: map<string, CacheEntry>, lastScrape0: map<string, real>, stats0: Stats, start: real,
                      acc: map<string, Quote>, times: seq<real>,
                      cacheMid: map<string, CacheEntry>, lastScrapeMid: map<string, real>, statsMid: Stats, nowMid: real,
                      acc': map<string, Quote>, cache: map<string, CacheEntry>, lastScrape: map<string, real>,
                      stats: Stats, now: real)
    requires j < |order|
    requires PoolFrame(order, j, base, cache0, lastScrape0, stats0, start, acc, times, cacheMid, lastScrapeMid, statsMid, nowMid)
    requires forall t :: t in acc' <==> t in acc || t == order[j]
    requires forall t :: t in acc && t != order[j] ==> acc'[t] == acc[t]
    requires SameOutside(cacheMid, cache, [order[j]]) && cacheMid.Keys <= cache.Keys
    requires SameOutside(lastScrapeMid, lastScrape, [order[j]]) && lastScrapeMid.Keys <= lastScrape.Keys
    requires statsMid.requestsMade <= stats.requestsMade <= statsMid.requestsMade + 1
    requires SameTimings(statsMid, stats)
    requires nowMid <= now
    ensures PoolFrame(order, j + 1, base, cache0, lastScrape0, stats0, start, acc', times + [now], cache, lastScrape, stats, now)
  {
    assert LastOr(times + [now], start) == now;
    AscendingStep(times, start, now);
    assert order[..j + 1] == order[..j] + [order[j]];
    SameOutsideJoin(cache0, cacheMid, cache, order[..j], [order[j]]);
    SameOutsideJoin(lastScrape0, lastScrapeMid, lastScrape, order[..j], [order[j]]);
  }

  /** The state of the worker pool after the first `j` tickers of `order`,
      started from the cache `cache0`, last-scrape times `lastScrape0`,
      statistics `stats0` and clock `start`: the results `acc` add exactly
      those tickers to `base`; cache entries and last-scrape times changed
      only for them; at most one request per ticker was counted; the clock
      `now` stands at the last answer. When the run is `live`, every one of
      those tickers was fetched live. */
  ghost predicate PoolState(order: seq<string>, j: nat, first: nat, source: nat -> Reply, jitter: nat -> real,
                            format: real -> string, fast: bool, ttl: real, base: map<string, Quote>, live: bool,
                            cache0: map<string, CacheEntry>, lastScrape0: map<string, real>, stats0: Stats,
                            start: real, acc: map<string, Quote>, times: seq<real>,
                            cache: map<string, CacheEntry>, lastScrape: map<string, real>, stats: Stats, now: real) {
    && PoolFrame(order, j, base, cache0, lastScrape0, stats0, start, acc, times, cache, lastScrape, stats, now)
    && (live ==> LiveOnly(order, cache0, start, ttl))
    && (live ==> Progress(order, j, first, source, jitter, format, fast, cache0, lastScrape0, start, stats0,
                          acc, cache, lastScrape, times, stats))
  }

  /** Handing the next ticker to a worker moves the pool's state on by one:
      the worker adds that ticker's record, changes only its entry and
      last-scrape time, counts at most one request and answers after the
      clock stood; when the ticker was not fresh, its fetch was live and slept
      the throttle delay first. */
  lemma PoolStep(order: seq<string>, j: nat, first: nat, source: nat -> Reply, jitter: nat -> real,
                 format: real -> string, fast: bool, ttl: real, base: map<string, Quote>, live: bool,
                 cache0: map<string, CacheEntry>, lastScrape0: map<string, real>, stats0: Stats, start: real,
                 acc: map<string, Quote>, times: seq<real>,
                 cacheMid: map<string, CacheEntry>, lastScrapeMid: map<string, real>, statsMid: Stats, nowMid: real,
                 acc': map<string, Quote>, cache: map<string, CacheEntry>, lastScrape: map<string, real>,
                 stats: Stats, now: real)
    requires j < |order|
    requires PoolState(order, j, first, source, jitter, format, fast, ttl, base, live, cache0, lastScrape0, stats0,
                       start, acc, times, cacheMid, lastScrapeMid, statsMid, nowMid)
    requires forall t :: t in acc' <==> t in acc || t == order[j]
    requires forall t :: t in acc && t != order[j] ==> acc'[t] == acc[t]
    requires SameOutside(cacheMid, cache, [order[j]]) && cacheMid.Keys <= cache.Keys
    requires SameOutside(lastScrapeMid, lastScrape, [order[j]]) && lastScrapeMid.Keys <= lastScrape.Keys
    requires statsMid.requestsMade <= stats.requestsMade <= statsMid.requestsMade + 1
    requires SameTimings(statsMid, stats)
    requires nowMid <= now
    requires JitterInRange(fast, jitter(first + j))
    requires !FreshIn(cacheMid, order[j], nowMid, ttl) ==>
      var wake := nowMid + ThrottleWait(fast, LastFetched(lastScrapeMid, order[j]), statsMid.lastRequestTime,
                                        nowMid, jitter(first + j));
      && now == wake + source(first + j).duration
      && order[j] in acc'
      && LiveFetched(order[j], source(first + j), format, cacheMid, lastScrapeMid, statsMid, wake, acc'[order[j]],
                     cache, lastScrape, stats)
    ensures PoolState(order, j + 1, first, source, jitter, format, fast, ttl, base, live, cache0, lastScrape0, stats0,
                      start, acc', times + [now], cache, lastScrape, stats, now)
  {
    PoolFrameStep(order, j, base, cache0, lastScrape0, stats0, start, acc, times,
                  cacheMid, lastScrapeMid, statsMid, nowMid, acc', cache, lastScrape, stats, now);
    if live {
      PoolLiveStep(order, j, first, source, jitter, format, fast, ttl, base, cache0, lastScrape0, stats0, start,
                   acc, times, cacheMid, lastScrapeMid, statsMid, nowMid, acc', cache, lastScrape, stats, now);
    }
  }

  /** The live part of `PoolStep`: in a live run the next ticker is still
      stale when its turn comes, so its worker fetches it, and the progress
      moves on by one. */
  lemma PoolLiveStep(order: seq<string>, j: nat, first: nat, source: nat -> Reply, jitter: nat -> real,
                     format: real -> string, fast: bool, ttl: real, base: map<string, Quote>,
                     cache0: map<string, CacheEntry>, lastScrape0: map<string, real>, stats0: Stats, start: real,
                     acc: map<string, Quote>, times: seq<real>,
                     cacheMid: map<string, CacheEntry>, lastScrapeMid: map<string, real>, statsMid: Stats, nowMid: real,
                     acc': map<string, Quote>, cache: map<string, CacheEntry>, lastScrape: map<string, real>,
                     stats: Stats, now: real)
    requires j < |order|
    requires PoolFrame(order, j, base, cache0, lastScrape0, stats0, start, acc, times, cacheMid, lastScrapeMid,
                       statsMid, nowMid)
    requires LiveOnly(order, cache0, start, ttl)
    requires Progress(order, j, first, source, jitter, format, fast, cache0, lastScrape0, start, stats0,
                      acc, cacheMid, lastScrapeMid, times, statsMid)
    requires forall t :: t in acc' <==> t in acc || t == order[j]
    requires forall t :: t in acc && t != order[j] ==> acc'[t] == acc[t]
    requires JitterInRange(fast, jitter(first + j))
    requires !FreshIn(cacheMid, order[j], nowMid, ttl) ==>
      var wake := nowMid + ThrottleWait(fast, LastFetched(lastScrapeMid, order[j]), statsMid.lastRequestTime,
                                        nowMid, jitter(first + j));
      && now == wake + source(first + j).duration
      && order[j] in acc'
      && LiveFetched(order[j], source(first + j), format, cacheMid, lastScrapeMid, statsMid, wake, acc'[order[j]],
                     cache, lastScrape, stats)
    ensures Progress(order, j + 1, first, source, jitter, format, fast, cache0, lastScrape0, start, stats0,
                     acc', cache, lastScrape, times + [now], stats)
  {
    assert order[j] !in order[..j];
    StillStale(cache0, cacheMid, order[j], start, nowMid, ttl);
    assert LastFetched(lastScrapeMid, order[j]) == LastFetched(lastScrape0, order[j]);
    ProgressStep(order, j, first, source, jitter, format, fast, cache0, lastScrape0, start, stats0,
                 acc, cacheMid, lastScrapeMid, times, statsMid, acc', cache, lastScrape, now, stats);
  }

  /** The part of `DispatchState` that holds whether or not the misses are
      live: the sub-batches before `b` are `done`, dispatched in the order
      `dispatched`; the results `acc` add exactly those tickers to `base`;
      cache entries and last-scrape times changed only for them; at most one
      request per ticker was counted; the answers never went back in time,
      and the clock stands at the last one plus the pause the dispatcher
      takes before sub-batch `b`. */
  ghost predicate DispatchFrame(misses: seq<string>, batches: seq<seq<string>>, b: nat,
                                shuffle: (nat, seq<string>) -> seq<string>, fast: bool, base: map<string, Quote>,
                                cache0: map<string, CacheEntry>, lastScrape0: map<string, real>, stats0: Stats,
                                start: real, done: seq<string>, dispatched: seq<string>,
                                acc: map<string, Quote>, times: seq<real>,
                                cache: map<string, CacheEntry>, lastScrape: map<string, real>, stats: Stats, now: real) {
    && b <= |batches|
    && done + Flatten(batches[b..]) == misses
    && (forall t :: t in acc <==> t in base || t in done)
    && (forall t :: t in base && t !in misses ==> acc[t] == base[t])
    && SameOutside(cache0, cache, done) && cache0.Keys <= cache.Keys
    && SameOutside(lastScrape0, lastScrape, done)
    && stats0.requestsMade <= stats.requestsMade <= stats0.requestsMade + |done|
    && SameTimings(stats0, stats)
    && start <= now
    && dispatched == DispatchOrder(batches, shuffle, b)
    && multiset(dispatched) == multiset(done) && |times| == |dispatched|
    && |PausesBefore(batches, fast, b)| == |times|
    && Ascending(times, start)
    && now == LastOr(times, start) + PauseBefore(batches, b, fast)
  }

  /** The state of the dispatch after the sub-batches before `b`, as
      `DispatchFrame` says; when the misses are `live`, every ticker
      dispatched so far was fetched live, in the order `dispatched`, each
      after the pause before its sub-batch and the throttle delay, stamped
      with its wake-up, and counted. */
  ghost predicate DispatchState(misses: seq<string>, batches: seq<seq<string>>, b: nat,
                                shuffle: (nat, seq<string>) -> seq<string>, source: nat -> Reply,
                                jitter: nat -> real, format: real -> string, fast: bool, ttl: real,
                                base: map<string, Quote>, live: bool,
                                cache0: map<string, CacheEntry>, lastScrape0: map<string, real>, stats0: Stats,
                                start: real, done: seq<string>, dispatched: seq<string>,
                                acc: map<string, Quote>, times: seq<real>,
                                cache: map<string, CacheEntry>, lastScrape: map<string, real>, stats: Stats, now: real) {
    && DispatchFrame(misses, batches, b, shuffle, fast, base, cache0, lastScrape0, stats0, start, done, dispatched,
                     acc, times, cache, lastScrape, stats, now)
    && (live ==> LiveOnly(misses, cache0, start, ttl))
    && (live ==>
          && Fetched(dispatched, 0, source, format, cache0, acc, cache, times)
          && Paced(dispatched, 0, source, jitter, fast, lastScrape0, stats0.lastRequestTime, start, times,
                   PausesBefore(batches, fast, b))
          && Stamped(dispatched, 0, source, times, lastScrape)
          && stats.lastRequestTime == LastRequest(source, 0, stats0.lastRequestTime, times)
          && stats.requestsMade == stats0.requestsMade + |done|
          && stats.successfulRequests == stats0.successfulRequests + Successes(source, 0, |done|))
  }

  /** What running sub-batch `b` from the state (acc, cacheMid,
      lastScrapeMid, statsMid, nowMid), with `first` tickers dispatched
      before it, leaves behind: it went out in its shuffled order `order`,
      each of its tickers has a quote and the other quotes are kept, only
      its cache entries and last-scrape times moved, at most one request per
      ticker was counted, the answers never went back in time and the clock
      stands at the last one plus the pause after the sub-batch; and, when
      it was live, each ticker was fetched, paced, stamped and counted
      exactly once. */
  ghost predicate SubBatchRun(batches: seq<seq<string>>, b: nat, shuffle: (nat, seq<string>) -> seq<string>,
                              source: nat -> Reply, jitter: nat -> real, format: real -> string, fast: bool,
                              ttl: real, first: nat,
                              acc: map<string, Quote>, cacheMid: map<string, CacheEntry>,
                              lastScrapeMid: map<string, real>, statsMid: Stats, nowMid: real,
                              order: seq<string>, batchTimes: seq<real>, acc': map<string, Quote>,
                              cache: map<string, CacheEntry>, lastScrape: map<string, real>, stats: Stats, now: real)
    requires b < |batches|
  {
    && order == shuffle(b, batches[b]) && multiset(order) == multiset(batches[b]) && |batchTimes| == |order|
    && (forall t :: t in acc' <==> t in acc || t in batches[b])
    && (forall t :: t in acc && t !in batches[b] ==> acc'[t] == acc[t])
    && SameOutside(cacheMid, cache, batches[b]) && cacheMid.Keys <= cache.Keys
    && SameOutside(lastScrapeMid, lastScrape, batches[b])
    && statsMid.requestsMade <= stats.requestsMade <= statsMid.requestsMade + |batches[b]|
    && SameTimings(statsMid, stats)
    && nowMid <= now
    && Ascending(batchTimes, nowMid)
    && now == LastOr(batchTimes, nowMid) + PauseLength(batches, batches[b], fast)
    && (LiveOnly(batches[b], cacheMid, nowMid, ttl) ==>
          && Fetched(order, first, source, format, cacheMid, acc', cache, batchTimes)
          && Paced(order, first, source, jitter, fast, lastScrapeMid, statsMid.lastRequestTime, nowMid, batchTimes,
                   Zeros(|order|))
          && Stamped(order, first, source, batchTimes, lastScrape)
          && stats.lastRequestTime == LastRequest(source, first, statsMid.lastRequestTime, batchTimes)
          && stats.requestsMade == statsMid.requestsMade + |batches[b]|
          && stats.successfulRequests == statsMid.successfulRequests + Successes(source, first, |batches[b]|))
  }

  /** The order and the clock part of `DispatchStep`: sub-batch `b` goes
      out after the ones before it, its answers come after theirs and after
      the pause before it, and the clock ends at its last answer plus the
      pause after it. */
  lemma DispatchClockStep(batches: seq<seq<string>>, b: nat, shuffle: (nat, seq<string>) -> seq<string>,
                          fast: bool, start: real, dispatched: seq<string>, times: seq<real>, nowMid: real,
                          order: seq<string>, batchTimes: seq<real>, now: real)
    requires b < |batches| && batches[b] != []
    requires dispatched == DispatchOrder(batches, shuffle, b) && |times| == |dispatched|
    requires |PausesBefore(batches, fast, b)| == |times|
    requires Ascending(times, start) && start <= nowMid
    requires nowMid == LastOr(times, start) + PauseBefore(batches, b, fast)
    requires order == shuffle(b, batches[b]) && |batchTimes| == |order| && |order| == |batches[b]|
    requires Ascending(batchTimes, nowMid) && now == LastOr(batchTimes, nowMid) + PauseLength(batches, batches[b], fast)
    ensures dispatched + order == DispatchOrder(batches, shuffle, b + 1)
    ensures |PausesBefore(batches, fast, b + 1)| == |times + batchTimes|
    ensures Ascending(times + batchTimes, start)
    ensures now == LastOr(times + batchTimes, start) + PauseBefore(batches, b + 1, fast)
  {
    assert PauseBefore(batches, b, fast) >= 0.0;
    AscendingConcat(times, batchTimes, start, nowMid);
    LastOrConcat(times, batchTimes, start, nowMid);
  }

  /** The frame part of `DispatchStep`. */
  lemma DispatchFrameStep(misses: seq<string>, batches: seq<seq<string>>, b: nat,
                          shuffle: (nat, seq<string>) -> seq<string>, source: nat -> Reply,
                          jitter: nat -> real, format: real -> string, fast: bool, ttl: real,
                          base: map<string, Quote>,
                          cache0: map<string, CacheEntry>, lastScrape0: map<string, real>, stats0: Stats,
                          start: real, done: seq<string>, dispatched: seq<string>,
                          acc: map<string, Quote>, times: seq<real>,
                          cacheMid: map<string, CacheEntry>, lastScrapeMid: map<string, real>, statsMid: Stats,
                          nowMid: real, order: seq<string>, batchTimes: seq<real>, acc': map<string, Quote>,
                          cache: map<string, CacheEntry>, lastScrape: map<string, real>, stats: Stats, now: real)
    requires b < |batches| && batches[b] != []
    requires DispatchFrame(misses, batches, b, shuffle, fast, base, cache0, lastScrape0, stats0, start, done,
                           dispatched, acc, times, cacheMid, lastScrapeMid, statsMid, nowMid)
    requires SubBatchRun(batches, b, shuffle, source, jitter, format, fast, ttl, |done|, acc, cacheMid,
                         lastScrapeMid, statsMid, nowMid, order, batchTimes, acc', cache, lastScrape, stats, now)
    ensures DispatchFrame(misses, batches, b + 1, shuffle, fast, base, cache0, lastScrape0, stats0, start,
                          done + batches[b], dispatched + order, acc', times + batchTimes, cache, lastScrape, stats, now)
  {
    SubBatchWithin(done, batches, b, misses);
    SameOutsideJoin(cache0, cacheMid, cache, done, batches[b]);
    SameOutsideJoin(lastScrape0, lastScrapeMid, lastScrape, done, batches[b]);
    SameElements(order, batches[b]);
    DispatchClockStep(batches, b, shuffle, fast, start, dispatched, times, nowMid, order, batchTimes, now);
  }

  /** The live fetches of a sub-batch, in its shuffled order, extend those
      of the sub-batches dispatched before it. */
  lemma SubBatchFetched(done: seq<string>, batch: seq<string>, dispatched: seq<string>, order: seq<string>,
                        source: nat -> Reply, format: real -> string,
                        cache0: map<string, CacheEntry>, cacheMid: map<string, CacheEntry>, cache: map<string, CacheEntry>,
                        acc: map<string, Quote>, acc': map<string, Quote>, times: seq<real>, batchTimes: seq<real>)
    requires multiset(dispatched) == multiset(done) && multiset(order) == multiset(batch)
    requires forall t :: t in done ==> t !in batch
    requires Fetched(dispatched, 0, source, format, cache0, acc, cacheMid, times)
    requires Fetched(order, |done|, source, format, cacheMid, acc', cache, batchTimes)
    requires SameOutside(cache0, cacheMid, done) && SameOutside(cacheMid, cache, batch)
    requires forall t :: t in acc' <==> t in acc || t in batch
    requires forall t :: t in acc && t !in batch ==> acc'[t] == acc[t]
    ensures Fetched(dispatched + order, 0, source, format, cache0, acc', cache, times + batchTimes)
  {
    SameElements(order, batch);
    SameElements(dispatched, done);
    FetchedConcat(dispatched, order, 0, source, format, cache0, cacheMid,
                  acc, cacheMid, times, acc', cache, batchTimes);
  }

  /** Before the first sub-batch nothing is dispatched and nothing changed. */
  lemma DispatchStart(misses: seq<string>, batches: seq<seq<string>>,
                      shuffle: (nat, seq<string>) -> seq<string>, source: nat -> Reply,
                      jitter: nat -> real, format: real -> string, fast: bool, ttl: real,
                      base: map<string, Quote>, live: bool,
                      cache0: map<string, CacheEntry>, lastScrape0: map<string, real>, stats0: Stats, start: real)
    requires Flatten(batches) == misses
    requires live ==> LiveOnly(misses, cache0, start, ttl)
    ensures DispatchState(misses, batches, 0, shuffle, source, jitter, format, fast, ttl, base, live, cache0,
                          lastScrape0, stats0, start, [], [], base, [], cache0, lastScrape0, stats0, start)
  {
    assert batches[0..] == batches;
    assert Fetched([], 0, source, format, cache0, base, cache0, []);
  }

  /** After the last sub-batch every miss was dispatched exactly once. */
  lemma DispatchDone(misses: seq<string>, batches: seq<seq<string>>,
                     shuffle: (nat, seq<string>) -> seq<string>, fast: bool, base: map<string, Quote>,
                     cache0: map<string, CacheEntry>, lastScrape0: map<string, real>, stats0: Stats,
                     start: real, done: seq<string>, dispatched: seq<string>,
                     acc: map<string, Quote>, times: seq<real>,
                     cache: map<string, CacheEntry>, lastScrape: map<string, real>, stats: Stats, now: real)
    requires DispatchFrame(misses, batches, |batches|, shuffle, fast, base, cache0, lastScrape0,
                           stats0, start, done, dispatched, acc, times, cache, lastScrape, stats, now)
    ensures done == misses
  {
    assert Flatten(batches[|batches|..]) == [];
  }

  /** What dispatching the misses leaves behind, given the state before it
      (cache0, lastScrape0, stats0, the clock now0) and after it: each miss
      has a quote and the other quotes are kept, only the misses' cache
      entries and last-scrape times moved, the misses went out in the order
      of the shuffled sub-batches, the answers never went back in time and
      the clock stands at the last one; and, when the misses were all live,
      each was fetched once, after the pause before its sub-batch and the
      throttle delay, stamped with its wake-up, and counted. */
  ghost predicate Dispatched(misses: seq<string>, batches: seq<seq<string>>, shuffle: (nat, seq<string>) -> seq<string>,
                             source: nat -> Reply, jitter: nat -> real, format: real -> string, fast: bool,
                             base: map<string, Quote>, live: bool,
                             cache0: map<string, CacheEntry>, lastScrape0: map<string, real>, stats0: Stats,
                             now0: real, dispatched: seq<string>, acc: map<string, Quote>, times: seq<real>,
                             cache: map<string, CacheEntry>, lastScrape: map<string, real>, stats: Stats, now: real)
  {
    && (forall t :: t in acc <==> t in base || t in misses)
    && (forall t :: t in base && t !in misses ==> acc[t] == base[t])
    && SameOutside(cache0, cache, misses) && cache0.Keys <= cache.Keys
    && SameOutside(lastScrape0, lastScrape, misses)
    && stats0.requestsMade <= stats.requestsMade <= stats0.requestsMade + |misses|
    && multiset(dispatched) == multiset(misses) && |times| == |dispatched|
    && dispatched == DispatchOrder(batches, shuffle, |batches|)
    && Ascending(times, now0) && now == LastOr(times, now0)
    && (live ==>
          && Fetched(dispatched, 0, source, format, cache0, acc, cache, times)
          && Paced(dispatched, 0, source, jitter, fast, lastScrape0, stats0.lastRequestTime, now0, times,
                   PausesBefore(batches, fast, |batches|))
          && Stamped(dispatched, 0, source, times, lastScrape)
          && stats.lastRequestTime == LastRequest(source, 0, stats0.lastRequestTime, times)
          && stats.requestsMade == stats0.requestsMade + |misses|
          && stats.successfulRequests == stats0.successfulRequests + Successes(source, 0, |misses|))
  }

  /** With no misses nothing is dispatched and nothing changes. */
  lemma DispatchNothing(misses: seq<string>, fast: bool, shuffle: (nat, seq<string>) -> seq<string>,
                        source: nat -> Reply, jitter: nat -> real, format: real -> string,
                        base: map<string, Quote>, live: bool,
                        cache: map<string, CacheEntry>, lastScrape: map<string, real>, stats: Stats, now: real)
    requires misses == []
    ensures Dispatched(misses, SubBatches(misses, fast), shuffle, source, jitter, format, fast, base, live,
                       cache, lastScrape, stats, now, [], base, [], cache, lastScrape, stats, now)
  {
  }

  /** Once every sub-batch is dispatched, the loop state gives the whole
      outcome of the dispatch. */
  lemma DispatchEnd(misses: seq<string>, batches: seq<seq<string>>,
                    shuffle: (nat, seq<string>) -> seq<string>, source: nat -> Reply,
                    jitter: nat -> real, format: real -> string, fast: bool, ttl: real,
                    base: map<string, Quote>, live: bool,
                    cache0: map<string, CacheEntry>, lastScrape0: map<string, real>, stats0: Stats,
                    start: real, done: seq<string>, dispatched: seq<string>,
                    acc: map<string, Quote>, times: seq<real>,
                    cache: map<string, CacheEntry>, lastScrape: map<string, real>, stats: Stats, now: real)
    requires DispatchState(misses, batches, |batches|, shuffle, source, jitter, format, fast, ttl, base, live,
                           cache0, lastScrape0, stats0, start, done, dispatched, acc, times,
                           cache, lastScrape, stats, now)
    ensures Dispatched(misses, batches, shuffle, source, jitter, format, fast, base, live, cache0, lastScrape0,
                       stats0, start, dispatched, acc, times, cache, lastScrape, stats, now)
    ensures SameTimings(stats0, stats)
  {
    DispatchDone(misses, batches, shuffle, fast, base, cache0, lastScrape0, stats0, start, done, dispatched,
                 acc, times, cache, lastScrape, stats, now);
    assert PauseBefore(batches, |batches|, fast) == 0.0;
  }

  /** Requests and successes counted over two consecutive runs of dispatch
      positions add up. */
  lemma CountsAdd(source: nat -> Reply, m: nat, n: nat, stats0: Stats, statsMid: Stats, stats: Stats)
    requires statsMid.requestsMade == stats0.requestsMade + m
    requires statsMid.successfulRequests == stats0.successfulRequests + Successes(source, 0, m)
    requires stats.requestsMade == statsMid.requestsMade + n
    requires stats.successfulRequests == statsMid.successfulRequests + Successes(source, m, n)
    ensures stats.requestsMade == stats0.requestsMade + (m + n)
    ensures stats.successfulRequests == stats0.successfulRequests + Successes(source, 0, m + n)
  {
    SuccessesSplit(source, 0, m, n);
  }

  /** The live part of `DispatchStep` for fetches and counts: when the
      misses are live, so is the next sub-batch, none of its tickers was
      dispatched before, and its live fetches and counts extend those before
      it. */
  lemma DispatchLiveStep(misses: seq<string>, batches: seq<seq<string>>, b: nat, source: nat -> Reply,
                         format: real -> string, ttl: real,
                         cache0: map<string, CacheEntry>, stats0: Stats, start: real,
                         done: seq<string>, dispatched: seq<string>, acc: map<string, Quote>, times: seq<real>,
                         cacheMid: map<string, CacheEntry>, statsMid: Stats, nowMid: real,
                         order: seq<string>, batchTimes: seq<real>, acc': map<string, Quote>,
                         cache: map<string, CacheEntry>, stats: Stats)
    requires b < |batches| && done + Flatten(batches[b..]) == misses
    requires LiveOnly(misses, cache0, start, ttl) && start <= nowMid
    requires multiset(dispatched) == multiset(done) && multiset(order) == multiset(batches[b])
    requires SameOutside(cache0, cacheMid, done) && SameOutside(cacheMid, cache, batches[b])
    requires Fetched(dispatched, 0, source, format, cache0, acc, cacheMid, times)
    requires statsMid.requestsMade == stats0.requestsMade + |done|
    requires statsMid.successfulRequests == stats0.successfulRequests + Successes(source, 0, |done|)
    requires forall t :: t in acc' <==> t in acc || t in batches[b]
    requires forall t :: t in acc && t !in batches[b] ==> acc'[t] == acc[t]
    requires LiveOnly(batches[b], cacheMid, nowMid, ttl) ==>
      && Fetched(order, |done|, source, format, cacheMid, acc', cache, batchTimes)
      && stats.requestsMade == statsMid.requestsMade + |batches[b]|
      && stats.successfulRequests == statsMid.successfulRequests + Successes(source, |done|, |batches[b]|)
    ensures LiveOnly(batches[b], cacheMid, nowMid, ttl)
    ensures forall t :: t in done ==> t !in batches[b]
    ensures Fetched(dispatched + order, 0, source, format, cache0, acc', cache, times + batchTimes)
    ensures stats.requestsMade == stats0.requestsMade + |done + batches[b]|
    ensures stats.successfulRequests == stats0.successfulRequests + Successes(source, 0, |done + batches[b]|)
  {
    SubBatchWithin(done, batches, b, misses);
    DistinctSplit(done, batches[b], Flatten(batches[b + 1..]));
    SubBatchLive(done, batches[b], cache0, cacheMid, start, nowMid, ttl);
    SubBatchFetched(done, batches[b], dispatched, order, source, format, cache0, cacheMid, cache,
                    acc, acc', times, batchTimes);
    CountsAdd(source, |done|, |batches[b]|, stats0, statsMid, stats);
  }

  /** The pacing part of `DispatchStep`: a live sub-batch, paced from the
      pause before it on, extends the pacing of the sub-batches before it. */
  lemma DispatchPaceStep(batches: seq<seq<string>>, b: nat, source: nat -> Reply, jitter: nat -> real, fast: bool,
                         lastScrape0: map<string, real>, stats0: Stats, start: real,
                         done: seq<string>, dispatched: seq<string>, times: seq<real>,
                         lastScrapeMid: map<string, real>, statsMid: Stats, nowMid: real,
                         order: seq<string>, batchTimes: seq<real>)
    requires b < |batches| && forall t :: t in done ==> t !in batches[b]
    requires multiset(dispatched) == multiset(done) && multiset(order) == multiset(batches[b])
    requires |times| == |dispatched| && |PausesBefore(batches, fast, b)| == |times| && |batchTimes| == |order|
    requires SameOutside(lastScrape0, lastScrapeMid, done)
    requires nowMid == LastOr(times, start) + PauseBefore(batches, b, fast)
    requires Paced(dispatched, 0, source, jitter, fast, lastScrape0, stats0.lastRequestTime, start, times,
                   PausesBefore(batches, fast, b))
    requires statsMid.lastRequestTime == LastRequest(source, 0, stats0.lastRequestTime, times)
    requires Paced(order, |done|, source, jitter, fast, lastScrapeMid, statsMid.lastRequestTime, nowMid, batchTimes,
                   Zeros(|order|))
    ensures Paced(dispatched + order, 0, source, jitter, fast, lastScrape0, stats0.lastRequestTime, start,
                  times + batchTimes, PausesBefore(batches, fast, b + 1))
  {
    SameElements(order, batches[b]);
    SameElements(dispatched, done);
    forall t | t in order ensures LastFetched(lastScrapeMid, t) == LastFetched(lastScrape0, t) {
      assert t !in done;
    }
    PacedConcat(dispatched, order, source, jitter, fast, lastScrape0, lastScrapeMid, stats0.lastRequestTime, start,
                times, PausesBefore(batches, fast, b), PauseBefore(batches, b, fast), batchTimes);
  }

  /** The stamping part of `DispatchStep`: a live sub-batch extends the
      last-scrape stamps and the last request of the sub-batches before it. */
  lemma DispatchStampStep(batch: seq<string>, source: nat -> Reply, stats0: Stats,
                          done: seq<string>, dispatched: seq<string>, times: seq<real>,
                          lastScrapeMid: map<string, real>, statsMid: Stats,
                          order: seq<string>, batchTimes: seq<real>, lastScrape: map<string, real>, stats: Stats)
    requires forall t :: t in done ==> t !in batch
    requires multiset(dispatched) == multiset(done)
    requires |times| == |dispatched| && |batchTimes| == |order|
    requires SameOutside(lastScrapeMid, lastScrape, batch)
    requires Stamped(dispatched, 0, source, times, lastScrapeMid)
    requires statsMid.lastRequestTime == LastRequest(source, 0, stats0.lastRequestTime, times)
    requires Stamped(order, |done|, source, batchTimes, lastScrape)
    requires stats.lastRequestTime == LastRequest(source, |done|, statsMid.lastRequestTime, batchTimes)
    ensures Stamped(dispatched + order, 0, source, times + batchTimes, lastScrape)
    ensures stats.lastRequestTime == LastRequest(source, 0, stats0.lastRequestTime, times + batchTimes)
  {
    SameElements(dispatched, done);
    StampedConcat(dispatched, order, source, times, batchTimes, batch, lastScrapeMid, lastScrape);
    LastRequestConcat(source, stats0.lastRequestTime, times, batchTimes);
  }

  /** Splits the loop state of the dispatch into its frame part and the
      liveness of the misses. */
  lemma DispatchStateElim(misses: seq<string>, batches: seq<seq<string>>, b: nat,
                          shuffle: (nat, seq<string>) -> seq<string>, source: nat -> Reply,
                          jitter: nat -> real, format: real -> string, fast: bool, ttl: real,
                          base: map<string, Quote>, live: bool,
                          cache0: map<string, CacheEntry>, lastScrape0: map<string, real>, stats0: Stats,
                          start: real, done: seq<string>, dispatched: seq<string>,
                          acc: map<string, Quote>, times: seq<real>,
                          cache: map<string, CacheEntry>, lastScrape: map<string, real>, stats: Stats, now: real)
    requires DispatchState(misses, batches, b, shuffle, source, jitter, format, fast, ttl, base, live,
                           cache0, lastScrape0, stats0, start, done, dispatched, acc, times,
                           cache, lastScrape, stats, now)
    ensures DispatchFrame(misses, batches, b, shuffle, fast, base, cache0, lastScrape0, stats0, start, done,
                          dispatched, acc, times, cache, lastScrape, stats, now)
    ensures live ==> LiveOnly(misses, cache0, start, ttl)
  {
  }

  /** Assembles the loop state of the dispatch from its frame part and
      its live part. */
  lemma DispatchStateIntro(misses: seq<string>, batches: seq<seq<string>>, b: nat,
                           shuffle: (nat, seq<string>) -> seq<string>, source: nat -> Reply,
                           jitter: nat -> real, format: real -> string, fast: bool, ttl: real,
                           base: map<string, Quote>, live: bool,
                           cache0: map<string, CacheEntry>, lastScrape0: map<string, real>, stats0: Stats,
                           start: real, done: seq<string>, dispatched: seq<string>,
                           acc: map<string, Quote>, times: seq<real>,
                           cache: map<string, CacheEntry>, lastScrape: map<string, real>, stats: Stats, now: real)
    requires b <= |batches|
    requires DispatchFrame(misses, batches, b, shuffle, fast, base, cache0, lastScrape0, stats0, start, done,
                           dispatched, acc, times, cache, lastScrape, stats, now)
    requires live ==> LiveOnly(misses, cache0, start, ttl)
    requires live ==> Fetched(dispatched, 0, source, format, cache0, acc, cache, times)
    requires live ==> Paced(dispatched, 0, source, jitter, fast, lastScrape0, stats0.lastRequestTime, start, times,
                            PausesBefore(batches, fast, b))
    requires live ==> Stamped(dispatched, 0, source, times, lastScrape)
    requires live ==> stats.lastRequestTime == LastRequest(source, 0, stats0.lastRequestTime, times)
    requires live ==> stats.requestsMade == stats0.requestsMade + |done|
    requires live ==> stats.successfulRequests == stats0.successfulRequests + Successes(source, 0, |done|)
    ensures DispatchState(misses, batches, b, shuffle, source, jitter, format, fast, ttl, base, live,
                          cache0, lastScrape0, stats0, start, done, dispatched, acc, times,
                          cache, lastScrape, stats, now)
  {
  }

  /** Running the next sub-batch moves the dispatch state on by one
      sub-batch: when the misses are live, so is the sub-batch, and its live
      fetches extend those before it. */
  lemma DispatchStep(misses: seq<string>, batches: seq<seq<string>>, b: nat,
                     shuffle: (nat, seq<string>) -> seq<string>, source: nat -> Reply,
                     jitter: nat -> real, format: real -> string, fast: bool, ttl: real,
                     base: map<string, Quote>, live: bool,
                     cache0: map<string, CacheEntry>, lastScrape0: map<string, real>, stats0: Stats,
                     start: real, done: seq<string>, dispatched: seq<string>,
                     acc: map<string, Quote>, times: seq<real>,
                     cacheMid: map<string, CacheEntry>, lastScrapeMid: map<string, real>, statsMid: Stats,
                     nowMid: real, order: seq<string>, batchTimes: seq<real>, acc': map<string, Quote>,
                     cache: map<string, CacheEntry>, lastScrape: map<string, real>, stats: Stats, now: real)
    requires b < |batches| && batches[b] != []
    requires DispatchState(misses, batches, b, shuffle, source, jitter, format, fast, ttl, base, live,
                           cache0, lastScrape0, stats0, start, done, dispatched, acc, times,
                           cacheMid, lastScrapeMid, statsMid, nowMid)
    requires SubBatchRun(batches, b, shuffle, source, jitter, format, fast, ttl, |done|, acc, cacheMid,
                         lastScrapeMid, statsMid, nowMid, order, batchTimes, acc', cache, lastScrape, stats, now)
    ensures DispatchState(misses, batches, b + 1, shuffle, source, jitter, format, fast, ttl, base, live,
                          cache0, lastScrape0, stats0, start, done + batches[b], dispatched + order, acc',
                          times + batchTimes, cache, lastScrape, stats, now)
  {
    DispatchStateElim(misses, batches, b, shuffle, source, jitter, format, fast, ttl, base, live,
                      cache0, lastScrape0, stats0, start, done, dispatched, acc, times,
                      cacheMid, lastScrapeMid, statsMid, nowMid);
    DispatchFrameStep(misses, batches, b, shuffle, source, jitter, format, fast, ttl, base,
                      cache0, lastScrape0, stats0, start, done, dispatched, acc, times,
                      cacheMid, lastScrapeMid, statsMid, nowMid, order, batchTimes, acc', cache, lastScrape, stats, now);
    if live {
      DispatchLiveStep(misses, batches, b, source, format, ttl, cache0, stats0, start, done, dispatched, acc, times,
                       cacheMid, statsMid, nowMid, order, batchTimes, acc', cache, stats);
      DispatchPaceStep(batches, b, source, jitter, fast, lastScrape0, stats0, start, done, dispatched, times,
                       lastScrapeMid, statsMid, nowMid, order, batchTimes);
      DispatchStampStep(batches[b], source, stats0, done, dispatched, times, lastScrapeMid, statsMid,
                        order, batchTimes, lastScrape, stats);
    }
    DispatchStateIntro(misses, batches, b + 1, shuffle, source, jitter, format, fast, ttl, base, live,
                       cache0, lastScrape0, stats0, start, done + batches[b], dispatched + order, acc',
                       times + batchTimes, cache, lastScrape, stats, now);
  }

  /** Two paced runs, the second started from the last answer of the first
      plus a pause `p`, with the last-request time the first left and with
      last-scrape times that agree with the first's on its own tickers, make
      one paced run whose pauses are the first's followed by `p` before the
      second's first fetch. */
  lemma PacedConcat(a: seq<string>, b: seq<string>, source: nat -> Reply, jitter: nat -> real, fast: bool,
                    lastScrape0: map<string, real>, lastScrapeMid: map<string, real>, lastRequest0: real,
                    start: real, t1: seq<real>, g1: seq<real>, p: real, t2: seq<real>)
    requires |t1| == |a| == |g1| && |t2| == |b|
    requires Paced(a, 0, source, jitter, fast, lastScrape0, lastRequest0, start, t1, g1)
    requires Paced(b, |a|, source, jitter, fast, lastScrapeMid, LastRequest(source, 0, lastRequest0, t1),
                   LastOr(t1, start) + p, t2, Zeros(|b|))
    requires forall t :: t in b ==> LastFetched(lastScrapeMid, t) == LastFetched(lastScrape0, t)
    ensures Paced(a + b, 0, source, jitter, fast, lastScrape0, lastRequest0, start, t1 + t2,
                  g1 + LeadingPause(p, |b|))
  {
    PacedConcatFront(a, b, source, jitter, fast, lastScrape0, lastRequest0, start, t1, g1, t2, LeadingPause(p, |b|));
    PacedConcatBack(a, b, source, jitter, fast, lastScrape0, lastScrapeMid, lastRequest0, start, t1, g1, p, t2);
  }

  /** The positions of the first run keep their pacing in the joined run. */
  lemma PacedConcatFront(a: seq<string>, b: seq<string>, source: nat -> Reply, jitter: nat -> real, fast: bool,
                         lastScrape0: map<string, real>, lastRequest0: real, start: real,
                         t1: seq<real>, g1: seq<real>, t2: seq<real>, g2: seq<real>)
    requires Paced(a, 0, source, jitter, fast, lastScrape0, lastRequest0, start, t1, g1)
    ensures forall j: nat :: j < |t1| ==>
      PacedAt(a + b, 0, source, jitter, fast, lastScrape0, lastRequest0, start, t1 + t2, g1 + g2, j)
  {
    forall j: nat | j < |t1|
      ensures PacedAt(a + b, 0, source, jitter, fast, lastScrape0, lastRequest0, start, t1 + t2, g1 + g2, j)
    {
      assert PacedAt(a, 0, source, jitter, fast, lastScrape0, lastRequest0, start, t1, g1, j);
      PacedPrefix(a, b, source, jitter, fast, lastScrape0, lastRequest0, start, t1, g1, t2, g2, j);
    }
  }

  /** The positions of the second run, shifted past the first, keep their
      pacing in the joined run. */
  lemma PacedConcatBack(a: seq<string>, b: seq<string>, source: nat -> Reply, jitter: nat -> real, fast: bool,
                        lastScrape0: map<string, real>, lastScrapeMid: map<string, real>, lastRequest0: real,
                        start: real, t1: seq<real>, g1: seq<real>, p: real, t2: seq<real>)
    requires |t1| == |a| == |g1| && |t2| == |b|
    requires Paced(b, |a|, source, jitter, fast, lastScrapeMid, LastRequest(source, 0, lastRequest0, t1),
                   LastOr(t1, start) + p, t2, Zeros(|b|))
    requires forall t :: t in b ==> LastFetched(lastScrapeMid, t) == LastFetched(lastScrape0, t)
    ensures forall j: nat :: |t1| <= j < |t1| + |t2| ==>
      PacedAt(a + b, 0, source, jitter, fast, lastScrape0, lastRequest0, start, t1 + t2,
              g1 + LeadingPause(p, |b|), j)
  {
    forall j: nat | |t1| <= j < |t1| + |t2|
      ensures PacedAt(a + b, 0, source, jitter, fast, lastScrape0, lastRequest0, start, t1 + t2,
                      g1 + LeadingPause(p, |b|), j)
    {
      var k := j - |t1|;
      assert b[k] in b;
      PacedSuffix(a, b, source, jitter, fast, lastScrape0, lastScrapeMid, lastRequest0, start, t1, g1, p, t2, k);
    }
  }

  /** A fetch paced in a run stays paced when another run follows it. */
  lemma PacedPrefix(a: seq<string>, b: seq<string>, source: nat -> Reply, jitter: nat -> real, fast: bool,
                    lastScrape0: map<string, real>, lastRequest0: real, start: real,
                    t1: seq<real>, g1: seq<real>, t2: seq<real>, g2: seq<real>, j: nat)
    requires PacedAt(a, 0, source, jitter, fast, lastScrape0, lastRequest0, start, t1, g1, j)
    ensures PacedAt(a + b, 0, source, jitter, fast, lastScrape0, lastRequest0, start, t1 + t2, g1 + g2, j)
  {
    PrefixPosition(a, b, source, t1, t2, g1, g2, j);
  }

  /** Position `j` of a run followed by another sees the same history as
      in the run alone. */
  lemma PrefixPosition<T>(a: seq<T>, b: seq<T>, source: nat -> Reply, t1: seq<real>, t2: seq<real>,
                          g1: seq<real>, g2: seq<real>, j: nat)
    requires j < |t1| && j < |a| && j < |g1|
    ensures (t1 + t2)[..j] == t1[..j] && (a + b)[j] == a[j] && (g1 + g2)[j] == g1[j]
    ensures Wake(source, 0, t1 + t2, j) == Wake(source, 0, t1, j)
  {
    assert (t1 + t2)[..j] == t1[..j];
  }

  /** A fetch paced in a run that follows another, from the first's last
      answer plus a pause `p` on, is paced in the two runs together. */
  lemma PacedSuffix(a: seq<string>, b: seq<string>, source: nat -> Reply, jitter: nat -> real, fast: bool,
                    lastScrape0: map<string, real>, lastScrapeMid: map<string, real>, lastRequest0: real,
                    start: real, t1: seq<real>, g1: seq<real>, p: real, t2: seq<real>, k: nat)
    requires |t1| == |a| == |g1| && |t2| == |b| && k < |b|
    requires Paced(b, |a|, source, jitter, fast, lastScrapeMid, LastRequest(source, 0, lastRequest0, t1),
                   LastOr(t1, start) + p, t2, Zeros(|b|))
    requires LastFetched(lastScrapeMid, b[k]) == LastFetched(lastScrape0, b[k])
    ensures PacedAt(a + b, 0, source, jitter, fast, lastScrape0, lastRequest0, start, t1 + t2,
                    g1 + LeadingPause(p, |b|), |t1| + k)
  {
    SuffixPosition(a, b, source, lastRequest0, start, t1, g1, p, t2, k);
    PacedAtMoved(b, |a|, source, jitter, fast, lastScrapeMid, LastRequest(source, 0, lastRequest0, t1),
                 LastOr(t1, start) + p, t2, Zeros(|b|), k,
                 a + b, 0, lastScrape0, lastRequest0, start, t1 + t2, g1 + LeadingPause(p, |b|), |t1| + k);
  }

  /** The fetch at position `j` of a paced run is paced at position `j'` of
      another run that gives it the same dispatch position, ticker history,
      ready time, last request and wake-up. */
  lemma PacedAtMoved(order: seq<string>, first: nat, source: nat -> Reply, jitter: nat -> real, fast: bool,
                     lastScrape0: map<string, real>, lastRequest0: real, start: real,
                     times: seq<real>, gaps: seq<real>, j: nat,
                     order': seq<string>, first': nat, lastScrape0': map<string, real>, lastRequest0': real,
                     start': real, times': seq<real>, gaps': seq<real>, j': nat)
    requires Paced(order, first, source, jitter, fast, lastScrape0, lastRequest0, start, times, gaps)
    requires j < |times| && j < |order| && j < |gaps|
    requires j' < |times'| && j' < |order'| && j' < |gaps'| && first' + j' == first + j
    requires LastFetched(lastScrape0', order'[j']) == LastFetched(lastScrape0, order[j])
    requires LastOr(times'[..j'], start') + gaps'[j'] == LastOr(times[..j], start) + gaps[j]
    requires LastRequest(source, first', lastRequest0', times'[..j'])
          == LastRequest(source, first, lastRequest0, times[..j])
    requires Wake(source, first', times', j') == Wake(source, first, times, j)
    ensures PacedAt(order', first', source, jitter, fast, lastScrape0', lastRequest0', start', times', gaps', j')
  {
    assert PacedAt(order, first, source, jitter, fast, lastScrape0, lastRequest0, start, times, gaps, j);
  }

  /** Position `k` of a run that follows another, from the first's last
      answer plus a pause `p` on, sees in the two runs together the same
      ready time, last request and wake-up as in its own run. */
  lemma SuffixPosition(a: seq<string>, b: seq<string>, source: nat -> Reply, lastRequest0: real, start: real,
                       t1: seq<real>, g1: seq<real>, p: real, t2: seq<real>, k: nat)
    requires |t1| == |a| == |g1| && |t2| == |b| && k < |b|
    ensures (a + b)[|t1| + k] == b[k] && |t1| + k < |t1 + t2|
    ensures LastOr((t1 + t2)[..|t1| + k], start) + (g1 + LeadingPause(p, |b|))[|t1| + k]
         == LastOr(t2[..k], LastOr(t1, start) + p) + Zeros(|b|)[k]
    ensures LastRequest(source, 0, lastRequest0, (t1 + t2)[..|t1| + k])
         == LastRequest(source, |a|, LastRequest(source, 0, lastRequest0, t1), t2[..k])
    ensures Wake(source, 0, t1 + t2, |t1| + k) == Wake(source, |a|, t2, k)
  {
    var j, ts, gs := |t1| + k, t1 + t2, g1 + LeadingPause(p, |b|);
    assert ts[..j] == t1 + t2[..k];
    LastRequestConcat(source, lastRequest0, t1, t2[..k]);
    if k == 0 {
      assert ts[..j] == t1;
    } else {
      assert gs[j] == LeadingPause(p, |b|)[k] == 0.0;
      assert ts[j - 1] == t2[k - 1];
    }
  }

  /** Stamps of two runs, the second changing last-scrape times only for
      `keys`, which the first does not touch, combine. */
  lemma StampedConcat(a: seq<string>, b: seq<string>, source: nat -> Reply, t1: seq<real>, t2: seq<real>,
                      keys: seq<string>, lastScrapeMid: map<string, real>, lastScrape: map<string, real>)
    requires |t1| == |a| && |t2| == |b|
    requires Stamped(a, 0, source, t1, lastScrapeMid) && Stamped(b, |a|, source, t2, lastScrape)
    requires SameOutside(lastScrapeMid, lastScrape, keys) && forall t :: t in a ==> t !in keys
    ensures Stamped(a + b, 0, source, t1 + t2, lastScrape)
  {
    var s, ts := a + b, t1 + t2;
    forall j: nat | j < |ts| && j < |s|
      ensures s[j] in lastScrape && lastScrape[s[j]] == Wake(source, 0, ts, j)
    {
      if j < |a| {
        assert s[j] == a[j] && ts[j] == t1[j] && a[j] in a;
      } else {
        assert s[j] == b[j - |a|] && ts[j] == t2[j - |a|];
      }
    }
  }

  /** The last request after two consecutive runs is the second's, begun
      from the first's. */
  lemma LastRequestConcat(source: nat -> Reply, lastRequest0: real, t1: seq<real>, t2: seq<real>)
    ensures LastRequest(source, 0, lastRequest0, t1 + t2)
         == LastRequest(source, |t1|, LastRequest(source, 0, lastRequest0, t1), t2)
  {
    if t2 == [] {
      assert t1 + t2 == t1;
    } else {
      assert (t1 + t2)[|t1 + t2| - 1] == t2[|t2| - 1];
    }
  }

  /** Two runs of answers in order, the second starting no earlier than the
      end of the first, are in order together. */
  lemma AscendingConcat(t1: seq<real>, t2: seq<real>, start: real, mid: real)
    requires Ascending(t1, start) && Ascending(t2, mid)
    requires start <= mid && LastOr(t1, start) <= mid
    ensures Ascending(t1 + t2, start)
  {
    var ts := t1 + t2;
    forall j | 0 < j < |ts| ensures ts[j - 1] <= ts[j] {
      if j < |t1| {
        assert ts[j - 1] == t1[j - 1] && ts[j] == t1[j];
      } else if j == |t1| {
        assert ts[j - 1] == t1[j - 1] && ts[j] == t2[0];
      } else {
        assert ts[j - 1] == t2[j - 1 - |t1|] && ts[j] == t2[j - |t1|];
      }
    }
  }

  /** After a non-empty second run, the last of both is the second's last. */
  lemma LastOrConcat(t1: seq<real>, t2: seq<real>, start: real, mid: real)
    requires t2 != []
    ensures LastOr(t1 + t2, start) == LastOr(t2, mid)
  {
    assert (t1 + t2)[|t1 + t2| - 1] == t2[|t2| - 1];
  }

  /** Agreement outside two key lists in turn is agreement outside both. */
  lemma SameOutsideJoin<V>(m0: map<string, V>, m1: map<string, V>, m2: map<string, V>,
                           a: seq<string>, b: seq<string>)
    requires SameOutside(m0, m1, a) && SameOutside(m1, m2, b)
    ensures SameOutside(m0, m2, a + b)
  {
  }

  /** A run stays paced when one more fetch sleeps the throttle delay from
      its ready time on. */
  lemma PacedStep(order: seq<string>, first: nat, source: nat -> Reply, jitter: nat -> real, fast: bool,
                  lastScrape0: map<string, real>, lastRequest0: real, start: real,
                  times: seq<real>, gaps: seq<real>, t: real)
    requires Paced(order, first, source, jitter, fast, lastScrape0, lastRequest0, start, times, gaps)
    requires |times| < |order| && |times| < |gaps| && JitterInRange(fast, jitter(first + |times|))
    requires t - source(first + |times|).duration
          == (LastOr(times, start) + gaps[|times|])
           + ThrottleWait(fast, LastFetched(lastScrape0, order[|times|]), LastRequest(source, first, lastRequest0, times),
                          LastOr(times, start) + gaps[|times|], jitter(first + |times|))
    ensures Paced(order, first, source, jitter, fast, lastScrape0, lastRequest0, start, times + [t], gaps)
  {
    forall j: nat | j < |times| + 1
      ensures PacedAt(order, first, source, jitter, fast, lastScrape0, lastRequest0, start, times + [t], gaps, j)
    {
      if j < |times| {
        PacedLonger(order, first, source, jitter, fast, lastScrape0, lastRequest0, start, times, gaps, [t], j);
      } else {
        ExtendPosition(source, first, times, [t], j);
      }
    }
  }

  /** A fetch paced in a run stays paced when more answers follow. */
  lemma PacedLonger(order: seq<string>, first: nat, source: nat -> Reply, jitter: nat -> real, fast: bool,
                    lastScrape0: map<string, real>, lastRequest0: real, start: real,
                    times: seq<real>, gaps: seq<real>, more: seq<real>, j: nat)
    requires PacedAt(order, first, source, jitter, fast, lastScrape0, lastRequest0, start, times, gaps, j)
    ensures PacedAt(order, first, source, jitter, fast, lastScrape0, lastRequest0, start, times + more, gaps, j)
  {
    ExtendPosition(source, first, times, more, j);
  }

  /** Position `j` of a run sees the same history and wake-up when more
      answers follow. */
  lemma ExtendPosition(source: nat -> Reply, first: nat, times: seq<real>, more: seq<real>, j: nat)
    requires j < |times| + |more|
    ensures j <= |times| ==> (times + more)[..j] == times[..j]
    ensures j < |times| ==> Wake(source, first, times + more, j) == Wake(source, first, times, j)
    ensures j == |times| ==> (times + more)[..j] == times && (times + more)[j] == more[0]
  {
    if j <= |times| {
      assert (times + more)[..j] == times[..j];
    }
    if j == |times| {
      assert times[..j] == times;
    }
  }

  /** A run stays stamped when one more ticker, not stamped before in it, is
      stamped with its fetch's wake-up. */
  lemma StampedStep(order: seq<string>, first: nat, source: nat -> Reply, times: seq<real>,
                    lastScrape0: map<string, real>, t: real, lastScrape: map<string, real>)
    requires Stamped(order, first, source, times, lastScrape0)
    requires |times| < |order| && order[|times|] !in order[..|times|]
    requires lastScrape == lastScrape0[order[|times|] := t - source(first + |times|).duration]
    ensures Stamped(order, first, source, times + [t], lastScrape)
  {
    var ts := times + [t];
    forall j: nat | j < |ts| && j < |order|
      ensures order[j] in lastScrape && lastScrape[order[j]] == Wake(source, first, ts, j)
    {
      if j < |times| {
        assert order[j] in order[..|times|];
        assert ts[j] == times[j];
      }
    }
  }

  /** Answer times stay in order when the next one is no earlier than the last. */
  lemma AscendingStep(times: seq<real>, start: real, t: real)
    requires Ascending(times, start) && start <= t && LastOr(times, start) <= t
    ensures Ascending(times + [t], start)
  {
  }

  /** The misses are drawn from the input tickers, each at most as often. */
  lemma {:induction false} StaleWithin(tickers: seq<string>, cache: map<string, CacheEntry>, now: real, ttl: real)
    ensures multiset(StaleTickers(tickers, cache, now, ttl)) <= multiset(tickers)
    decreases |tickers|
  {
    if tickers != [] {
      var init, last := tickers[..|tickers| - 1], tickers[|tickers| - 1];
      StaleWithin(init, cache, now, ttl);
      assert tickers == init + [last];
      SubMultisetAppend(StaleTickers(init, cache, now, ttl), init, last, !FreshIn(cache, last, now, ttl));
    }
  }

  /** Appending the same element on both sides, or only on the larger side,
      keeps one multiset inside the other. */
  lemma SubMultisetAppend<T>(a: seq<T>, b: seq<T>, x: T, keep: bool)
    requires multiset(a) <= multiset(b)
    ensures multiset(a + (if keep then [x] else [])) <= multiset(b + [x])
  {
    assert multiset(b + [x]) == multiset(b) + multiset{x};
  }

  /** Misses without repeats are none of them fresh, so each is fetched
      live exactly once. */
  lemma MissesAreLive(tickers: seq<string>, cache: map<string, CacheEntry>, now: real, ttl: real)
    requires NoDuplicates(StaleTickers(tickers, cache, now, ttl))
    ensures LiveOnly(StaleTickers(tickers, cache, now, ttl), cache, now, ttl)
  {
    PartitionMembers(tickers, cache, now, ttl);
  }

  /** The next sub-batch of live misses is live too: its tickers are
      outside those already done, so their entries are as they were, and
      the clock has only moved on. */
  lemma SubBatchLive(done: seq<string>, batch: seq<string>, cache0: map<string, CacheEntry>,
                     cache: map<string, CacheEntry>, now0: real, now: real, ttl: real)
    requires NoDuplicates(batch) && forall t :: t in done ==> t !in batch
    requires forall t :: t in batch ==> !FreshIn(cache0, t, now0, ttl)
    requires SameOutside(cache0, cache, done) && now0 <= now
    ensures LiveOnly(batch, cache, now, ttl)
  {
  }

  /** What serving a batch that did not raise leaves behind, given the
      state before it (cache0, lastScrape0, stats0, the clock now0) and after
      it: every requested ticker has a quote, fresh hits come straight from
      the cache, only the misses' cache entries and last-scrape times may
      change, the misses are dispatched in the order of the shuffled
      sub-batches, the answers never go back in time and the clock stands at
      the last one; and, when no miss repeats, each miss was fetched once,
      after the pause before its sub-batch and the throttle delay, stamped
      with its wake-up, and counted. */
  ghost predicate Served(tickers: seq<string>, fast: bool, source: nat -> Reply, jitter: nat -> real,
                         format: real -> string, shuffle: (nat, seq<string>) -> seq<string>, ttl: real,
                         cache0: map<string, CacheEntry>, lastScrape0: map<string, real>, stats0: Stats,
                         now0: real, quotes: map<string, Quote>, dispatched: seq<string>, times: seq<real>,
                         cache: map<string, CacheEntry>, lastScrape: map<string, real>, stats: Stats, now: real)
  {
    var hits := FreshTickers(tickers, cache0, now0, ttl);
    var misses := StaleTickers(tickers, cache0, now0, ttl);
    var batches := SubBatches(misses, fast);
    && (forall t :: t in quotes <==> t in tickers)
    && (forall t :: t in hits ==> t in cache0 && t in quotes && quotes[t] == cache0[t].data)
    && stats0.requestsMade <= stats.requestsMade <= stats0.requestsMade + |misses|
    && SameOutside(cache0, cache, misses) && cache0.Keys <= cache.Keys
    && SameOutside(lastScrape0, lastScrape, misses)
    && multiset(dispatched) == multiset(misses) && |times| == |dispatched|
    && dispatched == DispatchOrder(batches, shuffle, |batches|)
    && Ascending(times, now0) && now == LastOr(times, now0)
    && (NoDuplicates(misses) ==>
          && Fetched(dispatched, 0, source, format, cache0, quotes, cache, times)
          && Paced(dispatched, 0, source, jitter, fast, lastScrape0, stats0.lastRequestTime, now0, times,
                   PausesBefore(batches, fast, |batches|))
          && Stamped(dispatched, 0, source, times, lastScrape)
          && stats.lastRequestTime == LastRequest(source, 0, stats0.lastRequestTime, times)
          && stats.requestsMade == stats0.requestsMade + |misses|
          && stats.successfulRequests == stats0.successfulRequests + Successes(source, 0, |misses|))
  }

  class ThreadedScraper {
    var maxWorkers: int
    var stats: Stats
    var cache: map<string, CacheEntry>
    var cacheTtl: real
    var lastScrapeTime: map<string, real>

    /** Every fetch is counted as exactly one success or one failure, the batch
        timings are durations, and the cache holds only records with a price. */
    ghost predicate Valid()
      reads this
    {
      && stats.successfulRequests + stats.failedRequests == stats.requestsMade
      && stats.totalTime >= 0.0 && stats.lastBatchTime >= 0.0
      && forall t :: t in cache ==> HasPrice(cache[t].data)
    }

    /** `max_workers` falls back to 6 when it is missing or zero. */
    constructor (maxWorkersArg: Option<int>, ttl: real)
      ensures Valid()
      ensures maxWorkers == if maxWorkersArg.None? || maxWorkersArg.value == 0 then DefaultMaxWorkers else maxWorkersArg.value
      ensures cacheTtl == ttl && cache == map[] && lastScrapeTime == map[]
      ensures stats == Stats(0, 0, 0, 0.0, 0.0, 0, 0.0)
    {
      maxWorkers := if maxWorkersArg.None? || maxWorkersArg.value == 0 then DefaultMaxWorkers else maxWorkersArg.value;
      stats := Stats(0, 0, 0, 0.0, 0.0, 0, 0.0);
      cache := map[];
      cacheTtl := ttl;
      lastScrapeTime := map[];
    }

    /** The scraper built with every argument left at its default. */
    constructor Default()
      ensures Valid()
      ensures maxWorkers == DefaultMaxWorkers && cacheTtl == DefaultCacheTtl
      ensures cache == map[] && lastScrapeTime == map[]
      ensures stats == Stats(0, 0, 0, 0.0, 0.0, 0, 0.0)
    {
      maxWorkers := DefaultMaxWorkers;
      stats := Stats(0, 0, 0, 0.0, 0.0, 0, 0.0);
      cache := map[];
      cacheTtl := DefaultCacheTtl;
      lastScrapeTime := map[];
    }

    /** The throttle delay of a live fetch of `ticker` at time `now`. */
    function ThrottleDelay(ticker: string, fast: bool, now: real, jitter: real): real
      reads this
      requires JitterInRange(fast, jitter)
    {
      ThrottleWait(fast, LastFetched(lastScrapeTime, ticker), stats.lastRequestTime, now, jitter)
    }

    /** Fetches one ticker. A fresh cache entry is returned as it is and
        nothing changes; otherwise the ticker is fetched live. It never raises. */
    method GetStockData(ticker: string, fastMode: bool, clock: Clock, jitter: real, reply: Reply, format: real -> string)
      returns (r: Quote)
      requires Valid()
      requires JitterInRange(fastMode, jitter) && reply.duration >= 0.0
      modifies this, clock
      ensures Valid()
      ensures maxWorkers == old(maxWorkers) && cacheTtl == old(cacheTtl)
      ensures old(FreshIn(cache, ticker, clock.now, cacheTtl)) ==>
        && r == old(cache[ticker].data)
        && cache == old(cache) && stats == old(stats) && lastScrapeTime == old(lastScrapeTime)
        && clock.now == old(clock.now)
      ensures !old(FreshIn(cache, ticker, clock.now, cacheTtl)) ==>
        clock.now == old(clock.now) + old(ThrottleDelay(ticker, fastMode, clock.now, jitter)) + reply.duration
      ensures !old(FreshIn(cache, ticker, clock.now, cacheTtl)) ==>
        LiveFetchDone(old(cache), old(stats), old(lastScrapeTime), old(clock.now),
                      old(ThrottleDelay(ticker, fastMode, clock.now, jitter)), ticker, reply, format, r)
    {
      var currentTime := clock.now;
      if ticker in cache && currentTime - cache[ticker].timestamp < cacheTtl {
        return cache[ticker].data;
      }
      r := FetchLive(ticker, fastMode, clock, jitter, reply, format);
    }

    /** The state after a live fetch of `ticker` that started at `start` in
        state (`cache0`, `stats0`, `lastScrape0`) and waited `delay`: both
        last-request times are the wake-up time; one request is counted, as
        a success exactly when the result is usable; the clock has moved on
        by the delay and the call; the cache holds the new record only if it
        is usable; and `r` is what the fallback policy makes of the outcome,
        given the entry the cache held before. */
    ghost predicate LiveFetchDone(cache0: map<string, CacheEntry>, stats0: Stats, lastScrape0: map<string, real>,
                                  start: real, delay: real, ticker: string, reply: Reply,
                                  format: real -> string, r: Quote)
      reads this
    {
      LiveFetched(ticker, reply, format, cache0, lastScrape0, stats0, start + delay, r, cache, lastScrapeTime, stats)
    }

    /** The live part of a fetch: wait for the throttle, call the quote
        source once, then record the outcome. */
    method FetchLive(ticker: string, fastMode: bool, clock: Clock, jitter: real, reply: Reply, format: real -> string)
      returns (r: Quote)
      requires Valid()
      requires JitterInRange(fastMode, jitter) && reply.duration >= 0.0
      modifies this, clock
      ensures Valid()
      ensures maxWorkers == old(maxWorkers) && cacheTtl == old(cacheTtl)
      ensures clock.now == old(clock.now) + old(ThrottleDelay(ticker, fastMode, clock.now, jitter)) + reply.duration
      ensures LiveFetchDone(old(cache), old(stats), old(lastScrapeTime), old(clock.now),
                            old(ThrottleDelay(ticker, fastMode, clock.now, jitter)), ticker, reply, format, r)
    {
      WaitForTurn(ticker, fastMode, clock, jitter);
      clock.Advance(reply.duration);
      r := RecordOutcome(ticker, reply.outcome, clock.now, format);
    }

    /** The bookkeeping after the quote source answered at time `now`: one
        more request, counted as a success exactly when the result is usable;
        a usable result is cached with timestamp `now`; the record returned is
        what the fallback policy makes of the outcome. */
    method RecordOutcome(ticker: string, outcome: Outcome, now: real, format: real -> string)
      returns (r: Quote)
      requires Valid()
      modifies this
      ensures Valid()
      ensures maxWorkers == old(maxWorkers) && cacheTtl == old(cacheTtl) && lastScrapeTime == old(lastScrapeTime)
      ensures stats == old(stats).(
           requestsMade := old(stats.requestsMade) + 1,
           successfulRequests := old(stats.successfulRequests) + (if Usable(outcome) then 1 else 0),
           failedRequests := old(stats.failedRequests) + (if Usable(outcome) then 0 else 1))
      ensures cache == (if Usable(outcome) then old(cache)[ticker := CacheEntry(outcome.record, now)] else old(cache))
      ensures r == Resolve(ticker, outcome, Lookup(old(cache), ticker), format(now))
    {
      var entry := Lookup(cache, ticker);
      match outcome {
        case Ok(result) =>
          if result.price != Unavailable {
            cache := cache[ticker := CacheEntry(result, now)];
            stats := stats.(requestsMade := stats.requestsMade + 1, successfulRequests := stats.successfulRequests + 1);
            r := result;
          } else {
            stats := stats.(requestsMade := stats.requestsMade + 1, failedRequests := stats.failedRequests + 1);
            if entry.Some? {
              r := StaleCopy(entry.value);
            } else {
              r := result;
            }
          }
        case Raise(message) =>
          stats := stats.(requestsMade := stats.requestsMade + 1, failedRequests := stats.failedRequests + 1);
          if entry.Some? {
            r := StaleCopy(entry.value);
          } else {
            r := RateLimitedRecord(ticker, message, format(now));
          }
      }
    }

    /** The throttle step of a live fetch: sleep for the throttle delay, then
        stamp both the ticker's and the global last-request time with the
        time of waking. Nothing else changes. */
    method WaitForTurn(ticker: string, fastMode: bool, clock: Clock, jitter: real)
      requires Valid()
      requires JitterInRange(fastMode, jitter)
      modifies this, clock
      ensures Valid()
      ensures clock.now == old(clock.now) + old(ThrottleDelay(ticker, fastMode, clock.now, jitter))
      ensures lastScrapeTime == old(lastScrapeTime)[ticker := clock.now]
      ensures stats == old(stats).(lastRequestTime := clock.now)
      ensures cache == old(cache) && maxWorkers == old(maxWorkers) && cacheTtl == old(cacheTtl)
    {
      var delay := ThrottleDelay(ticker, fastMode, clock.now, jitter);
      if delay > 0.0 {
        clock.Advance(delay);
      }
      stats := stats.(lastRequestTime := clock.now);
      lastScrapeTime := lastScrapeTime[ticker := clock.now];
    }

    /** The state of the worker pool after the first `j` tickers of
        `order`, as `PoolState` says, in a valid scraper. */
    ghost predicate Running(order: seq<string>, j: nat, first: nat, source: nat -> Reply, jitter: nat -> real,
                            format: real -> string, fast: bool, clock: Clock, base: map<string, Quote>, live: bool,
                            cache0: map<string, CacheEntry>, lastScrape0: map<string, real>, stats0: Stats,
                            start: real, acc: map<string, Quote>, times: seq<real>)
      reads this, clock
    {
      && Valid()
      && PoolState(order, j, first, source, jitter, format, fast, cacheTtl, base, live, cache0, lastScrape0, stats0,
                   start, acc, times, cache, lastScrapeTime, stats, clock.now)
    }

    /** One worker of the pool: fetch `ticker` as dispatch position `k` and
        store its record under its name. A fresh entry is stored as it is and
        nothing else changes; otherwise the fetch is live, exactly as
        `GetStockData` says: the clock moves on by the throttle delay and the
        call, and the record, cache entry, counts and last-request times are
        those of `LiveFetchDone`. */
    method RunWorker(ticker: string, k: nat, fastMode: bool, clock: Clock,
                     jitter: nat -> real, source: nat -> Reply, format: real -> string,
                     results: map<string, Quote>)
      returns (results': map<string, Quote>)
      requires Valid()
      requires JitterInRange(fastMode, jitter(k)) && source(k).duration >= 0.0
      modifies this, clock
      ensures Valid()
      ensures maxWorkers == old(maxWorkers) && cacheTtl == old(cacheTtl)
      ensures forall t :: t in results' <==> t in results || t == ticker
      ensures forall t :: t in results && t != ticker ==> results'[t] == results[t]
      ensures SameOutside(old(cache), cache, [ticker]) && old(cache).Keys <= cache.Keys
      ensures SameOutside(old(lastScrapeTime), lastScrapeTime, [ticker])
      ensures old(lastScrapeTime).Keys <= lastScrapeTime.Keys
      ensures old(stats.requestsMade) <= stats.requestsMade <= old(stats.requestsMade) + 1
      ensures SameTimings(old(stats), stats)
      ensures clock.now >= old(clock.now)
      ensures old(FreshIn(cache, ticker, clock.now, cacheTtl)) ==>
        && results'[ticker] == old(cache[ticker].data)
        && cache == old(cache) && stats == old(stats) && lastScrapeTime == old(lastScrapeTime)
        && clock.now == old(clock.now)
      ensures !old(FreshIn(cache, ticker, clock.now, cacheTtl)) ==>
        clock.now == old(clock.now) + old(ThrottleDelay(ticker, fastMode, clock.now, jitter(k))) + source(k).duration
      ensures !old(FreshIn(cache, ticker, clock.now, cacheTtl)) ==>
        LiveFetchDone(old(cache), old(stats), old(lastScrapeTime), old(clock.now),
                      old(ThrottleDelay(ticker, fastMode, clock.now, jitter(k))), ticker, source(k), format,
                      results'[ticker])
    {
      var data := GetStockData(ticker, fastMode, clock, jitter(k), source(k), format);
      results' := results[ticker := data];
    }

    /** One turn of the worker pool: the next ticker of `order` goes to a
        worker, and the pool's state moves on by one ticker. */
    method RunNext(order: seq<string>, j: nat, first: nat, fastMode: bool, clock: Clock,
                   jitter: nat -> real, source: nat -> Reply, format: real -> string,
                   base: map<string, Quote>, ghost live: bool, ghost cache0: map<string, CacheEntry>,
                   ghost lastScrape0: map<string, real>, ghost stats0: Stats, ghost start: real,
                   acc: map<string, Quote>, ghost times: seq<real>)
      returns (acc': map<string, Quote>, ghost times': seq<real>)
      requires j < |order|
      requires forall k :: JitterInRange(fastMode, jitter(k))
      requires forall k :: source(k).duration >= 0.0
      requires Running(order, j, first, source, jitter, format, fastMode, clock, base, live,
                       cache0, lastScrape0, stats0, start, acc, times)
      modifies this, clock
      ensures Running(order, j + 1, first, source, jitter, format, fastMode, clock, base, live,
                      cache0, lastScrape0, stats0, start, acc', times')
      ensures maxWorkers == old(maxWorkers) && cacheTtl == old(cacheTtl)
    {
      ghost var wait := ThrottleDelay(order[j], fastMode, clock.now, jitter(first + j));
      assert wait == ThrottleWait(fastMode, LastFetched(lastScrapeTime, order[j]), stats.lastRequestTime, clock.now,
                                  jitter(first + j));
      acc' := RunWorker(order[j], first + j, fastMode, clock, jitter, source, format, acc);
      times' := times + [clock.now];
      PoolStep(order, j, first, source, jitter, format, fastMode, cacheTtl, base, live, cache0, lastScrape0, stats0,
               start, acc, times, old(cache), old(lastScrapeTime), old(stats), old(clock.now),
               acc', cache, lastScrapeTime, stats, clock.now);
    }

    /** Runs one shuffled sub-batch through the worker pool: every ticker of
        `order` is fetched, the one at index `j` as dispatch position
        `first + j` and answered at `times[j]`, and its record lands in the
        result under its name; other results, cache entries and last-scrape
        times stay as they were; the answers never go back in time. When
        every ticker of `order` is distinct and had no fresh entry, each
        record and cache entry is the one of a live fetch, each fetch slept
        exactly the throttle delay after the previous answer, each ticker's
        last-scrape time and the global last-request time are the wake-ups,
        and every fetch is counted, a success exactly when its reply is
        usable. */
    method RunBatch(order: seq<string>, first: nat, fastMode: bool, clock: Clock,
                    jitter: nat -> real, source: nat -> Reply, format: real -> string,
                    results: map<string, Quote>)
      returns (results': map<string, Quote>, ghost times: seq<real>)
      requires Valid()
      requires forall k :: JitterInRange(fastMode, jitter(k))
      requires forall k :: source(k).duration >= 0.0
      modifies this, clock
      ensures Valid()
      ensures maxWorkers == old(maxWorkers) && cacheTtl == old(cacheTtl)
      ensures forall t :: t in results' <==> t in results || t in order
      ensures forall t :: t in results && t !in order ==> results'[t] == results[t]
      ensures SameOutside(old(cache), cache, order) && old(cache).Keys <= cache.Keys
      ensures SameOutside(old(lastScrapeTime), lastScrapeTime, order)
      ensures old(lastScrapeTime).Keys <= lastScrapeTime.Keys
      ensures old(stats.requestsMade) <= stats.requestsMade <= old(stats.requestsMade) + |order|
      ensures SameTimings(old(stats), stats)
      ensures clock.now >= old(clock.now)
      ensures |times| == |order| && clock.now == LastOr(times, old(clock.now))
      ensures Ascending(times, old(clock.now))
      ensures LiveOnly(order, old(cache), old(clock.now), cacheTtl) ==>
        && Fetched(order, first, source, format, old(cache), results', cache, times)
        && Paced(order, first, source, jitter, fastMode, old(lastScrapeTime), old(stats.lastRequestTime),
                 old(clock.now), times, Zeros(|order|))
        && Stamped(order, first, source, times, lastScrapeTime)
        && stats.lastRequestTime == LastRequest(source, first, old(stats.lastRequestTime), times)
        && stats.requestsMade == old(stats.requestsMade) + |order|
        && stats.successfulRequests == old(stats.successfulRequests) + Successes(source, first, |order|)
    {
      results', times := results, [];
      ghost var live := LiveOnly(order, cache, clock.now, cacheTtl);
      assert order[..0] == [];
      var j := 0;
      while j < |order|
        invariant 0 <= j <= |order|
        invariant maxWorkers == old(maxWorkers) && cacheTtl == old(cacheTtl)
        // Compared with `true`, the loop state is checked as one fact
        // rather than clause by clause.
        invariant Running(order, j, first, source, jitter, format, fastMode, clock, results, live,
                          old(cache), old(lastScrapeTime), old(stats), old(clock.now), results', times) == true
      {
        results', times := RunNext(order, j, first, fastMode, clock, jitter, source, format, results, live,
                                   old(cache), old(lastScrapeTime), old(stats), old(clock.now), results', times);
        j := j + 1;
      }
      assert order[..j] == order;
    }

    /** The cache sweep of a batch: in input order, each ticker with a fresh
        entry at `now` goes to the hits, with its cached record in the
        result, and every other ticker to the misses. */
    method PartitionByFreshness(tickers: seq<string>, now: real)
      returns (quotes: map<string, Quote>, cachedTickers: seq<string>, uncachedTickers: seq<string>)
      ensures cachedTickers == FreshTickers(tickers, cache, now, cacheTtl)
      ensures uncachedTickers == StaleTickers(tickers, cache, now, cacheTtl)
      ensures forall t :: t in quotes <==> t in cachedTickers
      ensures forall t :: t in quotes ==> t in cache && quotes[t] == cache[t].data
    {
      quotes, cachedTickers, uncachedTickers := map[], [], [];
      var i := 0;
      while i < |tickers|
        invariant 0 <= i <= |tickers|
        invariant cachedTickers == FreshTickers(tickers[..i], cache, now, cacheTtl)
        invariant uncachedTickers == StaleTickers(tickers[..i], cache, now, cacheTtl)
        invariant forall t :: t in quotes <==> t in cachedTickers
        invariant forall t :: t in quotes ==> t in cache && quotes[t] == cache[t].data
      {
        var ticker := tickers[i];
        assert tickers[..i + 1][..i] == tickers[..i] && tickers[..i + 1][i] == ticker;
        assert FreshTickers(tickers[..i + 1], cache, now, cacheTtl)
            == cachedTickers + (if FreshIn(cache, ticker, now, cacheTtl) then [ticker] else []);
        assert StaleTickers(tickers[..i + 1], cache, now, cacheTtl)
            == uncachedTickers + (if FreshIn(cache, ticker, now, cacheTtl) then [] else [ticker]);
        if ticker in cache && now - cache[ticker].timestamp < cacheTtl {
          quotes := quotes[ticker := cache[ticker].data];
          cachedTickers := cachedTickers + [ticker];
        } else {
          uncachedTickers := uncachedTickers + [ticker];
        }
        i := i + 1;
      }
      assert tickers[..i] == tickers;
    }

    /** One sub-batch of the dispatch: shuffle it, run it through the worker
        pool, then pause 0.2 s (0.1 s in fast mode) unless it equals the last
        sub-batch. Every ticker of the sub-batch ends up in the result; other
        results, cache entries and last-scrape times stay as they were; the
        answers never go back in time. When the sub-batch is fetched live, the
        results, cache entries, pacing, stamps and counts are those of a live
        fetch of each ticker in the shuffled order, as `RunBatch` says. */
    method ProcessSubBatch(batches: seq<seq<string>>, b: nat, first: nat, fastMode: bool, clock: Clock,
                           jitter: nat -> real, source: nat -> Reply,
                           shuffle: (nat, seq<string>) -> seq<string>, format: real -> string,
                           quotes: map<string, Quote>)
      returns (quotes': map<string, Quote>, ghost order: seq<string>, ghost times: seq<real>)
      requires b < |batches|
      requires Valid()
      requires forall k :: JitterInRange(fastMode, jitter(k))
      requires forall k :: source(k).duration >= 0.0
      requires forall i, s :: multiset(shuffle(i, s)) == multiset(s)
      modifies this, clock
      ensures Valid()
      ensures maxWorkers == old(maxWorkers) && cacheTtl == old(cacheTtl)
      ensures forall t :: t in quotes' <==> t in quotes || t in batches[b]
      ensures forall t :: t in quotes && t !in batches[b] ==> quotes'[t] == quotes[t]
      ensures SameOutside(old(cache), cache, batches[b]) && old(cache).Keys <= cache.Keys
      ensures SameOutside(old(lastScrapeTime), lastScrapeTime, batches[b])
      ensures old(stats.requestsMade) <= stats.requestsMade <= old(stats.requestsMade) + |batches[b]|
      ensures SameTimings(old(stats), stats)
      ensures clock.now >= old(clock.now)
      ensures order == shuffle(b, batches[b]) && |times| == |order|
      ensures Ascending(times, old(clock.now))
      ensures clock.now == LastOr(times, old(clock.now)) + PauseLength(batches, batches[b], fastMode)
      ensures LiveOnly(batches[b], old(cache), old(clock.now), cacheTtl) ==>
        && Fetched(order, first, source, format, old(cache), quotes', cache, times)
        && Paced(order, first, source, jitter, fastMode, old(lastScrapeTime), old(stats.lastRequestTime),
                 old(clock.now), times, Zeros(|order|))
        && Stamped(order, first, source, times, lastScrapeTime)
        && stats.lastRequestTime == LastRequest(source, first, old(stats.lastRequestTime), times)
        && stats.requestsMade == old(stats.requestsMade) + |batches[b]|
        && stats.successfulRequests == old(stats.successfulRequests) + Successes(source, first, |batches[b]|)
    {
      var batch := batches[b];
      var randomTickers := shuffle(b, batch);
      SameElements(randomTickers, batch);
      if LiveOnly(batch, cache, clock.now, cacheTtl) {
        DistinctByMultiset(randomTickers, batch);
      }
      quotes', times := RunBatch(randomTickers, first, fastMode, clock, jitter, source, format, quotes);
      order := randomTickers;
      if PausesAfter(batches, batch) {
        clock.Advance(if fastMode then 0.1 else 0.2);
      }
    }

    /** The loop state of the dispatch, over the scraper's own fields. */
    ghost predicate Dispatching(misses: seq<string>, batches: seq<seq<string>>, b: nat,
                                shuffle: (nat, seq<string>) -> seq<string>, source: nat -> Reply,
                                jitter: nat -> real, format: real -> string, fast: bool, clock: Clock,
                                base: map<string, Quote>, live: bool,
                                cache0: map<string, CacheEntry>, lastScrape0: map<string, real>, stats0: Stats,
                                start: real, done: seq<string>, dispatched: seq<string>,
                                acc: map<string, Quote>, times: seq<real>)
      reads this, clock
    {
      && Valid()
      && DispatchState(misses, batches, b, shuffle, source, jitter, format, fast, cacheTtl, base, live,
                       cache0, lastScrape0, stats0, start, done, dispatched, acc, times,
                       cache, lastScrapeTime, stats, clock.now)
    }

    /** One turn of the dispatch loop: serve sub-batch b and keep the loop
        state. */
    method DispatchNext(misses: seq<string>, batches: seq<seq<string>>, b: nat, done: seq<string>,
                        fastMode: bool, clock: Clock, jitter: nat -> real, source: nat -> Reply,
                        shuffle: (nat, seq<string>) -> seq<string>, format: real -> string,
                        base: map<string, Quote>, ghost live: bool, ghost cache0: map<string, CacheEntry>,
                        ghost lastScrape0: map<string, real>, ghost stats0: Stats, ghost start: real,
                        ghost dispatched: seq<string>, acc: map<string, Quote>, ghost times: seq<real>)
      returns (acc': map<string, Quote>, ghost dispatched': seq<string>, ghost times': seq<real>)
      requires b < |batches| && batches[b] != []
      requires forall k :: JitterInRange(fastMode, jitter(k))
      requires forall k :: source(k).duration >= 0.0
      requires forall i, s :: multiset(shuffle(i, s)) == multiset(s)
      requires Dispatching(misses, batches, b, shuffle, source, jitter, format, fastMode, clock, base, live,
                           cache0, lastScrape0, stats0, start, done, dispatched, acc, times)
      modifies this, clock
      ensures Dispatching(misses, batches, b + 1, shuffle, source, jitter, format, fastMode, clock, base, live,
                          cache0, lastScrape0, stats0, start, done + batches[b], dispatched', acc', times')
      ensures maxWorkers == old(maxWorkers) && cacheTtl == old(cacheTtl)
    {
      ghost var order, batchTimes;
      acc', order, batchTimes := ProcessSubBatch(batches, b, |done|, fastMode, clock, jitter, source, shuffle,
                                                 format, acc);
      DispatchStep(misses, batches, b, shuffle, source, jitter, format, fastMode, cacheTtl, base, live,
                   cache0, lastScrape0, stats0, start, done, dispatched, acc, times,
                   old(cache), old(lastScrapeTime), old(stats), old(clock.now), order, batchTimes, acc',
                   cache, lastScrapeTime, stats, clock.now);
      dispatched', times' := dispatched + order, times + batchTimes;
    }

    /** The dispatch of a batch's misses: cut into sub-batches of
        `BatchSize`, processed one after the other, each in its shuffled
        order. Every miss ends up in the result; other results, cache entries
        and last-scrape times stay as they were; the answers never go back in
        time and the clock ends at the last one. When the misses are distinct
        and none is fresh, each is fetched live exactly once, in the order
        `dispatched`, with the record, cache entry and counts of a live fetch,
        after the pause before its sub-batch and the exact throttle delay. */
    method DispatchMisses(uncachedTickers: seq<string>, fastMode: bool, clock: Clock,
                          jitter: nat -> real, source: nat -> Reply,
                          shuffle: (nat, seq<string>) -> seq<string>, format: real -> string,
                          quotes: map<string, Quote>)
      returns (quotes': map<string, Quote>, ghost dispatched: seq<string>, ghost times: seq<real>)
      requires Valid()
      requires forall k :: JitterInRange(fastMode, jitter(k))
      requires forall k :: source(k).duration >= 0.0
      requires forall i, s :: multiset(shuffle(i, s)) == multiset(s)
      modifies this, clock
      ensures Valid()
      ensures maxWorkers == old(maxWorkers) && cacheTtl == old(cacheTtl)
      ensures SameTimings(old(stats), stats)
      ensures clock.now >= old(clock.now)
      ensures Dispatched(uncachedTickers, SubBatches(uncachedTickers, fastMode), shuffle, source, jitter, format,
                         fastMode, quotes, LiveOnly(uncachedTickers, old(cache), old(clock.now), cacheTtl),
                         old(cache), old(lastScrapeTime), old(stats), old(clock.now),
                         dispatched, quotes', times, cache, lastScrapeTime, stats, clock.now)
    {
      quotes', dispatched, times := quotes, [], [];
      if uncachedTickers == [] {
        DispatchNothing(uncachedTickers, fastMode, shuffle, source, jitter, format, quotes,
                        LiveOnly(uncachedTickers, cache, clock.now, cacheTtl), cache, lastScrapeTime,
                        stats, clock.now);
        return;
      }
      var size := BatchSize(|uncachedTickers|, fastMode);
      var batches := Chunks(uncachedTickers, size);
      assert batches == SubBatches(uncachedTickers, fastMode);
      ChunksPartition(uncachedTickers, size);
      quotes', dispatched, times := DispatchBatches(uncachedTickers, batches, fastMode, clock, jitter, source, shuffle,
                                                    format, quotes,
                                                    LiveOnly(uncachedTickers, cache, clock.now, cacheTtl));
    }

    /** The loop over the sub-batches of the misses, one after the other,
        each through the worker pool in its shuffled order, with the pause
        after each but the last: it leaves the state `Dispatched` says. */
    method DispatchBatches(misses: seq<string>, batches: seq<seq<string>>, fastMode: bool, clock: Clock,
                           jitter: nat -> real, source: nat -> Reply,
                           shuffle: (nat, seq<string>) -> seq<string>, format: real -> string,
                           quotes: map<string, Quote>, ghost live: bool)
      returns (quotes': map<string, Quote>, ghost dispatched: seq<string>, ghost times: seq<real>)
      requires Valid()
      requires Flatten(batches) == misses && forall i :: 0 <= i < |batches| ==> batches[i] != []
      requires live ==> LiveOnly(misses, cache, clock.now, cacheTtl)
      requires forall k :: JitterInRange(fastMode, jitter(k))
      requires forall k :: source(k).duration >= 0.0
      requires forall i, s :: multiset(shuffle(i, s)) == multiset(s)
      modifies this, clock
      ensures Valid()
      ensures maxWorkers == old(maxWorkers) && cacheTtl == old(cacheTtl)
      ensures SameTimings(old(stats), stats)
      ensures clock.now >= old(clock.now)
      ensures Dispatched(misses, batches, shuffle, source, jitter, format, fastMode, quotes, live,
                         old(cache), old(lastScrapeTime), old(stats), old(clock.now),
                         dispatched, quotes', times, cache, lastScrapeTime, stats, clock.now)
    {
      quotes', dispatched, times := quotes, [], [];
      DispatchStart(misses, batches, shuffle, source, jitter, format, fastMode, cacheTtl, quotes, live,
                    cache, lastScrapeTime, stats, clock.now);
      var done: seq<string> := [];
      var b := 0;
      while b < |batches|
        invariant 0 <= b <= |batches|
        invariant Valid()
        invariant maxWorkers == old(maxWorkers) && cacheTtl == old(cacheTtl)
        // Compared with `true`, the loop state is checked as one fact
        // rather than clause by clause.
        invariant Dispatching(misses, batches, b, shuffle, source, jitter, format, fastMode, clock, quotes, live,
                              old(cache), old(lastScrapeTime), old(stats), old(clock.now), done, dispatched,
                              quotes', times) == true
      {
        quotes', dispatched, times := DispatchNext(misses, batches, b, done, fastMode, clock, jitter, source,
                                                   shuffle, format, quotes, live, old(cache),
                                                   old(lastScrapeTime), old(stats), old(clock.now),
                                                   dispatched, quotes', times);
        done := done + batches[b];
        b := b + 1;
      }
      DispatchEnd(misses, batches, shuffle, source, jitter, format, fastMode, cacheTtl, quotes, live,
                  old(cache), old(lastScrapeTime), old(stats), old(clock.now), done, dispatched,
                  quotes', times, cache, lastScrapeTime, stats, clock.now);
    }

    /** The work of a non-empty batch: the cache sweep, then the dispatch of
        the misses. When there are misses and `maxWorkers` is not positive,
        the worker pool cannot be built: the batch raises and nothing
        changes. Otherwise every input ticker gets a record, each hit its
        cached one; cache entries and last-scrape times change only for
        misses; with no miss the clock and the last-request time stand
        still; and when no miss repeats, each miss is fetched live exactly
        once, in the order `dispatched`, paced as `Served` says. The batch
        timings are left to the caller. */
    method ServeBatch(tickers: seq<string>, fastMode: bool, clock: Clock,
                      jitter: nat -> real, source: nat -> Reply,
                      shuffle: (nat, seq<string>) -> seq<string>, format: real -> string)
      returns (quotes: map<string, Quote>, hits: seq<string>, misses: seq<string>, raised: bool,
               ghost dispatched: seq<string>, ghost times: seq<real>)
      requires Valid()
      requires forall k :: JitterInRange(fastMode, jitter(k))
      requires forall k :: source(k).duration >= 0.0
      requires forall i, s :: multiset(shuffle(i, s)) == multiset(s)
      modifies this, clock
      ensures Valid()
      ensures maxWorkers == old(maxWorkers) && cacheTtl == old(cacheTtl)
      ensures hits == FreshTickers(tickers, old(cache), old(clock.now), cacheTtl)
      ensures misses == StaleTickers(tickers, old(cache), old(clock.now), cacheTtl)
      ensures |hits| + |misses| == |tickers|
      ensures raised <==> misses != [] && maxWorkers <= 0
      ensures raised ==> unchanged(this) && unchanged(clock)
      ensures SameTimings(old(stats), stats)
      ensures clock.now >= old(clock.now)
      ensures misses == [] ==> clock.now == old(clock.now) && stats.lastRequestTime == old(stats.lastRequestTime)
      ensures !raised ==>
        Served(tickers, fastMode, source, jitter, format, shuffle, cacheTtl,
               old(cache), old(lastScrapeTime), old(stats), old(clock.now), quotes, dispatched, times,
               cache, lastScrapeTime, stats, clock.now)
    {
      var cached;
      cached, hits, misses := PartitionByFreshness(tickers, clock.now);
      PartitionCounts(tickers, cache, clock.now, cacheTtl);
      HitsAreNotMisses(tickers, cache, clock.now, cacheTtl);
      if misses != [] && maxWorkers <= 0 {
        quotes, raised, dispatched, times := cached, true, [], [];
        return;
      }
      raised := false;
      if NoDuplicates(misses) {
        MissesAreLive(tickers, cache, clock.now, cacheTtl);
      }
      quotes, dispatched, times := DispatchMisses(misses, fastMode, clock, jitter, source, shuffle, format, cached);
    }

    /** Fetches a list of tickers. An empty list yields an empty result and
        changes nothing. When some ticker misses the cache and `maxWorkers`
        is not positive, the worker pool refuses to start: the call raises
        and nothing changes. Otherwise fresh cache hits are served first and
        the misses dispatched; the batch timings are recorded; and the
        result maps every input ticker to its record in `fetched`, plus the
        metadata entry whose counts cover every input ticker, duplicates
        included. With no miss no time passes. When no miss repeats, every
        miss is fetched live exactly once, in the order `dispatched`, paced
        as `Served` says, and is counted. */
    method GetMultipleStockData(tickers: seq<string>, fastMode: bool, clock: Clock,
                                jitter: nat -> real, source: nat -> Reply,
                                shuffle: (nat, seq<string>) -> seq<string>, format: real -> string)
      returns (r: BatchReply, ghost elapsed: real, ghost fetched: map<string, Quote>,
               ghost dispatched: seq<string>, ghost times: seq<real>)
      requires Valid()
      requires forall k :: JitterInRange(fastMode, jitter(k))
      requires forall k :: source(k).duration >= 0.0
      requires forall i, s :: multiset(shuffle(i, s)) == multiset(s)
      modifies this, clock
      ensures Valid()
      ensures maxWorkers == old(maxWorkers) && cacheTtl == old(cacheTtl)
      ensures tickers == [] ==> r == Results(map[]) && unchanged(this) && unchanged(clock)
      ensures r.Raised? <==> maxWorkers <= 0 && StaleTickers(tickers, old(cache), old(clock.now), cacheTtl) != []
      ensures r.Raised? ==> r.message == WorkerCountMessage && unchanged(this) && unchanged(clock)
      ensures elapsed == clock.now - old(clock.now)
      ensures tickers != [] && r.Results? ==>
        && r.entries == WithMetadata(fetched, Metadata(elapsed, |tickers|, Mean(elapsed, |tickers|),
                                                       |FreshTickers(tickers, old(cache), old(clock.now), cacheTtl)|,
                                                       |StaleTickers(tickers, old(cache), old(clock.now), cacheTtl)|,
                                                       fastMode))
        && stats.totalTime == old(stats.totalTime) + elapsed
        && stats.lastBatchTime == elapsed && stats.lastBatchSize == |tickers|
        && Served(tickers, fastMode, source, jitter, format, shuffle, cacheTtl,
                  old(cache), old(lastScrapeTime), old(stats), old(clock.now), fetched, dispatched, times,
                  cache, lastScrapeTime, stats, clock.now)
      ensures clock.now >= old(clock.now)
      ensures StaleTickers(tickers, old(cache), old(clock.now), cacheTtl) == [] ==>
        clock.now == old(clock.now) && stats.lastRequestTime == old(stats.lastRequestTime) && elapsed == 0.0
    {
      var startTime := clock.now;
      elapsed, fetched, dispatched, times := 0.0, map[], [], [];
      if tickers == [] {
        return Results(map[]), elapsed, fetched, dispatched, times;
      }
      var quotes, cachedTickers, uncachedTickers, raised;
      quotes, cachedTickers, uncachedTickers, raised, dispatched, times :=
        ServeBatch(tickers, fastMode, clock, jitter, source, shuffle, format);
      if raised {
        return Raised(WorkerCountMessage), elapsed, fetched, dispatched, times;
      }
      var elapsedTime := clock.now - startTime;
      elapsed := elapsedTime;
      var metadata := Metadata(elapsedTime, |tickers|, Mean(elapsedTime, |tickers|),
                               |cachedTickers|, |uncachedTickers|, fastMode);
      var entries := FinishBatch(metadata, quotes);
      fetched := quotes;
      r := Results(entries);
    }

    /** The end of a batch: record its timings in the statistics and attach
        the metadata entry to the fetched records. Nothing else changes. */
    method FinishBatch(metadata: Metadata, quotes: map<string, Quote>) returns (r: map<string, BatchValue>)
      requires Valid() && metadata.tickersProcessed > 0 && metadata.totalTime >= 0.0
      modifies this
      ensures Valid()
      ensures r == WithMetadata(quotes, metadata)
      ensures stats == old(stats).(totalTime := old(stats.totalTime) + metadata.totalTime,
                                   lastBatchTime := metadata.totalTime, lastBatchSize := metadata.tickersProcessed)
      ensures cache == old(cache) && lastScrapeTime == old(lastScrapeTime)
      ensures maxWorkers == old(maxWorkers) && cacheTtl == old(cacheTtl)
    {
      stats := stats.(totalTime := stats.totalTime + metadata.totalTime,
                      lastBatchTime := metadata.totalTime,
                      lastBatchSize := metadata.tickersProcessed);
      r := WithMetadata(quotes, metadata);
    }

    /** Empties the cache and changes nothing else. */
    method ClearCache()
      requires Valid()
      modifies this
      ensures Valid()
      ensures cache == map[]
      ensures stats == old(stats) && lastScrapeTime == old(lastScrapeTime)
      ensures maxWorkers == old(maxWorkers) && cacheTtl == old(cacheTtl)
    {
      cache := map[];
    }

    /** The statistics report: the counters, which add up, the cache size and
        TTL, and the accumulated batch time per successful request (0 when
        there has been none). */
    method GetStats() returns (report: StatsReport)
      requires Valid()
      ensures report.requestsMade == stats.requestsMade
      ensures report.successfulRequests == stats.successfulRequests
      ensures report.failedRequests == stats.failedRequests
      ensures report.successfulRequests + report.failedRequests == report.requestsMade
      ensures report.cacheSize == |cache| && report.cacheTtl == cacheTtl
      ensures report.averageTimePerRequest >= 0.0
      ensures report.successfulRequests == 0 ==> report.averageTimePerRequest == 0.0
      ensures report.successfulRequests > 0 ==>
        report.averageTimePerRequest * (report.successfulRequests as real) == stats.totalTime
    {
      var avgTime := 0.0;
      if stats.successfulRequests > 0 {
        avgTime := stats.totalTime / (stats.successfulRequests as real);
      }
      report := StatsReport(stats.requestsMade, stats.successfulRequests, stats.failedRequests,
                            |cache|, cacheTtl, avgTime);
    }

    /** Zeroes the counters and timings and sets the last request time to
        now; the cache and the per-ticker times are left alone. */
    method ResetStats(clock: Clock)
      requires Valid()
      modifies this
      ensures Valid()
      ensures stats == Stats(0, 0, 0, 0.0, 0.0, 0, clock.now)
      ensures cache == old(cache) && lastScrapeTime == old(lastScrapeTime)
      ensures maxWorkers == old(maxWorkers) && cacheTtl == old(cacheTtl)
    {
      stats := Stats(0, 0, 0, 0.0, 0.0, 0, clock.now);
    }

    /** The cache report: for every cached ticker its age, the time left
        before it expires (never negative), and whether it is fresh, which
        holds exactly when a lookup at this time would be a cache hit. */
    method GetCacheInfo(clock: Clock) returns (info: CacheInfo)
      ensures info.cacheSize == |cache| && info.cacheTtl == cacheTtl
      ensures info.tickers.Keys == cache.Keys
      ensures forall t :: t in info.tickers ==>
        && info.tickers[t].age == clock.now - cache[t].timestamp
        && info.tickers[t].timeLeft == Max(0.0, cacheTtl - info.tickers[t].age)
        && (info.tickers[t].isFresh <==> FreshIn(cache, t, clock.now, cacheTtl))
    {
      var currentTime := clock.now;
      var entries: map<string, TickerAge> := map[];
      var remaining := cache.Keys;
      while remaining != {}
        invariant remaining <= cache.Keys
        invariant entries.Keys == cache.Keys - remaining
        invariant forall t :: t in entries ==>
          && entries[t].age == currentTime - cache[t].timestamp
          && entries[t].timeLeft == Max(0.0, cacheTtl - entries[t].age)
          && (entries[t].isFresh <==> entries[t].timeLeft > 0.0)
        decreases remaining
      {
        var ticker :| ticker in remaining;
        var age := currentTime - cache[ticker].timestamp;
        var timeLeft := Max(0.0, cacheTtl - age);
        entries := entries[ticker := TickerAge(age, timeLeft, timeLeft > 0.0)];
        remaining := remaining - {ticker};
      }
      info := CacheInfo(|cache|, cacheTtl, entries);
    }
  }
}
