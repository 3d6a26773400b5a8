# 247stonx quote fetching and form checks, in Dafny

This project models two parts of the 247stonx stock-watchlist web app.

**The threaded quote fetcher (`ThreadedScraper`).** It puts a cache in front
of a quote source that limits how often it may be called. Cache entries live
for a fixed time (the TTL, 600 s by default).
- Single fetch: a fresh cache hit is served as it is. A miss waits for the
  throttle, calls the quote source once and records the outcome.
- Fallbacks: a failed or price-less live result falls back to any cached
  entry, even an expired one. That entry is served marked stale. With no
  entry, a price-less result is returned as it came, and a raised fetch
  becomes a rate-limited error record.
- Batch fetch: cache hits are served first. The misses are cut into
  sub-batches of at most 20 tickers (fast mode) or 12. Each sub-batch is
  shuffled and fetched, with a short pause between sub-batches. The result
  carries a metadata entry with the timings and the hit and miss counts.
  A negative worker count is kept by the constructor, and the worker pool
  then raises `ValueError` for any batch with a miss; the model returns that
  error instead of a result.
- Statistics and cache report: a report of the statistics, a reset, a cache
  report and clearing the cache.

**The web forms.** These are the validator chains declared on the login,
registration and add-ticker forms, and the add-ticker form's own ticker-format
check. That check matches `^[A-Za-z0-9\.]+$`, which in Python also lets one
trailing newline through.

The modules follow the program's structure:
- `Quotes` (quotes.dfy): quote records, the outcome of one quote-source call,
  and the fallback policy as a pure function, `Resolve`.
- `Throttle` (throttle.dfy): the delay arithmetic of a live fetch.
- `Clocks` (clocks.dfy): the wall clock, an object whose reading only moves
  forward (see "Left out" for a clock that steps back). `time.sleep` and the time a quote-source call takes both advance it.
- `Batching` (batching.dfy): cutting the misses into sub-batches, and the rule
  for pausing between them.
- `Scraper` (scraper.dfy): the class `ThreadedScraper`. Its fields are those
  of the Python object: the statistics, the cache, the TTL, the per-ticker
  last-fetch times and the worker count. Its methods update them in place.
  `Valid()` is the invariant every method keeps:
  - every request is counted once, as a success or as a failure;
  - the batch timings are durations (never negative);
  - the cache holds only records that have a price.
- `Forms` (forms.dfy): the ticker-format check, stated against a direct
  description of the accepted strings. It also holds the validator chains as
  data, run by an interpreter, and an exact acceptance condition for each
  form.

Time is a `real` number of seconds. Whatever the program gets from outside is
a parameter:
- the reply of the quote source for each dispatch position (a record or an
  exception, and how long the call took);
- the jitter drawn by `random.uniform` for each dispatch position, in its range;
- the permutation `random.shuffle` produces for each sub-batch;
- the formatted timestamp of `datetime.now()`.

The model follows the code as written in three places where a reader might
expect otherwise:
- `get_stats` divides the accumulated batch time by the number of successful
  requests. That is not a per-request average of fetch times.
- A pause is skipped after a sub-batch that is *equal as a list* to the last
  sub-batch, not only after the last one. `Batching.PauseByPosition` shows the
  two rules agree when the misses hold no duplicate.
  `Batching.RepeatedSubBatchSkipsPause` shows they differ when a sub-batch
  repeats the last one.
- The fast-mode global spacing is 0.05 s. The fast-mode global delay is capped
  at 0.1 s, and the normal-mode one at `_max_delay` = 0.3 s.

## Model

| member | source | states |
|---|---|---|
| `Quotes.StaleCopy` | threaded_scraper.py:131-133 | the served copy of a cached record has " (cached)" appended to its price and "Data may be stale" as its status; every other field is the cached one, and it has a price |
| `Quotes.RateLimitedRecord` | threaded_scraper.py:159-166 | the error record for a raised fetch with no cache entry has price and change "N/A", status "Error: Rate limited", the ticker and the exception text |
| `Quotes.Resolve` | threaded_scraper.py:113-166 | a live fetch returns a record with a price exactly when the result had a price or the cache held any entry for the ticker |
| `Quotes.FallbackPolicy` | threaded_scraper.py:117-166 | case by case: a usable result is returned unchanged; otherwise a cached entry, even an expired one, is served as a stale copy; with no entry an N/A result is returned raw and an exception becomes the rate-limited error record |
| `Quotes.StaleCopyIsMarked` | threaded_scraper.py:131-133 | a stale copy is never equal to the cached record: its price is longer by the marker and ends with it |
| `Throttle.Delay` | threaded_scraper.py:79-101 | the delay is between 0 and the cap (1.0 s, or 0.3 s in fast mode); it is 0 exactly when both the per-ticker and the global spacing are already met; on a clock that never goes back, waiting it meets both spacings |
| `Throttle.CapInactiveOnMonotoneClock` | threaded_scraper.py:97-101 | when the time since the ticker's last fetch is not negative, the cap never takes effect: the delay is the larger of the two delays and at most the per-ticker spacing |
| `Throttle.DelayIsNotSum` | threaded_scraper.py:97-98 | when both delays are due, the combined delay is strictly less than their sum: it is their maximum |
| `Clocks.Clock.Advance` | threaded_scraper.py:106-107 | sleeping `d` seconds moves the clock forward by exactly `d` |
| `Batching.BatchSize` | threaded_scraper.py:204 | the sub-batch size is the number of misses capped at 20 (fast) or 12, and is positive when there is a miss |
| `Batching.ChunksPartition` | threaded_scraper.py:204-205 | the sub-batches concatenate back to the misses in order; each is non-empty and at most the size; all but the last have exactly the size; there is one exactly when there is a miss |
| `Batching.ChunkElements` | threaded_scraper.py:205 | every ticker of a sub-batch is one of the misses |
| `Batching.PauseByPosition` | threaded_scraper.py:238-239 | with no duplicate miss, the dispatcher pauses after a sub-batch exactly when it is not the last one |
| `Batching.RepeatedSubBatchSkipsPause` | threaded_scraper.py:204-239 | when the misses are one list of exactly the sub-batch limit (12, or 20 in fast mode) twice over, the dispatcher cuts them into that list twice, and no pause follows the first sub-batch although it is not the last |
| `Scraper.PartitionCounts` | threaded_scraper.py:187-199 | the hit and miss counts add up to the number of input tickers, duplicates included |
| `Scraper.PartitionMembers` | threaded_scraper.py:191-199 | the hits are exactly the input tickers with a fresh entry, the misses exactly the other input tickers |
| `Scraper.HitsAreNotMisses` | threaded_scraper.py:191-199 | no ticker is both a hit and a miss, every hit is cached, and every input ticker is one or the other |
| `Scraper.StaleWithin` | threaded_scraper.py:191-199 | every miss is one of the input tickers, counted with multiplicity: the misses are a sub-multiset of the input |
| `Scraper.MissesAreLive` | threaded_scraper.py:191-199 | when no miss repeats, no miss has a fresh entry, so each miss goes to the quote source |
| `Scraper.WithMetadata` | threaded_scraper.py:249-257 | the result holds every fetched ticker plus the "metadata" key; that key holds the metadata, and every other ticker its record |
| `Scraper.BatchResultShape` | threaded_scraper.py:190-257 | the batch result holds exactly the input tickers and "metadata"; every input ticker maps to a record, and every hit to its cached record |
| `Scraper.SameElements` | threaded_scraper.py:209-210 | a shuffled sub-batch holds the same tickers as the sub-batch, and as many |
| `Scraper.PacedConcat` | threaded_scraper.py:77-111 | two paced runs, the second starting from the first's last answer plus a pause and from the last-request time the first left, make one paced run: every fetch of both still wakes exactly the throttle delay after its ready time |
| `Scraper.PoolStep` | threaded_scraper.py:213-225 | handing the next ticker to a worker moves the pool's state on by one ticker; in a live run that ticker is still stale when its turn comes, and its fetch extends the records, wake-ups, stamps and counts |
| `Scraper.ThreadedScraper.constructor` | threaded_scraper.py:27-53 | the worker count falls back to 6 when it is missing or 0; the cache, the last-fetch times and every statistic start empty or zero; the TTL is the one given |
| `Scraper.ThreadedScraper.Default` | threaded_scraper.py:27-53 | with every argument left at its default: 6 workers and a TTL of 600 s |
| `Scraper.ThreadedScraper.GetStockData` | threaded_scraper.py:55-166 | a fresh hit returns the cached record and changes nothing, not even the clock; otherwise the clock moves on by the throttle delay and the call, and the new state and the record are those of a live fetch |
| `Scraper.ThreadedScraper.FetchLive` | threaded_scraper.py:76-166 | after a live fetch, the last-fetch and last-request times are the time of waking; one request is counted, as a success exactly when the result has a price; the cache changes only for a usable result; the record is what the fallback policy makes of the outcome |
| `Scraper.ThreadedScraper.WaitForTurn` | threaded_scraper.py:77-111 | the clock moves on by exactly the throttle delay, both last-request times become the time of waking, and nothing else changes |
| `Scraper.ThreadedScraper.RecordOutcome` | threaded_scraper.py:113-166 | one more request, a success exactly when the result is usable; a usable result is cached with the current time; the returned record is the fallback policy's |
| `Scraper.ThreadedScraper.RunWorker` | threaded_scraper.py:216-225 | one worker's fetch stores its record under its ticker and touches no other result, cache entry or last-fetch time; a fresh hit stores the cached record and changes nothing else, not even the clock; otherwise the clock moves on by exactly the throttle delay and the call's duration, the ticker's last-fetch time and the last-request time become the time of waking, one request is counted (a success exactly when the reply is usable), the cache gets the reply stamped with its answer time when usable, and the record is the fallback policy's |
| `Scraper.ThreadedScraper.RunNext` | threaded_scraper.py:215-225 | running the next ticker of a shuffled sub-batch keeps the loop state: results and frames for the tickers so far, answers in order with the clock at the last, and, when the sub-batch is fetched live, each ticker's record, cache entry, exact wake-up time, last-fetch stamp and count at its position |
| `Scraper.ThreadedScraper.RunBatch` | threaded_scraper.py:213-235 | every ticker of a shuffled sub-batch gets a result; other results, cache entries and last-fetch times stay as they were; at most one request per ticker is counted; the answers never go back in time and the clock ends at the last one; when the sub-batch has no repeat and no fresh entry, the ticker at index `j` gets the fallback policy's record for the reply at dispatch position `first + j`, its cache entry is that reply stamped with its answer time when usable and unchanged otherwise, it wakes exactly the throttle delay (computed from its last-fetch time and the previous wake-up) after the previous answer, its last-fetch time is that wake-up, the last-request time ends at the last wake-up, and requests and successes are counted exactly |
| `Scraper.ThreadedScraper.PartitionByFreshness` | threaded_scraper.py:186-199 | the sweep yields the hits and the misses in input order and serves every hit its cached record |
| `Scraper.ThreadedScraper.ProcessSubBatch` | threaded_scraper.py:207-239 | the sub-batch is fetched in its shuffled order, with `RunBatch`'s per-ticker records, cache entries, exact wake-ups, last-fetch stamps, last-request time and counts when it is live; the clock then ends at the last answer plus 0.2 s (0.1 s fast) exactly when the sub-batch differs as a list from the last one, and plus nothing otherwise |
| `Scraper.ThreadedScraper.DispatchNext` | threaded_scraper.py:207-239 | one more sub-batch moves the dispatch state on: the misses so far in shuffled sub-batch order, their results, cache entries and last-fetch times, answers in order with the clock at the last one plus the pause before the next sub-batch, and, when the misses are live, each one's record, exact wake-up after the pause before its sub-batch and the throttle delay, last-fetch stamp and the exact counts |
| `Scraper.ThreadedScraper.DispatchMisses` | threaded_scraper.py:201-239 | every miss gets a result and the other results stay; only the misses' cache entries and last-fetch times change; the misses go to the quote source in the order of the shuffled sub-batches of `Chunks`; the answers never go back in time and the clock ends at the last one; when no miss repeats and none is fresh, each miss's record and cache entry are those of a live fetch at its dispatch position, each wakes exactly the pause before its sub-batch (first fetch only) plus the throttle delay after the previous answer, its last-fetch time is that wake-up, the last-request time is the last wake-up, and exactly one request per miss is counted, with a success per usable reply |
| `Scraper.ThreadedScraper.DispatchBatches` | threaded_scraper.py:207-239 | the loop over the sub-batches leaves the state `DispatchMisses` states, for any partition of the misses into non-empty sub-batches |
| `Scraper.ThreadedScraper.ServeBatch` | threaded_scraper.py:186-239 | the hits and misses are those of the sweep and add up to the input size; with a miss and a negative worker count it raises and changes nothing; with no miss the clock and the last-request time stand still; otherwise every input ticker gets a result, each hit its cached record, the answers come in order with the clock at the last, and, when no miss repeats, each miss gets the record, cache entry, exact wake-up, last-fetch stamp and count of its live fetch, with the last-request time at the last wake-up |
| `Scraper.ThreadedScraper.GetMultipleStockData` | threaded_scraper.py:168-259 | an empty list returns an empty result and changes nothing; with a miss and a negative worker count it raises the pool's error and changes nothing; with no miss no time passes and the last-request time stays; otherwise the result is the fetched records plus the metadata (elapsed time, count, mean time, hit and miss counts, mode), the batch timings are recorded, and the records, cache entries, wake-ups, stamps and counts are those `ServeBatch` states |
| `Scraper.ThreadedScraper.FinishBatch` | threaded_scraper.py:241-257 | the elapsed time is added to the total batch time and becomes the last batch time, the batch size is recorded, and the result is the records with the metadata entry; nothing else changes |
| `Scraper.ThreadedScraper.ClearCache` | threaded_scraper.py:261-265 | the cache is empty afterwards and nothing else changes |
| `Scraper.ThreadedScraper.GetStats` | threaded_scraper.py:267-282 | the report's counters are the statistics and add up; the average is 0 with no success, else the total batch time divided by the successes |
| `Scraper.ThreadedScraper.ResetStats` | threaded_scraper.py:284-296 | every counter and timing is zero and the last request time is now; the cache and the last-fetch times stay as they were |
| `Scraper.ThreadedScraper.GetCacheInfo` | threaded_scraper.py:298-317 | every cached ticker is reported with its age and the time left (never negative); it is reported fresh exactly when a lookup now would be a cache hit |
| `Forms.LeadingRun` | forms.py:24 | the greedy run of `[A-Za-z0-9\.]` from the start: all its characters are ticker characters and the one after it is not |
| `Forms.PatternMatchesIff` | forms.py:24 | the pattern matches exactly the strings of one or more ticker characters, optionally followed by one newline |
| `Forms.ValidateTicker` | forms.py:22-25 | the check passes exactly on those strings and otherwise fails with "Invalid ticker symbol format" |
| `Forms.ForeignCharacterFails` | forms.py:24-25 | any character other than a letter, digit or dot, except one final newline, makes the check fail |
| `Forms.TickerCharsPass` | forms.py:24 | a non-empty run of ticker characters passes, with or without one trailing newline |
| `Forms.PlainSymbolPasses` | forms.py:22-25 | "AAPL" and "AAPL\n" pass |
| `Forms.DottedSymbolPasses` | forms.py:22-25 | "BRK.B" passes |
| `Forms.RejectedExamples` | forms.py:22-25 | "BRK-B", the empty string and "AAPL\n\n" fail |
| `Forms.LoginValidIff` | forms.py:6-8 | the login form validates exactly when username and password both hold a character other than Python whitespace |
| `Forms.RegisterValidIff` | forms.py:12-15 | registration validates exactly when the username has content and 3 to 20 characters, the password has content and at least 6, and the confirmation has content and equals the password field's value |
| `Forms.TickerShapedHasContent` | forms.py:19-25 | a string the ticker check accepts always passes the required-data check and has at least one character |
| `Forms.AddTickerValidIff` | forms.py:18-25 | the add-ticker form validates exactly when the ticker passes the format check and has at most 10 characters |

## Left out

- Threads, the lock and the thread pool are left out. A sub-batch is fetched
  one ticker after another in its shuffled order, and results are recorded in
  that order rather than in completion order. Interleavings of concurrent
  fetches are not modelled.
- The worker-fault record of threaded_scraper.py:226-235 is left out. It is
  unreachable in the model, because a single fetch catches every exception of
  the quote source and never raises.
- A ticker that appears twice in one sub-batch is fetched twice in sequence.
  Its second fetch may then be a cache hit. Concurrently, both fetches could
  have gone to the quote source.
- The two `time.time()` readings at threaded_scraper.py:110-111 are one
  reading, the time of waking.
- `print` logging is left out, and so is the `:.1f` formatting of `age` and
  `time_left` in the cache report. The report carries the numbers themselves.
- `Scraper.ThreadedScraper.GetMultipleStockData` does not say that the
  "metadata" entry replaces the record of an input ticker named "metadata". It
  excludes that ticker from the per-ticker clauses and lets the metadata win.
- `Scraper.ThreadedScraper.GetMultipleStockData` states the records, cache
  entries, wake-ups and exact counts of the misses only when no miss repeats.
  With a repeated miss, it states that every ticker has a result, that the
  answers come in order, and bounds the requests by the number of misses. A
  repeated miss may be served from the cache the second time, in a later
  sub-batch.
- A wall clock that steps back is not modelled: the clock only moves forward.
  The non-negative batch timings of `Valid()` and the non-negative average
  of `Scraper.ThreadedScraper.GetStats` depend on that. With a clock set back
  during a batch, `elapsed_time` at threaded_scraper.py:242 is negative.
- `cache_ttl` is an `int` in the source and a `real` here. Nothing depends on
  the difference.
- scraper.py, the quote source itself, is not part of this model. It performs
  HTTP requests, HTML scraping and price formatting, and the model takes its
  replies as inputs.
- app.py, the Flask routes and the database are not part of this model. Its
  add-ticker route reads the request directly and never runs `AddTickerForm`
  validation.
- The internals of the form library are left out: field rendering, message
  text and CSRF. The validators appear only through their declared bounds and
  the library's rule that a failing `DataRequired` stops the chain.
