# Thai gold-price scraper: a Dafny model of its core

The modelled program scrapes gold prices from the Gold Traders Association
site and from five retail gold shops, keeps the results in a process-wide
cache, and serves that cache through a small JSON API with `Cache-Control`
headers. Its core is modelled here with the browser, the clock and the web
framework abstracted away:

- **Market hours** (`market.dfy`): `is_market_open` maps a Thai-local timestamp to
  `(open, status)`. It is closed all day Sunday. Every other day, Saturday
  included, it is open from 09:00:10 to 17:30:10, inclusive at both ends. The
  timestamp keeps microseconds, as `datetime.time` does, so 17:30:10.000001 is
  already closed.
- **Row parsing** (`tables.dfy`, `text.dfy`): a scraped table is a sequence of rows of
  cell texts. Gold rows need at least 10 cells, percent rows at least 4 and
  weight rows at least 3; shorter rows are skipped. Each kept row becomes a
  record read from fixed columns, every field passed through Python's
  `str.strip()`. A gold record's `change` first has its line feeds removed.
- **Cache and scheduler** (`cache.dfy`): `GLOBAL_CACHE` is the class `GoldCache`,
  with one method per scrape step, plus `update_all_data`, one scheduler tick,
  a run of ticks, and start-up. Each method is proved equal to a pure function
  on `CacheState`, and the lemmas are stated about those functions. A parsed
  list replaces its field only when it is non-empty. The `last_updated` stamp
  is written whenever a browsing session opened. A tick writes the market
  status and updates only when the market is open. The boot update ignores the
  calendar.
- **Read API** (`api.dfy`): the six GET endpoints as projections of the cache.
  `/api/latest` serves the last gold record. An empty gold list gives
  `waiting_for_data` with no `Cache-Control` header.
- **Shop fan-out** (`shops.dfy`): the five extractors are described as data
  (shop name, URL, awaited selector, price selectors, MTS Gold's optional
  jewelry element). `safe_scrape` turns every failure into None and closes the
  handle it was given. `get_all_shops_data` keeps the non-None results, in
  registration order. The handle passed to `safe_scrape` is the browsing
  context all five tasks share. So the first task to finish closes it, and
  every task still running then fails: at most one record survives (see
  "## Findings"). The tasks' finishing order is a parameter. A corrected
  fan-out, in which each task closes only its own page, is modelled beside it.

Inputs the source reads from the outside world are parameters:

- the timestamp (weekday, hour, minute, second, microsecond);
- whether the browser exists;
- for each page, the rows or elements it yielded, or None where navigation, a
  selector wait or a text read raised;
- the `last_updated` string, which the model treats as opaque.

Saturday follows the same hours as Monday to Friday. `main.py` never calls
`get_all_shops_data`, so shop results are never cached.

## Model

| member | source | states |
|---|---|---|
| `Text.Strip` | main.py:79-85 | `str.strip()`: neither end of the result is whitespace, the result holds only characters of the input, and an already-trimmed string is unchanged |
| `Text.StripSlice` | main.py:79-85 | `strip()` returns the slice of the input that starts at its first non-whitespace character; everything before and after that slice is whitespace |
| `Text.StripIdempotent` | main.py:79-85 | stripping a stripped string changes nothing |
| `Text.TrimStart` | main.py:79 | the leading-whitespace half of `strip()`: a suffix of the input that does not start with whitespace |
| `Text.TrimStartDropsSpaces` | main.py:79 | the prefix that the leading half drops is all whitespace |
| `Text.TrimEnd` | main.py:79 | the trailing-whitespace half of `strip()`: a prefix of the input that does not end with whitespace |
| `Text.TrimEndDropsSpaces` | main.py:79 | the suffix that the trailing half drops is all whitespace |
| `Text.RemoveAll` | main.py:85 | `replace('\n', '')`: the result has no occurrence of the character, is no longer than the input, and a string without the character is unchanged |
| `Text.RemoveAllCounts` | main.py:85 | every other character occurs in the result exactly as often as in the input |
| `Text.RemoveAllAppend` | main.py:85 | the remaining characters keep their order: the removal distributes over concatenation |
| `Text.RemoveAllChar` | main.py:85 | on a single character, the removed character gives the empty string and any other character is kept |
| `Market.IsMarketOpen` | main.py:31-47 | `open` holds exactly when the status is "Open"; Sunday gives `(false, "Closed (Sunday)")` at every time of day; no other day gives the Sunday status |
| `Market.TimeLeMicros` | main.py:44 | Python's lexicographic `datetime.time` comparison agrees with comparing microseconds since midnight, on valid times |
| `Market.MarketHours` | main.py:40-47 | on weekdays 0-5 the market is open iff 09:00:10.000000 <= time <= 17:30:10.000000, both inclusive; otherwise the status is "Closed (Outside Hours)" |
| `Market.SaturdayLikeWeekday` | main.py:34-45 | Saturday gets exactly the answer Monday to Friday get at the same time |
| `Market.MarketBoundaries` | main.py:41-44 | 09:00:09.999999 and 17:30:10.000001 are closed; 09:00:10 and 17:30:10 are open |
| `Tables.Kept` | main.py:74-76 | the rows with at least `n` cells: no more rows than the input, each with at least `n` cells |
| `Tables.KeptSound` | main.py:74-76 | every kept row is a row of the input table |
| `Tables.KeptAppend` | main.py:74-76 | the row filter preserves order: it distributes over concatenation |
| `Tables.KeptComplete` | main.py:76 | every input row with at least `n` cells is kept |
| `Tables.KeptEmptyIff` | main.py:76 | nothing is kept exactly when every row has fewer than `n` cells |
| `Tables.RecordsOfKept` | main.py:73-86 | the parsed list is the kept rows mapped through the record builder: same length, record `i` built from kept row `i` |
| `Tables.RecordsAppend` | main.py:73-86 | parsing preserves row order: the records of `a + b` are those of `a` followed by those of `b` |
| `Tables.RecordsMembership` | main.py:73-86 | each record is built from some input row with enough cells, and each such row yields a record |
| `Tables.RecordsEmptyIff` | main.py:87 | the parsed list is empty exactly when no row has enough cells, which is the case in which the cache field is left alone |
| `Tables.RecordsLast` | main.py:73-86 | the last record is built from the last row that has enough cells |
| `Tables.GoldOfClean` | main.py:78-86 | a gold record's `change` (cell 9) holds no line feed, and none of its seven fields has surrounding whitespace |
| `Tables.GoldTableClean` | main.py:73-86 | every record of a parsed gold table has a `change` without line feeds and trimmed fields |
| `Tables.ParseRows` | main.py:73-86 | the `for row in rows` loop, also used for lines 100-109 and 117-126, returns exactly the filter-then-map reference list |
| `Cache.UpdateWithoutSession` | main.py:57-58 | without a browser, or when the context or page cannot be opened, an update leaves the cache unchanged |
| `Cache.UpdateStamps` | main.py:133 | once a session opened, `last_updated` becomes the stamp even if both steps failed; the market status is never touched |
| `Cache.UpdateReplacesOrRetains` | main.py:68-128 | each list becomes its parsed table, non-empty, exactly when that step ran and had a long-enough row; otherwise it keeps its previous value exactly |
| `Cache.UpdateIdempotent` | main.py:52-139 | repeating an update with the same inputs changes nothing more |
| `Cache.UpdateKeepsData` | main.py:87-127 | an update never empties a list that held data |
| `Cache.TickStatus` | main.py:143-149 | a tick sets `market_status` to the calendar rule's status; on a closed market, and so on every Sunday, it changes nothing else |
| `Cache.TicksKeepData` | main.py:141-151 | over any run of ticks, a list that held data still holds data |
| `Cache.ClosedTicksKeepData` | main.py:146-149 | ticks on which the market is closed leave the three lists and the stamp unchanged |
| `Cache.BootStamps` | main.py:167-168 | the start-up update keeps the status "Initializing..." and stamps exactly when a session opened, without any calendar test |
| `Cache.GoldCache.constructor` | main.py:12-18 | the cache starts with empty lists, no stamp and the status "Initializing..." |
| `Cache.GoldCache.ScrapeGoldBar` | main.py:68-89 | step 1 overwrites `goldBar` with the parsed list when it is non-empty and changes nothing else |
| `Cache.GoldCache.ScrapePercent` | main.py:97-111 | step 2.1 does the same for `jewelryPercent` |
| `Cache.GoldCache.ScrapeWeight` | main.py:114-128 | step 2.2 does the same for `jewelryWeight` |
| `Cache.GoldCache.ScrapeDailyPrices` | main.py:92-131 | step 2 runs both sub-steps, or neither when `/dailyprices` did not load |
| `Cache.GoldCache.UpdateAllData` | main.py:52-139 | the new cache is the update function of the old one |
| `Cache.GoldCache.Tick` | main.py:143-151 | one loop iteration writes the status and updates only when the market is open |
| `Cache.GoldCache.RunScheduler` | main.py:141-151 | the loop over a finite run of ticks leaves the cache as the ticks applied in order |
| `Cache.GoldCache.Boot` | main.py:161-170 | start-up runs one unconditional update and then the scheduler |
| `Api.ReadRoot` | main.py:184-192 | `/` returns the status and the stamp with the ten-second header |
| `Api.GetLatest` | main.py:194-217 | an empty gold list gives `waiting_for_data` with the status and no header; otherwise the last record, the stamp and the sixty-second header |
| `Api.GetGoldBuyOnly` | main.py:219-233 | waiting with no header exactly when the gold list is empty; otherwise the stamp and the sixty-second header |
| `Api.GetHistory` | main.py:235-239 | the whole gold list with `count` equal to its length, always with the sixty-second header |
| `Api.GetPercent` | main.py:241-245 | the whole percent list with `count` equal to its length |
| `Api.GetWeight` | main.py:247-251 | the whole weight list with `count` equal to its length |
| `Api.ListOf` | main.py:239 | a list body's `count` is the length of its `data` |
| `Api.GoldAgreesWithLatest` | main.py:219-233 | `/api/gold` waits exactly when `/api/latest` does, sets the same header, and returns the latest record's two buy prices |
| `Api.LatestIsLastOfHistory` | main.py:215 | a successful `/api/latest` returns the last element of `/api/history`, whose count is then positive |
| `Api.LatestAfterUpdate` | main.py:200-217 | after an update whose price list has a row of at least ten cells, `/api/latest` serves the newest record of the freshly parsed list (with `Tables.RecordsLast`, the record of the last such row), stamped with that update's time and cached for a minute |
| `Api.LatestStaysAvailable` | main.py:202-204 | once `/api/latest` has served data it never returns to `waiting_for_data`, whatever ticks follow |
| `Shops.Scrape` | shop.py:19-96 | an extractor succeeds exactly when its page loaded, the awaited element is visible and both price elements exist. The record carries the shop's name and the two elements' texts; only MTS Gold's has `jewelry_baht`, which is null exactly when its element is not visible |
| `Shops.Position` | shop.py:103-109 | a name's first position in the task list: the task there has that name and no earlier task has it; the list's length when no task has it |
| `Shops.MtsJewelryBaht` | shop.py:46 | MTS Gold's `jewelry_baht` is the text of `#sell965gold` when that element is visible and null otherwise |
| `Shops.Successes` | shop.py:117 | the `None` filter: no longer than its input, and `x` is kept exactly when `Some(x)` is among the results |
| `Shops.SuccessesAppend` | shop.py:117 | the filter preserves order: it distributes over concatenation |
| `Shops.Gather` | shop.py:103-112 | outcome `i` of the gathered tasks is task `i` applied to its page, one outcome per task, in task order |
| `Shops.GatherWithout` | shop.py:8-16 | in the corrected fan-out, where each task closes only its own page, a page that fails turns only its own task's outcome into None |
| `Shops.RegistryRanks` | shop.py:103-109 | the task at position `j` is the shop of rank `j`, so the five registrations carry five different names |
| `Shops.AllShopsExactly` | shop.py:103-117 | for any task outcomes, the aggregate holds exactly the records some extractor produced, at most five, each under a registered shop name |
| `Shops.SuccessesSorted` | shop.py:117 | if the non-None results rise in registration rank, so does the filtered list |
| `Shops.AllShopsOrdered` | shop.py:103-117 | the aggregate lists shops in registration order, with no shop twice |
| `Shops.SiblingIsolation` | shop.py:8-16 | in the corrected fan-out, when one shop's page fails, the aggregate loses that shop's record and keeps every other shop's record |
| `Shops.SuccessesAllSome` | shop.py:117 | the filter drops nothing when every outcome is a record |
| `Shops.SuccessesOfOne` | shop.py:117 | the filter keeps at most one record when all outcomes but one are None |
| `Shops.SharedContextKeepsOnlyFirst` | shop.py:8-16 | once the first task to finish has closed the shared context, the aggregate holds at most one record, the first finisher's |
| `Shops.LivePageScrapes` | shop.py:19-96 | every extractor succeeds on a page where all its selectors find visible elements |
| `Shops.SharedContextLosesShops` | shop.py:103-114 | with five pages on which every extractor succeeds, independent tasks would serve five records, but the shared context serves exactly one, whichever task finishes first |
| `Shops.SafeScrape` | shop.py:8-16 | returns the extractor's record, or None where it raised (always so once the context its page comes from is closed), and closes its handle exactly once on either path |
| `Shops.GetAllShopsData` | shop.py:99-117 | as written, with the tasks run in their finishing order: the result is the aggregate in which only the first finisher kept its page; the fresh shared context is closed, receiving six `close()` calls, five from `safe_scrape` and one at line 114 |
| `Shops.GetAllShopsDataOwnPages` | shop.py:99-117 | the corrected fan-out: whatever order the tasks finish in, the result is every extractor's own outcome, filtered, and the context is closed once, at the end |

## Findings

| source | as written | input that shows it | evidently intended | confidence | as-written member | corrected member |
|---|---|---|---|---|---|---|
| shop.py:8-16, 103-114 | `safe_scrape` closes its `page` argument in `finally`, and all five tasks are given the shared context as that argument. So the first task to finish closes the context under the other four, whose next page call raises | five shop pages that each load with all of the extractor's selectors visible: `get_all_shops_data` returns one record instead of five, whatever the finishing order | each task closes only the page it opened, and the context is closed once, at line 114, so every shop whose page works is served | high; not executed | `Shops.SharedContextLosesShops` | `Shops.GetAllShopsDataOwnPages` |

## Left out

- Browser automation (navigation, selector waits, locators, `inner_text`, `is_visible`, `new_context`, `new_page`) is a foreign library. It is replaced by its results: rows of cell texts, or a page's elements with text and visibility, or None where the library raised. A text read that raises part-way through a step's loop is therefore the same as a failed step: nothing is written.
- Shops.Scrape: assumes each selector matches at most one element. Playwright's strict-mode error for a selector with several matches is not modelled, nor the difference it makes that Hua Seng Heng reads `.first`.
- Timeouts, the fixed 10-second wait in `scrape_ausiris`, `asyncio.gather`, `create_task` and `asyncio.sleep` are timing and concurrency. They are not modelled. The fan-out runs its tasks one after the other in their finishing order, which is a parameter, and places each outcome at its task's position, the order `gather` returns. Which task finishes first, and so which shop survives the shared-context close, is therefore an input rather than something the model predicts; it does not show that `scrape_ausiris`, with its 10-second wait, is unlikely ever to finish first.
- Shops.GetAllShopsData: treats every task that finishes after the first one as failed. In the real program, a task whose last page call completes while the first task's `close()` is still in flight may keep its record; that race is not modelled.
- Shops.SafeScrape: a second `close()` on an already-closed context is modelled as doing nothing; its effect on an in-flight `close()` is not modelled.
- Cache.GoldCache.UpdateAllData: the browsing context that `update_all_data` opens and closes (lines 62-65 and 136) is not modelled, so the model does not show that the context stays open when `new_page` raises.
- Shops.GetAllShopsData: assumes `browser.new_context` succeeds; when it raises, the exception leaves `get_all_shops_data`, and that path is not modelled.
- `get_thai_time` reads the clock and `strftime` formats it. The timestamp is a parameter and the `last_updated` string is opaque.
- Cache.GoldCache.RunScheduler: `run_scheduler` loops forever; the model runs it over a finite sequence of ticks.
- The FastAPI and uvicorn wiring, response objects, JSON key spelling, the `lifespan` shutdown of the browser, and logging output are left out. The scraper's log lines are all output and have no effect on the cache.
- `verify_scraping.py` is a manual harness doing live I/O, and it imports `scrape_all_shops`, which `shop.py` does not define; it is not modelled.
