# Web crawler bookkeeping, modelled in Dafny

This project models the crawl bookkeeping of a breadth-first web crawler. Both
crawlers of the repository (the sequential `SingleThreaded.py` and the pooled
`MultiThreaded.py`) wrap four pieces of state around the network and HTML
libraries:

- a FIFO frontier of URL strings (`url_queue`);
- a visited collection used for deduplication (`visited_urls`);
- a page counter checked against a limit (`counter`, `pages_to_parse`);
- a frequency index `h1_word_frequency`. It maps each lowercased word to a map
  from URL to the count of heading tokens on that page that lowercase to that
  word.

The outside world is a page oracle `fetch: Url -> Response` (module `Web`).
For a URL it returns one of two things:

- `NetworkError`: the request raised;
- `Http(status, Page(links, headings))`: a response with its status code. The
  `links` are the anchor targets already resolved against the page, in
  document order. The `headings` are the whitespace-split tokens of every
  in-scope h1/h2/h3 element, one list per heading.

Lowercasing is an abstract parameter `lower: string -> string`.

Files:

- `web.dfy`: the oracle types.
- `frequency.dfy`: the index, with its one-token update `Bump`. It also has its
  per-page fold (`RecordTokens`, `RecordHeadings`) and the nested update loops
  (`AddTokens`, `AddHeadings`), plus the exact-count lemmas.
- `single_threaded.dfy` and `multi_threaded.dfy`: one per core file. Each has a
  pure state machine (`State`, `Extract`, `Step`/`Process`/`Batch`, `Run`) and
  lemmas about it. Each also has a `WebCrawler` class whose fields are the
  source's fields. The class methods (`ExtractPageInfo`, `ProcessUrl`,
  `Crawler`, ...) update those fields with the source's loops, and each is
  proved to leave the state that the pure function prescribes.
- `scenarios.dfy`: concrete crawls on small page graphs.

Behaviours of the code worth noting:

- The sequential crawler puts a URL in `visited_urls` only after a successful
  extraction. A URL whose extraction failed is counted again every time it is
  popped (`BrokenLinkCountedTwice`), so `len(visited_urls) <= counter` rather
  than equality.
- The pooled crawler keeps `visited_urls` as a list, not a set.
- A page counts as fetched only with status exactly 200, not any 2xx status.
- In the pooled crawler a request that raises makes `extract_page_info` return
  `None`, not `False`. The state effect is the same.
- There is no separate "empty batch" stop. With at least one worker, a batch
  drained from a non-empty frontier is never empty.

## Model

| member | source | states |
|---|---|---|
| Frequency.Bump | MultiThreaded.py:59-64 | one token adds exactly 1 to the (word, url) count and changes nothing else. The word and URL keys are created if missing, and positivity of all counts is kept |
| Frequency.RecordTokens | MultiThreaded.py:56-64 | the token loop of one heading never removes an entry: every word key and every URL key under a word survives |
| Frequency.RecordHeadings | MultiThreaded.py:54-64 | the heading loop of one page never removes an entry either |
| Frequency.RecordTokensCounts | MultiThreaded.py:56-64 | after one heading's tokens, each (word, u) count grew by the number of tokens lowercasing to the word if u is the page URL, and not otherwise |
| Frequency.RecordTokensKeys | MultiThreaded.py:59-64 | a word key or a (word, URL) key exists after one heading's tokens exactly when it existed before or received a count. Words no token lowers to keep their whole sub-map |
| Frequency.RecordTokensPositive | MultiThreaded.py:59-64 | if every stored count is at least 1 before one heading's tokens are recorded, it still is afterwards |
| Frequency.RecordTokensAppend | SingleThreaded.py:44-51 | recording two token sequences one after the other equals recording their concatenation (updates are additive) |
| Frequency.RecordHeadingsFlat | SingleThreaded.py:42-51 | the nested heading/token loops equal one loop over all heading tokens in document order |
| Frequency.HeadingsCounted | SingleThreaded.py:42-51 | page level: every (word, u) count grows by exactly that page's occurrences when u is the page URL and is unchanged otherwise. Words no token lowers to keep their entry. Counts stay positive |
| Frequency.AddTokens | MultiThreaded.py:56-64 | the inner loop over one heading's tokens leaves exactly the index `RecordTokens` prescribes |
| Frequency.AddHeadings | MultiThreaded.py:54-64 | the nested update loops leave exactly the index `RecordHeadings` prescribes |
| SingleThreaded.Extract | SingleThreaded.py:20-67 | returns True iff the response has status 200. On failure the state is unchanged. On success the links are appended to the frontier tail in document order, and the index gains exactly that page's heading counts. The visited set and counter are untouched |
| SingleThreaded.Step | SingleThreaded.py:78-86 | pops the head. An already visited URL is dropped with no other change. A new URL raises the counter by 1 whatever the outcome, enters the visited set only on success, and appends its links only on success. The index gains the counts of the newly visited page only |
| SingleThreaded.Run | SingleThreaded.py:78-86 | terminates by the measure (limit - counter, frontier length), since each step counts a page below the limit or shortens the frontier. The loop ends only with an empty frontier or a counter at the limit. The counter never decreases and never passes a limit it started below. The visited set only grows, by at most one URL per count, and every URL it gains had a successful extraction. Over the whole crawl the index gains exactly the heading counts of the newly visited pages, each page once, and counts stay positive |
| SingleThreaded.Reset | SingleThreaded.py:74-76 | the crawl starts from a frontier holding only the seed, no visited URL and counter 0, so at most counter URLs are visited. The index of earlier crawls is kept, not cleared |
| SingleThreaded.WebCrawler.constructor | SingleThreaded.py:11-18 | empty index and visited set, frontier holding the seed, counter 0, empty keyword dictionaries |
| SingleThreaded.WebCrawler.ExtractPageInfo | SingleThreaded.py:20-67 | the result and new fields are those of `Extract` on the old fields. The keyword dictionaries are untouched |
| SingleThreaded.WebCrawler.VisitNext | SingleThreaded.py:79-86 | one pass of the loop body leaves the fields `Step` prescribes, and the keyword dictionaries are untouched |
| SingleThreaded.WebCrawler.Crawler | SingleThreaded.py:69-86 | resets the frontier to the seed, the visited set to empty and the counter to 0, and keeps `h1_word_frequency`. It clears the keyword dictionaries. The final fields are `Run` of that state. It ends with an empty frontier or a counter at the limit, with 0 <= counter <= limit for a non-negative limit and at most counter visited URLs. The index gains exactly the heading counts of the visited pages |
| MultiThreaded.Extract | MultiThreaded.py:28-70 | a request that raises returns None and a non-200 status returns False, both with no change. A 200 returns True, appends all links in order with no duplicate check, and adds exactly that page's heading counts. The visited list and counter are untouched |
| MultiThreaded.Process | MultiThreaded.py:72-81 | marks the URL and raises the counter by 1 iff it was not yet visited, before and independently of extraction. An already visited URL leaves the whole state unchanged. Keeps counter equal to the length of the visited list with no duplicates |
| MultiThreaded.ProcessAll | MultiThreaded.py:95 | a batch raises the counter by at most its length. If the counter did not move, the state is unchanged. The old frontier and visited list stay as prefixes. The visited URLs afterwards are exactly the old ones plus the batch's URLs. The index gains exactly the counts of the newly visited pages. The invariants are kept |
| MultiThreaded.ProcessAllCounter | MultiThreaded.py:72-81 | from a consistent state a batch raises the counter by exactly the number of its distinct URLs that were not visited before |
| MultiThreaded.ProcessAllFrontier | MultiThreaded.py:72-81 | a batch appends to the frontier exactly the links of the pages it newly visits, in visiting order and with duplicates, and nothing else |
| MultiThreaded.Batch | MultiThreaded.py:89-95 | drains min(len(url_queue), workers) URLs from the head. The rest of the frontier stays at the head in order, the visited URLs afterwards are exactly the old ones plus the drained ones, and the counter grows by at most the batch size. If it did not grow, the frontier is exactly the undrained rest. The invariants and the index accounting are kept |
| MultiThreaded.BatchFrontier | MultiThreaded.py:89-95 | the frontier after one batch is the undrained rest followed by exactly the links of the newly visited pages, in visiting order |
| MultiThreaded.BatchCounter | MultiThreaded.py:89-95 | from a consistent state one batch raises the counter by exactly the number of distinct drained URLs not visited before |
| MultiThreaded.Run | MultiThreaded.py:88-109 | terminates by the measure (limit - counter, frontier length), since a batch either counts new pages or only drains. The loop ends only with an empty frontier or a counter at or above the limit. The counter never decreases and ends at most workers - 1 above a limit it started below, or one batch above a start already at the limit. counter equals len(visited_urls) throughout, no URL is visited twice, and the visited list only grows at its end. The index gains exactly the heading counts of the URLs visited during the crawl, each page once, and counts stay positive |
| MultiThreaded.Init | MultiThreaded.py:18-22 | the starting state holds only the seed in the frontier, has an empty visited list and index, and satisfies the invariant that the counter equals the number of visited URLs, all distinct |
| MultiThreaded.WebCrawler.constructor | MultiThreaded.py:15-22 | the frontier holds the seed, the visited list is empty, the counter is 0 and the index is empty. This state satisfies the invariants |
| MultiThreaded.WebCrawler.ExtractPageInfo | MultiThreaded.py:28-70 | the result and new fields are those of `Extract` on the old fields |
| MultiThreaded.WebCrawler.ProcessUrl | MultiThreaded.py:72-81 | the new fields are those of `Process` on the old fields |
| MultiThreaded.WebCrawler.DrainBatch | MultiThreaded.py:89-93 | returns the first min(len, workers) URLs in FIFO order and leaves exactly the rest in the frontier. Nothing else changes |
| MultiThreaded.WebCrawler.RunBatch | MultiThreaded.py:92-95 | the new fields are those of `Batch` on the old fields |
| MultiThreaded.WebCrawler.Crawler | MultiThreaded.py:83-109 | the final fields are `Run` of the old ones. It ends with an empty frontier or the limit reached. The counter ends at most workers - 1 above the limit it started below. The invariants are kept, and the index gains exactly the heading counts of the newly visited pages |
| Scenarios.LoneSeed | MultiThreaded.py:88-109 | a seed with no links: counter 1, empty frontier, and an index holding only the seed's heading words |
| Scenarios.TwoPageCycle | MultiThreaded.py:74-78 | A and B linking to each other with limit 10: counter 2, each page visited once |
| Scenarios.MissingSeed | MultiThreaded.py:39-40 | a 404 seed: counter 1, empty frontier, empty index |
| Scenarios.BrokenLinkCountedTwice | SingleThreaded.py:81-86 | sequential crawler: a failing URL linked twice is counted twice and never visited |
| Scenarios.BrokenLinkCountedOnce | MultiThreaded.py:74-81 | pooled crawler on the same pages: the failing URL is counted once |
| Scenarios.LimitOvershoot | MultiThreaded.py:88-109 | limit 3 with 2 workers: the third batch starts at counter 2 and takes two new pages, so the crawl stops at counter 4 with a page still queued. The overshoot bound of `Run` is reached |

## Left out

- HTTP fetching (`requests.get` and its User-Agent header) is replaced by the oracle `fetch`. The oracle is a fixed function, so a URL fetched twice gets the same answer both times.
- HTML parsing is left out and the oracle supplies parsed pages. This covers BeautifulSoup, the heading filter that excludes header/footer/nav, `urljoin` and `str.split`. An exception raised while parsing a 200 page is not modelled.
- Lowercasing is an abstract parameter; `str.lower` semantics are not modelled.
- Concurrency is modelled as one schedule. The `multiprocessing.Manager` proxies, the `Pool`, `starmap` and the three locks are not modelled. A batch runs its units one after the other in list order, and each locked region is one atomic step. Other interleavings are not modelled, and neither is the order among links that concurrent workers append.
- The number of workers (`multiprocessing.cpu_count()`) is a parameter, required to be at least 1. With 0 workers no batch makes progress, so while the counter is below the limit the source never stops.
- The counter is an unbounded integer. A manager `Value` stores a plain Python integer, so it does not wrap.
- Timing and pages-per-second figures are not modelled; they are floating point and clock reads. This includes the division by a zero `time_taken` when the clock does not advance during a batch.
- Reporting is not modelled: prints, the JSON dump, matplotlib and pandas tables. This includes the possible division by zero on an empty final frontier when the crawl ratio is printed.
- The argparse command lines of both files are not modelled.
- The sequential `__init__` reads a module-level `seed_url`; the constructor takes it as a parameter instead.
