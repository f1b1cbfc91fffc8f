/** The pooled crawler: batches of up to `workers` URLs are drained from the
    frontier, each URL is marked visited and counted before it is fetched, and
    the page limit is checked only after a whole batch. The pool's `starmap`
    is modelled by one legal schedule: the units of a batch run one after the
    other in list order, each locked region being one atomic step. */
module MultiThreaded {
  import opened Web
  import opened Frequency

  /** The shared bookkeeping of a `WebCrawler`: `url_queue`, the list
      `visited_urls`, `counter.value` and `h1_word_frequency`. */
  datatype State = State(queue: seq<Url>, visited: seq<Url>, counter: int, index: Index)

  /** The distinct URLs of a list. */
  function Elements(v: seq<Url>): set<Url> {
    set u | u in v
  }

  /** No URL is listed twice. */
  ghost predicate Distinct(v: seq<Url>) {
    forall i, j :: 0 <= i < j < |v| ==> v[i] != v[j]
  }

  /** The invariant `process_url` keeps: the counter is the number of visited
      URLs, and none of them is visited twice. */
  ghost predicate Consistent(s: State) {
    s.counter == |s.visited| && Distinct(s.visited)
  }

  function Min(a: int, b: int): int {
    if a <= b then a else b
  }

  /** `extract_page_info(url)`: a request that raises returns None, a status
      other than 200 returns False, and neither changes anything; otherwise
      every link is appended to the frontier in document order, the headings
      are counted under `url`, and the result is True. */
  function Extract(s: State, url: Url, fetch: Url -> Response, lower: string -> string): (res: (Option<bool>, State))
    ensures res.0 == if fetch(url).NetworkError? then None else Some(Succeeded(fetch(url)))
    ensures !Succeeded(fetch(url)) ==> res.1 == s
    ensures res.1.queue == s.queue + PageLinks(fetch(url))
    ensures res.1.visited == s.visited && res.1.counter == s.counter
    ensures Accounts(s.index, res.1.index, {url}, fetch, lower)
    ensures Positive(s.index) ==> Positive(res.1.index)
  {
    match fetch(url)
    case NetworkError => (None, s)
    case Http(status, page) =>
      if status != OK_STATUS then (Some(false), s)
      else
        HeadingsCounted(s.index, url, page.headings, lower);
        (Some(true), s.(queue := s.queue + page.links, index := RecordHeadings(s.index, url, page.headings, lower)))
  }

  /** `process_url(url)`: the atomic mark-if-new appends `url` to the visited
      list and raises the counter exactly when `url` was not yet visited; only
      then is the page extracted, and the count stands whatever the outcome. */
  function Process(s: State, url: Url, fetch: Url -> Response, lower: string -> string): (r: State)
    ensures url in s.visited ==> r == s
    ensures r.visited == if url in s.visited then s.visited else s.visited + [url]
    ensures r.counter == s.counter + (if url in s.visited then 0 else 1)
    ensures r.queue == s.queue + (if url in s.visited then [] else PageLinks(fetch(url)))
    ensures Accounts(s.index, r.index, Elements(r.visited) - Elements(s.visited), fetch, lower)
    ensures Positive(s.index) ==> Positive(r.index)
    ensures Consistent(s) ==> Consistent(r)
  {
    if url !in s.visited then
      var marked := s.(visited := s.visited + [url], counter := s.counter + 1);
      var r := Extract(marked, url, fetch, lower).1;
      assert Elements(r.visited) - Elements(s.visited) == {url};
      r
    else s
  }

  /** Two stretches of a crawl, each accounting for the URLs it newly
      visited, together account for all URLs visited over both. */
  lemma AccountsChain(s: State, t: State, r: State, fetch: Url -> Response, lower: string -> string)
    requires Elements(s.visited) <= Elements(t.visited) <= Elements(r.visited)
    requires Accounts(s.index, t.index, Elements(t.visited) - Elements(s.visited), fetch, lower)
    requires Accounts(t.index, r.index, Elements(r.visited) - Elements(t.visited), fetch, lower)
    ensures Accounts(s.index, r.index, Elements(r.visited) - Elements(s.visited), fetch, lower)
  {
  }

  /** `pool.starmap(process_url, ...)` over one batch, the units in list order. */
  function ProcessAll(s: State, urls: seq<Url>, fetch: Url -> Response, lower: string -> string): (r: State)
    ensures s.counter <= r.counter <= s.counter + |urls|
    ensures r.counter == s.counter ==> r == s
    ensures s.queue <= r.queue && s.visited <= r.visited
    ensures forall u :: u in urls ==> u in r.visited
    ensures Elements(r.visited) == Elements(s.visited) + Elements(urls)
    ensures Accounts(s.index, r.index, Elements(r.visited) - Elements(s.visited), fetch, lower)
    ensures Positive(s.index) ==> Positive(r.index)
    ensures Consistent(s) ==> Consistent(r)
  {
    if urls == [] then s
    else
      var front := urls[..|urls| - 1];
      var t := ProcessAll(s, front, fetch, lower);
      var r := Process(t, urls[|urls| - 1], fetch, lower);
      assert forall u :: u in urls ==> u in front || u == urls[|urls| - 1];
      assert Elements(urls) == Elements(front) + {urls[|urls| - 1]};
      assert Elements(r.visited) == Elements(t.visited) + {urls[|urls| - 1]};
      AccountsChain(s, t, r, fetch, lower);
      r
  }

  /** A duplicate-free list has as many distinct URLs as entries. */
  lemma {:induction false} DistinctElements(v: seq<Url>)
    requires Distinct(v)
    ensures |Elements(v)| == |v|
  {
    if v != [] {
      var front := v[..|v| - 1];
      assert Distinct(front);
      assert Elements(v) == Elements(front) + {v[|v| - 1]};
      assert v[|v| - 1] !in Elements(front);
      DistinctElements(front);
    }
  }

  /** Between two consistent states whose visited URLs differ by `added`, the
      counter grew by the number of URLs of `added` that are new. */
  lemma CountedNew(s: State, r: State, added: set<Url>)
    requires Consistent(s) && Consistent(r)
    requires Elements(r.visited) == Elements(s.visited) + added
    ensures r.counter == s.counter + |added - Elements(s.visited)|
  {
    DistinctElements(s.visited);
    DistinctElements(r.visited);
    assert Elements(r.visited) == Elements(s.visited) + (added - Elements(s.visited));
  }

  /** From a consistent state a batch raises the counter by exactly the number
      of its distinct URLs that were not visited before. */
  lemma ProcessAllCounter(s: State, urls: seq<Url>, fetch: Url -> Response, lower: string -> string)
    requires Consistent(s)
    ensures ProcessAll(s, urls, fetch, lower).counter == s.counter + |Elements(urls) - Elements(s.visited)|
  {
    CountedNew(s, ProcessAll(s, urls, fetch, lower), Elements(urls));
  }

  /** A batch appends to the frontier exactly the links of the pages it newly
      visited, in the order they were visited, and nothing else. */
  lemma {:induction false} ProcessAllFrontier(s: State, urls: seq<Url>, fetch: Url -> Response, lower: string -> string)
    ensures var r := ProcessAll(s, urls, fetch, lower);
            |s.visited| <= |r.visited| && r.queue == s.queue + LinksOf(r.visited[|s.visited|..], fetch)
  {
    if urls == [] {
      assert s.visited[|s.visited|..] == [];
    } else {
      var u := urls[|urls| - 1];
      var t := ProcessAll(s, urls[..|urls| - 1], fetch, lower);
      ProcessAllFrontier(s, urls[..|urls| - 1], fetch, lower);
      if u !in t.visited {
        FrontierStep(s.queue, |s.visited|, t.visited, t.queue, u, fetch);
      }
    }
  }

  /** One batch leaves the undrained rest of the frontier followed by exactly
      the links of the pages it newly visited, in the order they were visited. */
  lemma BatchFrontier(s: State, workers: nat, fetch: Url -> Response, lower: string -> string)
    ensures var r := Batch(s, workers, fetch, lower);
            |s.visited| <= |r.visited|
            && r.queue == s.queue[Min(|s.queue|, workers)..] + LinksOf(r.visited[|s.visited|..], fetch)
  {
    var k := Min(|s.queue|, workers);
    ProcessAllFrontier(s.(queue := s.queue[k..]), s.queue[..k], fetch, lower);
  }

  /** One iteration of the `while True` loop of `crawler` without its exit
      tests: the first `min(len(url_queue), workers)` URLs are removed from the
      head in FIFO order and processed; the rest of the frontier stays at the
      head, in order, ahead of any link the batch discovers. */
  function Batch(s: State, workers: nat, fetch: Url -> Response, lower: string -> string): (r: State)
    ensures var k := Min(|s.queue|, workers);
            && s.queue[k..] <= r.queue
            && (forall u :: u in s.queue[..k] ==> u in r.visited)
            && s.counter <= r.counter <= s.counter + k
            && (r.counter == s.counter ==> r.queue == s.queue[k..])
            && Elements(r.visited) == Elements(s.visited) + Elements(s.queue[..k])
    ensures s.visited <= r.visited
    ensures Accounts(s.index, r.index, Elements(r.visited) - Elements(s.visited), fetch, lower)
    ensures Positive(s.index) ==> Positive(r.index)
    ensures Consistent(s) ==> Consistent(r)
  {
    var k := Min(|s.queue|, workers);
    ProcessAll(s.(queue := s.queue[k..]), s.queue[..k], fetch, lower)
  }

  /** From a consistent state one batch raises the counter by exactly the
      number of distinct drained URLs that were not visited before. */
  lemma BatchCounter(s: State, workers: nat, fetch: Url -> Response, lower: string -> string)
    requires Consistent(s)
    ensures Batch(s, workers, fetch, lower).counter
            == s.counter + |Elements(s.queue[..Min(|s.queue|, workers)]) - Elements(s.visited)|
  {
    CountedNew(s, Batch(s, workers, fetch, lower), Elements(s.queue[..Min(|s.queue|, workers)]));
  }

  /** The `while True` loop of `crawler`: stop on an empty frontier before a
      batch, or on a counter at or above `pagesToParse` after one. A batch
      either raises the counter toward the limit or, when every URL in it was
      already visited, shrinks the frontier without adding to it.

      The loop stops only on an empty frontier or on reaching the limit. As the
      limit is checked only between batches, the counter can overshoot it by
      less than one batch: it ends at most `workers - 1` above a limit it
      started below (one batch above a start already past it), and never
      decreases. The counter stays the number of visited URLs, no URL is
      visited (so fetched) twice, and the visited list only grows at its
      end. The frequency index gains exactly the heading counts of the URLs
      visited during the crawl, each page once, and nothing else; stored counts
      stay positive. */
  function Run(s: State, pagesToParse: int, workers: nat, fetch: Url -> Response, lower: string -> string): (r: State)
    requires workers >= 1
    ensures r.queue == [] || r.counter >= pagesToParse
    ensures s.counter <= r.counter <= (if s.counter < pagesToParse then pagesToParse - 1 else s.counter) + workers
    ensures s.visited <= r.visited
    ensures Consistent(s) ==> Consistent(r)
    ensures Accounts(s.index, r.index, Elements(r.visited) - Elements(s.visited), fetch, lower)
    ensures Positive(s.index) ==> Positive(r.index)
    decreases pagesToParse - s.counter, |s.queue|
  {
    if s.queue == [] then s
    else
      var t := Batch(s, workers, fetch, lower);
      if t.counter >= pagesToParse then t
      else
        var r := Run(t, pagesToParse, workers, fetch, lower);
        AccountsChain(s, t, r, fetch, lower);
        r
  }

  /** The state `__init__(seed_url)` sets up: it satisfies the invariant the
      crawl keeps, and its index is empty. */
  function Init(seed_url: Url): (r: State)
    ensures r.queue == [seed_url] && Consistent(r) && r.visited == [] && r.index == map[]
  {
    State([seed_url], [], 0, map[])
  }

  class WebCrawler {
    var url_queue: seq<Url>
    var visited_urls: seq<Url>
    var counter: int
    var h1_word_frequency: Index

    /** The shared fields as a `State`. */
    function Snapshot(): State
      reads this
    {
      State(url_queue, visited_urls, counter, h1_word_frequency)
    }

    /** `__init__(seed_url)`; the manager proxies and locks are not modelled. */
    constructor(seed_url: Url)
      ensures Snapshot() == Init(seed_url)
      ensures Consistent(Snapshot()) && Positive(h1_word_frequency)
    {
      url_queue := [seed_url];
      visited_urls := [];
      counter := 0;
      h1_word_frequency := map[];
    }

    method ExtractPageInfo(url: Url, fetch: Url -> Response, lower: string -> string) returns (result: Option<bool>)
      modifies this
      ensures (result, Snapshot()) == Extract(old(Snapshot()), url, fetch, lower)
    {
      var response := fetch(url);
      if response.NetworkError? {
        return None;
      }
      if response.status != OK_STATUS {
        return Some(false);
      }
      var all_page_links := response.page.links;
      for i := 0 to |all_page_links|
        invariant url_queue == old(url_queue) + all_page_links[..i]
        invariant visited_urls == old(visited_urls) && counter == old(counter)
        invariant h1_word_frequency == old(h1_word_frequency)
      {
        url_queue := url_queue + [all_page_links[i]];
      }
      assert all_page_links[..|all_page_links|] == all_page_links;
      h1_word_frequency := AddHeadings(h1_word_frequency, url, response.page.headings, lower);
      return Some(true);
    }

    method ProcessUrl(new_url: Url, fetch: Url -> Response, lower: string -> string)
      modifies this
      ensures Snapshot() == Process(old(Snapshot()), new_url, fetch, lower)
    {
      var shouldVisit := false;
      if new_url !in visited_urls {
        shouldVisit := true;
        visited_urls := visited_urls + [new_url];
        counter := counter + 1;
      }
      if shouldVisit {
        var visited := ExtractPageInfo(new_url, fetch, lower);
      }
    }

    /** The locked drain at the top of each batch: `min(len(url_queue),
        workers)` successive `pop(0)` calls. */
    method DrainBatch(workers: nat) returns (chunks: seq<Url>)
      modifies this
      ensures chunks == old(url_queue)[..Min(|old(url_queue)|, workers)]
      ensures url_queue == old(url_queue)[Min(|old(url_queue)|, workers)..]
      ensures visited_urls == old(visited_urls) && counter == old(counter)
      ensures h1_word_frequency == old(h1_word_frequency)
    {
      var chunk_size := Min(|url_queue|, workers);
      chunks := [];
      for i := 0 to chunk_size
        invariant chunks == old(url_queue)[..i] && url_queue == old(url_queue)[i..]
        invariant visited_urls == old(visited_urls) && counter == old(counter)
        invariant h1_word_frequency == old(h1_word_frequency)
      {
        chunks := chunks + [url_queue[0]];
        url_queue := url_queue[1..];
      }
    }

    /** The body of the `while True` loop between its two exit tests: drain a
        batch, then `pool.starmap(self.process_url, ...)` over it. */
    method RunBatch(workers: nat, fetch: Url -> Response, lower: string -> string)
      modifies this
      ensures Snapshot() == Batch(old(Snapshot()), workers, fetch, lower)
    {
      ghost var start := Snapshot();
      var chunks := DrainBatch(workers);
      ghost var drained := Snapshot();
      assert drained == start.(queue := start.queue[Min(|start.queue|, workers)..]);
      for j := 0 to |chunks|
        invariant Snapshot() == ProcessAll(drained, chunks[..j], fetch, lower)
      {
        ghost var before := Snapshot();
        ProcessUrl(chunks[j], fetch, lower);
        PrefixSnoc(chunks, j);
        assert Snapshot() == Process(before, chunks[j], fetch, lower);
      }
      assert chunks[..|chunks|] == chunks;
    }

    /** `crawler(pages_to_parse)` with a pool of `workers` processes
        (`multiprocessing.cpu_count()`). */
    method Crawler(pages_to_parse: int, workers: nat, fetch: Url -> Response, lower: string -> string)
      requires workers >= 1
      modifies this
      ensures Snapshot() == Run(old(Snapshot()), pages_to_parse, workers, fetch, lower)
      ensures url_queue == [] || counter >= pages_to_parse
      ensures old(counter) <= counter <= (if old(counter) < pages_to_parse then pages_to_parse - 1 else old(counter)) + workers
      ensures Consistent(old(Snapshot())) ==> Consistent(Snapshot())
      ensures Accounts(old(h1_word_frequency), h1_word_frequency, Elements(visited_urls) - Elements(old(visited_urls)), fetch, lower)
    {
      ghost var start := Snapshot();
      while true
        invariant Run(Snapshot(), pages_to_parse, workers, fetch, lower) == Run(start, pages_to_parse, workers, fetch, lower)
        decreases pages_to_parse - counter, |url_queue|
      {
        if url_queue == [] {
          break;
        }
        RunBatch(workers, fetch, lower);
        if counter >= pages_to_parse {
          break;
        }
      }
    }
  }
}
