/** The sequential crawler: one URL per step, a URL is recorded as visited
    only after its page was extracted successfully. */
module SingleThreaded {
  import opened Web
  import opened Frequency

  /** The crawl bookkeeping of a `WebCrawler`: the frontier `url_queue`, the
      set `visited_urls`, the page `counter` and `h1_word_frequency`. */
  datatype State = State(queue: seq<Url>, visited: set<Url>, counter: int, index: Index)

  /** `extract_page_info(url)`: a request that raises or a status other than
      200 yields False and changes nothing; otherwise every link is appended to
      the frontier in document order and the headings are counted under
      `url`. */
  function Extract(s: State, url: Url, fetch: Url -> Response, lower: string -> string): (res: (bool, State))
    ensures res.0 <==> Succeeded(fetch(url))
    ensures !res.0 ==> res.1 == s
    ensures res.1.queue == s.queue + PageLinks(fetch(url))
    ensures res.1.visited == s.visited && res.1.counter == s.counter
    ensures Accounts(s.index, res.1.index, if res.0 then {url} else {}, fetch, lower)
    ensures Positive(s.index) ==> Positive(res.1.index)
  {
    match fetch(url)
    case NetworkError => (false, s)
    case Http(status, page) =>
      if status != OK_STATUS then (false, s)
      else
        HeadingsCounted(s.index, url, page.headings, lower);
        (true, s.(queue := s.queue + page.links, index := RecordHeadings(s.index, url, page.headings, lower)))
  }

  /** One iteration of the `while` loop of `crawler`: pop the head; an already
      visited URL is dropped with nothing else changed; a new one is counted
      before it is extracted, whatever the outcome, and enters `visited_urls`
      only when the extraction succeeded. */
  function Step(s: State, fetch: Url -> Response, lower: string -> string): (r: State)
    requires s.queue != []
    ensures s.queue[0] in s.visited ==> r == s.(queue := s.queue[1..])
    ensures r.counter == s.counter + (if s.queue[0] in s.visited then 0 else 1)
    ensures r.visited == if s.queue[0] !in s.visited && Succeeded(fetch(s.queue[0]))
                         then s.visited + {s.queue[0]} else s.visited
    ensures r.queue == s.queue[1..] + (if s.queue[0] in s.visited then [] else PageLinks(fetch(s.queue[0])))
    ensures Accounts(s.index, r.index, r.visited - s.visited, fetch, lower)
    ensures Positive(s.index) ==> Positive(r.index)
  {
    var url := s.queue[0];
    var popped := s.(queue := s.queue[1..]);
    if url in s.visited then popped
    else
      var (ok, t) := Extract(popped.(counter := popped.counter + 1), url, fetch, lower);
      assert ok ==> s.visited + {url} - s.visited == {url};
      if ok then t.(visited := t.visited + {url}) else t
  }

  /** The whole `while` loop of `crawler`, run while the frontier is non-empty
      and fewer than `pagesToParse` pages were counted. Each step either
      raises the counter (below the limit) or shortens the frontier, which is
      why it terminates.

      The loop stops only on an empty frontier or on reaching the limit. The
      counter never decreases and, as the guard is checked before every
      increment, never passes a limit it started below. `visited_urls` only
      grows, by at most one URL per count, and every URL it gains is one whose
      page was extracted successfully. The index gains exactly the heading
      counts of the pages that newly entered `visited_urls`, each page once,
      and nothing else (a page whose extraction failed leaves no trace however
      often it is popped again); stored counts stay positive. */
  function Run(s: State, pagesToParse: int, fetch: Url -> Response, lower: string -> string): (r: State)
    ensures r.queue == [] || r.counter >= pagesToParse
    ensures s.counter <= r.counter <= (if s.counter < pagesToParse then pagesToParse else s.counter)
    ensures s.visited <= r.visited && |r.visited| - |s.visited| <= r.counter - s.counter
    ensures forall u :: u in r.visited - s.visited ==> Succeeded(fetch(u))
    ensures Accounts(s.index, r.index, r.visited - s.visited, fetch, lower)
    ensures Positive(s.index) ==> Positive(r.index)
    decreases pagesToParse - s.counter, |s.queue|
  {
    if s.queue != [] && s.counter < pagesToParse then
      var t := Step(s, fetch, lower);
      var r := Run(t, pagesToParse, fetch, lower);
      assert |t.visited| <= |s.visited| + 1;
      AccountsCompose(s.index, t.index, r.index, t.visited - s.visited, r.visited - t.visited, fetch, lower);
      assert (t.visited - s.visited) + (r.visited - t.visited) == r.visited - s.visited;
      r
    else
      assert s.visited - s.visited == {};
      s
  }

  /** The state `crawler(seed_url, pages_to_parse)` starts its loop from:
      frontier and visited set reset, counter 0, index kept. */
  function Reset(index: Index, seed_url: Url): (r: State)
    ensures r.queue == [seed_url] && r.visited == {} && r.counter == 0 && |r.visited| <= r.counter
    ensures r.index == index
  {
    State([seed_url], {}, 0, index)
  }

  class WebCrawler {
    var title_keyword_frequency: map<string, int>
    var word_frequency: map<string, int>
    var url_queue: seq<Url>
    var visited_urls: set<Url>
    var counter: int
    var h1_word_frequency: Index

    /** The bookkeeping fields as a `State`. */
    function Snapshot(): State
      reads this
    {
      State(url_queue, visited_urls, counter, h1_word_frequency)
    }

    /** `__init__`; the module-level `seed_url` it reads is a parameter here. */
    constructor(seed_url: Url)
      ensures Snapshot() == State([seed_url], {}, 0, map[])
      ensures title_keyword_frequency == map[] && word_frequency == map[]
    {
      title_keyword_frequency := map[];
      word_frequency := map[];
      url_queue := [seed_url];
      visited_urls := {};
      counter := 0;
      h1_word_frequency := map[];
    }

    method ExtractPageInfo(url: Url, fetch: Url -> Response, lower: string -> string) returns (ok: bool)
      modifies this
      ensures (ok, Snapshot()) == Extract(old(Snapshot()), url, fetch, lower)
      ensures title_keyword_frequency == old(title_keyword_frequency) && word_frequency == old(word_frequency)
    {
      var response := fetch(url);
      if !response.Http? || response.status != OK_STATUS {
        return false;
      }
      var all_page_links := response.page.links;
      for i := 0 to |all_page_links|
        invariant url_queue == old(url_queue) + all_page_links[..i]
        invariant visited_urls == old(visited_urls) && counter == old(counter)
        invariant h1_word_frequency == old(h1_word_frequency)
        invariant title_keyword_frequency == old(title_keyword_frequency) && word_frequency == old(word_frequency)
      {
        url_queue := url_queue + [all_page_links[i]];
      }
      assert all_page_links[..|all_page_links|] == all_page_links;
      h1_word_frequency := AddHeadings(h1_word_frequency, url, response.page.headings, lower);
      return true;
    }

    /** The body of the `while` loop of `crawler`. */
    method VisitNext(fetch: Url -> Response, lower: string -> string)
      requires url_queue != []
      modifies this
      ensures Snapshot() == Step(old(Snapshot()), fetch, lower)
      ensures title_keyword_frequency == old(title_keyword_frequency) && word_frequency == old(word_frequency)
    {
      var new_url := url_queue[0];
      url_queue := url_queue[1..];
      if new_url !in visited_urls {
        counter := counter + 1;
        var visited := ExtractPageInfo(new_url, fetch, lower);
        if visited {
          visited_urls := visited_urls + {new_url};
        }
      }
    }

    /** `crawler(seed_url, pages_to_parse)`: clears the two unused keyword
        dictionaries, resets frontier, visited set and counter, keeps
        `h1_word_frequency`, and runs the dedup loop. */
    method Crawler(seed_url: Url, pages_to_parse: int, fetch: Url -> Response, lower: string -> string)
      modifies this
      ensures Snapshot() == Run(Reset(old(h1_word_frequency), seed_url), pages_to_parse, fetch, lower)
      ensures title_keyword_frequency == map[] && word_frequency == map[]
      ensures url_queue == [] || counter >= pages_to_parse
      ensures 0 <= counter && (pages_to_parse >= 0 ==> counter <= pages_to_parse)
      ensures |visited_urls| <= counter
      ensures Accounts(old(h1_word_frequency), h1_word_frequency, visited_urls, fetch, lower)
    {
      title_keyword_frequency := map[];
      word_frequency := map[];
      url_queue := [seed_url];
      visited_urls := {};
      counter := 0;
      ghost var start := Snapshot();

      while |url_queue| > 0 && counter < pages_to_parse
        invariant Run(Snapshot(), pages_to_parse, fetch, lower) == Run(start, pages_to_parse, fetch, lower)
        invariant title_keyword_frequency == map[] && word_frequency == map[]
        decreases pages_to_parse - counter, |url_queue|
      {
        VisitNext(fetch, lower);
      }
      assert visited_urls - {} == visited_urls;
    }
  }
}
