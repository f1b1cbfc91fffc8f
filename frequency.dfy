/** The heading-word frequency index `h1_word_frequency` shared by both
    crawlers: lowercased word -> (page URL -> number of occurrences). */
module Frequency {
  import opened Web

  type Index = map<string, map<Url, int>>

  /** The count stored for (word, url), with a missing entry read as 0. */
  function Lookup(idx: Index, w: string, u: Url): int {
    if w in idx && u in idx[w] then idx[w][u] else 0
  }

  /** Every stored count is at least 1. */
  ghost predicate Positive(idx: Index) {
    forall w, u :: w in idx && u in idx[w] ==> idx[w][u] >= 1
  }

  /** The number of tokens that lowercase to `w`: the reference against which
      the index is checked. */
  function Occurrences(tokens: seq<string>, lower: string -> string, w: string): nat {
    if tokens == [] then 0
    else Occurrences(tokens[..|tokens| - 1], lower, w)
         + (if lower(tokens[|tokens| - 1]) == w then 1 else 0)
  }

  /** One read-modify-write of the index for a single lowercased token `w`
      found on the page `url` (the body of the innermost loop of
      `extract_page_info`): a missing word starts from `{url: 0}`, a missing
      URL from 0. */
  function Bump(idx: Index, w: string, url: Url): (r: Index)
    ensures forall v, u :: Lookup(r, v, u) == Lookup(idx, v, u) + (if v == w && u == url then 1 else 0)
    ensures r.Keys == idx.Keys + {w}
    ensures r[w].Keys == (if w in idx then idx[w].Keys else {}) + {url}
    ensures forall v :: v in idx && v != w ==> r[v] == idx[v]
    ensures Positive(idx) ==> Positive(r)
  {
    var wordDict := if w in idx then idx[w] else map[url := 0];
    idx[w := wordDict[url := (if url in wordDict then wordDict[url] else 0) + 1]]
  }

  /** The inner loop: every token of one heading, in order. It never removes
      an entry, neither a word nor a URL under a word. */
  function RecordTokens(idx: Index, url: Url, tokens: seq<string>, lower: string -> string): (r: Index)
    ensures idx.Keys <= r.Keys
    ensures forall v :: v in idx ==> idx[v].Keys <= r[v].Keys
  {
    if tokens == [] then idx
    else Bump(RecordTokens(idx, url, tokens[..|tokens| - 1], lower), lower(tokens[|tokens| - 1]), url)
  }

  /** The outer loop: every in-scope heading of the page, in order; it never
      removes an entry either. */
  function RecordHeadings(idx: Index, url: Url, headings: seq<seq<string>>, lower: string -> string): (r: Index)
    ensures idx.Keys <= r.Keys
    ensures forall v :: v in idx ==> idx[v].Keys <= r[v].Keys
  {
    if headings == [] then idx
    else RecordTokens(RecordHeadings(idx, url, headings[..|headings| - 1], lower), url, headings[|headings| - 1], lower)
  }

  /** Recording a page's tokens adds, for every word, exactly the number of
      tokens that lowercase to it, and only under that page's URL. */
  lemma {:induction false} RecordTokensCounts(idx: Index, url: Url, tokens: seq<string>, lower: string -> string)
    ensures forall v, u :: Lookup(RecordTokens(idx, url, tokens, lower), v, u)
                           == Lookup(idx, v, u) + (if u == url then Occurrences(tokens, lower, v) else 0)
  {
    if tokens != [] {
      RecordTokensCounts(idx, url, tokens[..|tokens| - 1], lower);
    }
  }

  /** A word or URL entry is created exactly when it receives a count, and
      words that no token lowercases to keep their whole sub-mapping. */
  lemma {:induction false} RecordTokensKeys(idx: Index, url: Url, tokens: seq<string>, lower: string -> string)
    ensures forall v :: v in RecordTokens(idx, url, tokens, lower) <==> v in idx || Occurrences(tokens, lower, v) > 0
    ensures forall v, u :: v in RecordTokens(idx, url, tokens, lower) && u in RecordTokens(idx, url, tokens, lower)[v]
                           <==> (v in idx && u in idx[v]) || (u == url && Occurrences(tokens, lower, v) > 0)
    ensures forall v :: v in idx && Occurrences(tokens, lower, v) == 0 ==> RecordTokens(idx, url, tokens, lower)[v] == idx[v]
  {
    if tokens != [] {
      RecordTokensKeys(idx, url, tokens[..|tokens| - 1], lower);
    }
  }

  /** No count below 1 is ever stored. */
  lemma {:induction false} RecordTokensPositive(idx: Index, url: Url, tokens: seq<string>, lower: string -> string)
    ensures Positive(idx) ==> Positive(RecordTokens(idx, url, tokens, lower))
  {
    if tokens != [] {
      RecordTokensPositive(idx, url, tokens[..|tokens| - 1], lower);
    }
  }

  /** Recording `a` and then `b` is recording `a + b`. */
  lemma {:induction false} RecordTokensAppend(idx: Index, url: Url, a: seq<string>, b: seq<string>, lower: string -> string)
    ensures RecordTokens(idx, url, a + b, lower) == RecordTokens(RecordTokens(idx, url, a, lower), url, b, lower)
  {
    if b == [] {
      assert a + b == a;
    } else {
      var front := b[..|b| - 1];
      assert (a + b)[..|a + b| - 1] == a + front;
      assert (a + b)[|a + b| - 1] == b[|b| - 1];
      RecordTokensAppend(idx, url, a, front, lower);
    }
  }

  /** The nested heading/token loops have the effect of one loop over the
      flattened token sequence. */
  lemma {:induction false} RecordHeadingsFlat(idx: Index, url: Url, headings: seq<seq<string>>, lower: string -> string)
    ensures RecordHeadings(idx, url, headings, lower) == RecordTokens(idx, url, Flatten(headings), lower)
  {
    if headings != [] {
      var front := headings[..|headings| - 1];
      RecordHeadingsFlat(idx, url, front, lower);
      RecordTokensAppend(idx, url, Flatten(front), headings[|headings| - 1], lower);
    }
  }

  /** The page-level statement: after `extract_page_info` records the headings
      of `url`, the count of every (word, u) pair grew by exactly the number of
      heading tokens of that page lowercasing to the word when u is `url`, and
      did not change otherwise; stored counts stay positive. */
  lemma HeadingsCounted(idx: Index, url: Url, headings: seq<seq<string>>, lower: string -> string)
    ensures forall v, u :: Lookup(RecordHeadings(idx, url, headings, lower), v, u)
                           == Lookup(idx, v, u) + (if u == url then Occurrences(Flatten(headings), lower, v) else 0)
    ensures forall v :: v in idx && Occurrences(Flatten(headings), lower, v) == 0 ==>
                        v in RecordHeadings(idx, url, headings, lower) && RecordHeadings(idx, url, headings, lower)[v] == idx[v]
    ensures Positive(idx) ==> Positive(RecordHeadings(idx, url, headings, lower))
  {
    RecordHeadingsFlat(idx, url, headings, lower);
    RecordTokensCounts(idx, url, Flatten(headings), lower);
    RecordTokensKeys(idx, url, Flatten(headings), lower);
    RecordTokensPositive(idx, url, Flatten(headings), lower);
  }

  /** `idx` is `idx0` plus the heading counts of exactly the pages in `pages`,
      each taken once, as the oracle `fetch` serves them. */
  ghost predicate Accounts(idx0: Index, idx: Index, pages: set<Url>, fetch: Url -> Response, lower: string -> string) {
    forall w, u :: Lookup(idx, w, u) == Lookup(idx0, w, u) + (if u in pages then Occurrences(PageWords(fetch(u)), lower, w) else 0)
  }

  /** Accounting for two disjoint groups of pages one after the other accounts
      for their union. */
  lemma AccountsCompose(idx0: Index, idx1: Index, idx2: Index, p1: set<Url>, p2: set<Url>, fetch: Url -> Response, lower: string -> string)
    requires Accounts(idx0, idx1, p1, fetch, lower) && Accounts(idx1, idx2, p2, fetch, lower)
    requires p1 !! p2
    ensures Accounts(idx0, idx2, p1 + p2, fetch, lower)
  {
  }

  /** The inner `for` loop of `extract_page_info` over the tokens of one
      heading, on the index's value. */
  method AddTokens(idx: Index, url: Url, tokens: seq<string>, lower: string -> string) returns (r: Index)
    ensures r == RecordTokens(idx, url, tokens, lower)
  {
    r := idx;
    for j := 0 to |tokens|
      invariant r == RecordTokens(idx, url, tokens[..j], lower)
    {
      // one locked read-modify-write of the word's sub-mapping
      assert tokens[..j + 1][..j] == tokens[..j] && tokens[..j + 1][j] == tokens[j];
      r := Bump(r, lower(tokens[j]), url);
    }
    assert tokens[..|tokens|] == tokens;
  }

  /** The nested `for` loops of `extract_page_info` that update the index, on
      the index's value. */
  method AddHeadings(idx: Index, url: Url, headings: seq<seq<string>>, lower: string -> string) returns (r: Index)
    ensures r == RecordHeadings(idx, url, headings, lower)
  {
    r := idx;
    for i := 0 to |headings|
      invariant r == RecordHeadings(idx, url, headings[..i], lower)
    {
      r := AddTokens(r, url, headings[i], lower);
      assert headings[..i + 1][..i] == headings[..i];
    }
    assert headings[..|headings|] == headings;
  }
}
