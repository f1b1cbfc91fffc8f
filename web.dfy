/** The outside world as the crawlers see it: a page oracle standing for the
    HTTP client (`requests.get`) followed by the HTML parser (BeautifulSoup,
    `urljoin`, `str.split`). */
module Web {

  /** An absolute URL, already resolved against the page it was found on. */
  type Url = string

  datatype Option<T> = None | Some(value: T)

  /** What the parser extracts from a page body: the targets of its `<a href>`
      anchors in document order, and for every in-scope h1/h2/h3 element the
      whitespace-separated tokens of its text. */
  datatype Page = Page(links: seq<Url>, headings: seq<seq<string>>)

  /** The outcome of fetching one URL: either the request raised (connection
      failure, timeout, ...) or a response with a status code arrived. The page
      of a response is only looked at when the status is 200. */
  datatype Response = NetworkError | Http(status: int, page: Page)

  const OK_STATUS: int := 200

  /** Both crawlers parse a response exactly when its status code is 200. */
  predicate Succeeded(r: Response) {
    r.Http? && r.status == OK_STATUS
  }

  /** The links a response contributes to the frontier. */
  function PageLinks(r: Response): seq<Url> {
    if Succeeded(r) then r.page.links else []
  }

  /** All heading tokens of a page, heading after heading, in document order. */
  function Flatten(headings: seq<seq<string>>): seq<string> {
    if headings == [] then []
    else Flatten(headings[..|headings| - 1]) + headings[|headings| - 1]
  }

  /** The heading tokens a response contributes to the frequency index. */
  function PageWords(r: Response): seq<string> {
    if Succeeded(r) then Flatten(r.page.headings) else []
  }

  /** The links the pages of `v` contribute to the frontier, page after page
      in the order of `v`. */
  function LinksOf(v: seq<Url>, fetch: Url -> Response): seq<Url> {
    if v == [] then []
    else LinksOf(v[..|v| - 1], fetch) + PageLinks(fetch(v[|v| - 1]))
  }

  /** Visiting one more page appends exactly its links. */
  lemma LinksOfSnoc(v: seq<Url>, u: Url, fetch: Url -> Response)
    ensures LinksOf(v + [u], fetch) == LinksOf(v, fetch) + PageLinks(fetch(u))
  {
    assert (v + [u])[..|v + [u]| - 1] == v;
  }

  /** Concatenation is associative; stated over any element type so that the
      proof compares elements without looking inside them. */
  lemma ConcatAssoc<T>(a: seq<T>, b: seq<T>, c: seq<T>)
    ensures (a + b) + c == a + (b + c)
  {
  }

  /** Dropping a prefix commutes with appending one element. */
  lemma SliceSnoc<T>(v: seq<T>, u: T, n: nat)
    requires n <= |v|
    ensures (v + [u])[n..] == v[n..] + [u]
  {
  }

  /** Extending a prefix by one element, and the whole sequence as a prefix. */
  lemma PrefixSnoc<T>(v: seq<T>, j: nat)
    requires j < |v|
    ensures v[..j + 1][..j] == v[..j] && v[..j + 1][j] == v[j] && v[..|v|] == v
  {
  }

  /** One unit of a pooled batch keeps the frontier `q` equal to `base` followed by
      the links of the pages visited since position `n` of the visited list
      `v`: a new URL `u` is appended to `v` and its links to `q`. */
  lemma FrontierStep(base: seq<Url>, n: nat, v: seq<Url>, q: seq<Url>, u: Url, fetch: Url -> Response)
    requires n <= |v| && q == base + LinksOf(v[n..], fetch)
    ensures q + PageLinks(fetch(u)) == base + LinksOf((v + [u])[n..], fetch)
  {
    SliceSnoc(v, u, n);
    LinksOfSnoc(v[n..], u, fetch);
    ConcatAssoc(base, LinksOf(v[n..], fetch), PageLinks(fetch(u)));
  }
}
