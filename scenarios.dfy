/** Small crawls worked out on concrete page graphs, one per behaviour worth
    pinning down. Tokens are "lowercased" by the identity here. */
module Scenarios {
  import opened Web
  import opened Frequency
  import MultiThreaded
  import SingleThreaded

  function Identity(t: string): string { t }

  /** A is a page with two heading words and no links. */
  function Lone(u: Url): Response {
    if u == "A" then Http(200, Page([], [["Hello", "World"]])) else NetworkError
  }

  /** A links to B and B links back to A. */
  function Cycle(u: Url): Response {
    if u == "A" then Http(200, Page(["B"], [])) else if u == "B" then Http(200, Page(["A"], [])) else NetworkError
  }

  /** Every page answers 404. */
  function Missing(u: Url): Response {
    Http(404, Page(["B"], [["Not", "Found"]]))
  }

  /** A links twice to B, which answers 404. */
  function BrokenLinkTwice(u: Url): Response {
    if u == "A" then Http(200, Page(["B", "B"], [])) else Http(404, Page([], []))
  }

  /** The index built from the one heading of `Lone`'s page A. */
  lemma LoneIndex()
    ensures RecordHeadings(map[], "A", [["Hello", "World"]], Identity)
            == map["Hello" := map["A" := 1], "World" := map["A" := 1]]
  {
    assert ["Hello", "World"][..1] == ["Hello"];
    assert [["Hello", "World"]][..0] == [];
    assert "Hello" != "World";
    var hello := map["Hello" := map["A" := 1]];
    assert map["A" := 0]["A" := 0 + 1] == map["A" := 1];
    assert Bump(map[], "Hello", "A") == hello;
    assert RecordTokens(map[], "A", ["Hello"], Identity) == hello;
    assert Bump(hello, "World", "A") == map["Hello" := map["A" := 1], "World" := map["A" := 1]];
    assert RecordTokens(map[], "A", ["Hello", "World"], Identity)
           == map["Hello" := map["A" := 1], "World" := map["A" := 1]];
    assert RecordHeadings(map[], "A", [["Hello", "World"]], Identity)
           == map["Hello" := map["A" := 1], "World" := map["A" := 1]];
  }

  /** A seed without links is crawled alone and only its headings are indexed. */
  lemma LoneSeed()
    ensures var r := MultiThreaded.Run(MultiThreaded.Init("A"), 1000, 4, Lone, Identity);
            r.counter == 1 && r.queue == [] && r.visited == ["A"]
            && r.index == map["Hello" := map["A" := 1], "World" := map["A" := 1]]
  {
    LoneIndex();
    var empty := MultiThreaded.State([], [], 0, map[]);
    assert ["A"][..0] == [];
    var done := MultiThreaded.State([], ["A"], 1, map["Hello" := map["A" := 1], "World" := map["A" := 1]]);
    assert MultiThreaded.Extract(MultiThreaded.State([], ["A"], 1, map[]), "A", Lone, Identity) == (Some(true), done);
    assert MultiThreaded.Process(empty, "A", Lone, Identity) == done;
    assert MultiThreaded.ProcessAll(empty, ["A"], Lone, Identity) == done;
    assert MultiThreaded.Batch(MultiThreaded.Init("A"), 4, Lone, Identity) == done;
    assert MultiThreaded.Run(done, 1000, 4, Lone, Identity) == done;
  }

  /** The three batches of the crawl of `Cycle` with two workers. */
  lemma CycleBatches()
    ensures MultiThreaded.Batch(MultiThreaded.Init("A"), 2, Cycle, Identity) == MultiThreaded.State(["B"], ["A"], 1, map[])
    ensures MultiThreaded.Batch(MultiThreaded.State(["B"], ["A"], 1, map[]), 2, Cycle, Identity)
            == MultiThreaded.State(["A"], ["A", "B"], 2, map[])
    ensures MultiThreaded.Batch(MultiThreaded.State(["A"], ["A", "B"], 2, map[]), 2, Cycle, Identity)
            == MultiThreaded.State([], ["A", "B"], 2, map[])
  {

  }

  /** Two pages linking to each other are each fetched once, although the
      limit would allow ten. */
  lemma TwoPageCycle()
    ensures var r := MultiThreaded.Run(MultiThreaded.Init("A"), 10, 2, Cycle, Identity);
            r.counter == 2 && r.visited == ["A", "B"] && r.queue == []
  {
    CycleBatches();
    var s1 := MultiThreaded.State(["B"], ["A"], 1, map[]);
    var s2 := MultiThreaded.State(["A"], ["A", "B"], 2, map[]);
    var s3 := MultiThreaded.State([], ["A", "B"], 2, map[]);
    assert MultiThreaded.Run(s3, 10, 2, Cycle, Identity) == s3;
    assert MultiThreaded.Run(s2, 10, 2, Cycle, Identity) == MultiThreaded.Run(s3, 10, 2, Cycle, Identity);
    assert MultiThreaded.Run(s1, 10, 2, Cycle, Identity) == MultiThreaded.Run(s2, 10, 2, Cycle, Identity);
    assert MultiThreaded.Run(MultiThreaded.Init("A"), 10, 2, Cycle, Identity) == MultiThreaded.Run(s1, 10, 2, Cycle, Identity);
  }

  /** A seed that answers 404 is still counted; nothing is enqueued or indexed. */
  lemma MissingSeed()
    ensures var r := MultiThreaded.Run(MultiThreaded.Init("A"), 1000, 4, Missing, Identity);
            r.counter == 1 && r.queue == [] && r.index == map[]
  {

  }

  /** The sequential crawler counts a URL whose extraction failed every time it
      is popped again, while it never enters `visited_urls`. */
  lemma BrokenLinkCountedTwice()
    ensures var r := SingleThreaded.Run(SingleThreaded.Reset(map[], "A"), 10, BrokenLinkTwice, Identity);
            r.counter == 3 && r.visited == {"A"} && r.queue == []
  {
    assert "A" != "B";
    var s0 := SingleThreaded.Reset(map[], "A");
    var s1 := SingleThreaded.State(["B", "B"], {"A"}, 1, map[]);
    assert SingleThreaded.Step(s0, BrokenLinkTwice, Identity) == s1;
    var s2 := SingleThreaded.State(["B"], {"A"}, 2, map[]);
    assert SingleThreaded.Step(s1, BrokenLinkTwice, Identity) == s2;
    var s3 := SingleThreaded.State([], {"A"}, 3, map[]);
    assert SingleThreaded.Step(s2, BrokenLinkTwice, Identity) == s3;
    assert SingleThreaded.Run(s3, 10, BrokenLinkTwice, Identity) == s3;
    assert SingleThreaded.Run(s2, 10, BrokenLinkTwice, Identity) == s3;
    assert SingleThreaded.Run(s1, 10, BrokenLinkTwice, Identity) == s3;
  }

  /** The three batches of the crawl of `BrokenLinkTwice` with one worker. */
  lemma BrokenLinkBatches()
    ensures MultiThreaded.Batch(MultiThreaded.Init("A"), 1, BrokenLinkTwice, Identity)
            == MultiThreaded.State(["B", "B"], ["A"], 1, map[])
    ensures MultiThreaded.Batch(MultiThreaded.State(["B", "B"], ["A"], 1, map[]), 1, BrokenLinkTwice, Identity)
            == MultiThreaded.State(["B"], ["A", "B"], 2, map[])
    ensures MultiThreaded.Batch(MultiThreaded.State(["B"], ["A", "B"], 2, map[]), 1, BrokenLinkTwice, Identity)
            == MultiThreaded.State([], ["A", "B"], 2, map[])
  {

  }

  /** The pooled crawler on the same pages marks B visited on its first pop,
      so the second copy is discarded and B is counted once. */
  lemma BrokenLinkCountedOnce()
    ensures var r := MultiThreaded.Run(MultiThreaded.Init("A"), 10, 1, BrokenLinkTwice, Identity);
            r.counter == 2 && r.visited == ["A", "B"] && r.queue == []
  {
    BrokenLinkBatches();
    var s1 := MultiThreaded.State(["B", "B"], ["A"], 1, map[]);
    var s2 := MultiThreaded.State(["B"], ["A", "B"], 2, map[]);
    var s3 := MultiThreaded.State([], ["A", "B"], 2, map[]);
    assert MultiThreaded.Run(s3, 10, 1, BrokenLinkTwice, Identity) == s3;
    assert MultiThreaded.Run(s2, 10, 1, BrokenLinkTwice, Identity) == MultiThreaded.Run(s3, 10, 1, BrokenLinkTwice, Identity);
    assert MultiThreaded.Run(s1, 10, 1, BrokenLinkTwice, Identity) == MultiThreaded.Run(s2, 10, 1, BrokenLinkTwice, Identity);
    assert MultiThreaded.Run(MultiThreaded.Init("A"), 10, 1, BrokenLinkTwice, Identity)
           == MultiThreaded.Run(s1, 10, 1, BrokenLinkTwice, Identity);
  }

  /** A small tree of pages: A links to B, B to C and D, C to E; every other
      page answers 200 with no links. */
  function Tree(u: Url): Response {
    if u == "A" then Http(200, Page(["B"], []))
    else if u == "B" then Http(200, Page(["C", "D"], []))
    else if u == "C" then Http(200, Page(["E"], []))
    else Http(200, Page([], []))
  }

  /** The two units of the third batch of the crawl of `Tree`. */
  lemma TreeThirdUnits()
    ensures MultiThreaded.Process(MultiThreaded.State([], ["A", "B"], 2, map[]), "C", Tree, Identity)
            == MultiThreaded.State(["E"], ["A", "B", "C"], 3, map[])
    ensures MultiThreaded.Process(MultiThreaded.State(["E"], ["A", "B", "C"], 3, map[]), "D", Tree, Identity)
            == MultiThreaded.State(["E"], ["A", "B", "C", "D"], 4, map[])
  {
    assert "C" !in ["A", "B"] && "D" !in ["A", "B", "C"];
    assert Tree("C") == Http(200, Page(["E"], [])) && Tree("D") == Http(200, Page([], []));
  }

  /** The first two batches of the crawl of `Tree` with two workers. */
  lemma TreeFirstBatches()
    ensures MultiThreaded.Batch(MultiThreaded.Init("A"), 2, Tree, Identity) == MultiThreaded.State(["B"], ["A"], 1, map[])
    ensures MultiThreaded.Batch(MultiThreaded.State(["B"], ["A"], 1, map[]), 2, Tree, Identity)
            == MultiThreaded.State(["C", "D"], ["A", "B"], 2, map[])
  {
    assert "B" !in ["A"];
    assert ["A"][..0] == [] && ["B"][..0] == [];
    assert Tree("A") == Http(200, Page(["B"], [])) && Tree("B") == Http(200, Page(["C", "D"], []));
    assert MultiThreaded.Process(MultiThreaded.State([], [], 0, map[]), "A", Tree, Identity)
           == MultiThreaded.State(["B"], ["A"], 1, map[]);
    assert MultiThreaded.Process(MultiThreaded.State([], ["A"], 1, map[]), "B", Tree, Identity)
           == MultiThreaded.State(["C", "D"], ["A", "B"], 2, map[]);
    assert MultiThreaded.ProcessAll(MultiThreaded.State([], [], 0, map[]), ["A"], Tree, Identity)
           == MultiThreaded.State(["B"], ["A"], 1, map[]);
    assert MultiThreaded.ProcessAll(MultiThreaded.State([], ["A"], 1, map[]), ["B"], Tree, Identity)
           == MultiThreaded.State(["C", "D"], ["A", "B"], 2, map[]);
  }

  /** The third batch of the crawl of `Tree`: two new pages at once. */
  lemma TreeThirdBatch()
    ensures MultiThreaded.Batch(MultiThreaded.State(["C", "D"], ["A", "B"], 2, map[]), 2, Tree, Identity)
            == MultiThreaded.State(["E"], ["A", "B", "C", "D"], 4, map[])
  {
    TreeThirdUnits();
    assert ["C", "D"][..1] == ["C"] && ["C"][..0] == [];
    assert ["C", "D"][..2] == ["C", "D"] && ["C", "D"][2..] == [];
    var third := MultiThreaded.State([], ["A", "B"], 2, map[]);
    var half := MultiThreaded.State(["E"], ["A", "B", "C"], 3, map[]);
    assert MultiThreaded.ProcessAll(third, ["C"], Tree, Identity) == half;
    assert MultiThreaded.ProcessAll(third, ["C", "D"], Tree, Identity)
           == MultiThreaded.State(["E"], ["A", "B", "C", "D"], 4, map[]);
  }

  /** With limit 3 and two workers the limit is checked only after whole
      batches: the third batch starts at counter 2 and takes two new pages, so
      the crawl stops at 4 = 3 - 1 + 2 with a page still queued. The overshoot
      bound of `MultiThreaded.Run` is therefore reached. */
  lemma LimitOvershoot()
    ensures var r := MultiThreaded.Run(MultiThreaded.Init("A"), 3, 2, Tree, Identity);
            r.counter == 4 && r.visited == ["A", "B", "C", "D"] && r.queue == ["E"]
  {
    TreeFirstBatches();
    TreeThirdBatch();
    var s1 := MultiThreaded.State(["B"], ["A"], 1, map[]);
    var s2 := MultiThreaded.State(["C", "D"], ["A", "B"], 2, map[]);
    var s3 := MultiThreaded.State(["E"], ["A", "B", "C", "D"], 4, map[]);
    assert MultiThreaded.Run(s2, 3, 2, Tree, Identity) == s3;
    assert MultiThreaded.Run(s1, 3, 2, Tree, Identity) == s3;
  }
}
