/** The partial-content route (src/app/api/partial-content/route.ts): one
    crawl-status snapshot turned into a title, a source list and a combined
    text, with no deduplication. The crawl service's reply is an input. */
module PartialContent {
  import opened Wrappers
  import opened Text
  import opened Firecrawl
  import Scraper

  const UntitledWebsite := "Untitled Website"

  /** Page 0's title when it has one, else the placeholder. */
  function PartialTitle(data: seq<Page>): (t: string)
    ensures t != ""
    ensures data != [] && Title(data[0]) != "" ==> t == Title(data[0])
    ensures data == [] || Title(data[0]) == "" ==> t == UntitledWebsite
  {
    if data != [] && Title(data[0]) != "" then Title(data[0]) else UntitledWebsite
  }

  /** The page blocks: the header before page 0, the separator before every
      later page, each followed by the page's markdown. */
  function Blocks(data: seq<Page>, title: string): string {
    if data == [] then ""
    else
      var n := |data| - 1;
      Blocks(data[..n], title) + (if n == 0 then Header(title, data[n]) else Separator(data[n])) + data[n].markdown
  }

  /** The status line of the trailer, present only for two statuses. */
  function StatusLine(status: string): (line: string)
    ensures line != "" <==> status == "scraping" || status == "completed"
  {
    if status == "scraping" then "Status: Crawl in progress...\n"
    else if status == "completed" then "Status: Crawl completed\n"
    else ""
  }

  function CountsLine(snapshot: CrawlStatus): string {
    "Pages crawled so far: " + NatToString(snapshot.completed) + " of " + NatToString(snapshot.total) + "\n"
  }

  function Trailer(snapshot: CrawlStatus): string {
    "\n\n--- Crawl Progress ---\n" + CountsLine(snapshot) + StatusLine(snapshot.status)
  }

  /** The combined text: the blocks and the trailer, or nothing for a snapshot
      without pages. */
  function CombinedContent(snapshot: CrawlStatus): string {
    if snapshot.data == [] then ""
    else Blocks(snapshot.data, PartialTitle(snapshot.data)) + Trailer(snapshot)
  }

  /** The `forEach` over the pages of a snapshot. */
  method ForEachPage(data: seq<Page>) returns (mainTitle: string, combinedContent: string, sources: seq<string>)
    ensures mainTitle == PartialTitle(data)
    ensures sources == Urls(data)
    ensures combinedContent == Blocks(data, PartialTitle(data))
  {
    combinedContent := "";
    mainTitle := UntitledWebsite;
    sources := [];
    ghost var title := PartialTitle(data);
    var index := 0;
    while index < |data|
      invariant 0 <= index <= |data|
      invariant sources == Urls(data[..index])
      invariant index == 0 ==> mainTitle == UntitledWebsite
      invariant index > 0 ==> mainTitle == title
      invariant IsBlocksOf(combinedContent, data, index, title)
    {
      var page := data[index];
      UrlsStep(data, index);
      if index == 0 && Title(page) != "" {
        mainTitle := Title(page);
      }
      if SourceUrl(page) != "" {
        sources := sources + [SourceUrl(page)];
      }
      var block := if index > 0 then Separator(page) else Header(mainTitle, page);
      BlocksStep(data, index, title, combinedContent, block);
      combinedContent := combinedContent + block;
      combinedContent := combinedContent + page.markdown;
      index := index + 1;
    }
    assert data[..index] == data;
    assert IsBlocksOf(combinedContent, data, index, title);
  }

  /** `text` is the text of the first `count` pages of `data`. */
  predicate IsBlocksOf(text: string, data: seq<Page>, count: nat, title: string)
    requires count <= |data|
  {
    text == Blocks(data[..count], title)
  }

  /** One more page of a snapshot adds its URL, if any, to the list. */
  lemma UrlsStep(data: seq<Page>, index: nat)
    requires index < |data|
    ensures Urls(data[..index + 1]) == Urls(data[..index]) + PageUrl(data[index])
  {
    assert data[..index + 1][..index] == data[..index];
  }

  /** The text so far, the block of the next page and its markdown make the
      text of one more page. */
  lemma BlocksStep(data: seq<Page>, index: nat, title: string, text: string, block: string)
    requires index < |data|
    requires IsBlocksOf(text, data, index, title)
    requires block == if index == 0 then Header(title, data[index]) else Separator(data[index])
    ensures IsBlocksOf(text + block + data[index].markdown, data, index + 1, title)
  {
    assert data[..index + 1][..index] == data[..index];
  }

  /** The pages of a non-empty snapshot, then the progress trailer. */
  method BuildContent(snapshot: CrawlStatus) returns (mainTitle: string, combinedContent: string, sources: seq<string>)
    ensures mainTitle == PartialTitle(snapshot.data)
    ensures sources == Urls(snapshot.data)
    ensures combinedContent == CombinedContent(snapshot)
  {
    combinedContent := "";
    mainTitle := UntitledWebsite;
    sources := [];
    if |snapshot.data| > 0 {
      mainTitle, combinedContent, sources := ForEachPage(snapshot.data);
      ghost var blocks := combinedContent;
      combinedContent := combinedContent + "\n\n--- Crawl Progress ---\n";
      combinedContent := combinedContent + CountsLine(snapshot);
      combinedContent := combinedContent + StatusLine(snapshot.status);
      TrailerAppended(blocks, snapshot);
    }
  }

  /** The three appends of the trailer add the trailer. */
  lemma TrailerAppended(blocks: string, snapshot: CrawlStatus)
    ensures blocks + "\n\n--- Crawl Progress ---\n" + CountsLine(snapshot) + StatusLine(snapshot.status) == blocks + Trailer(snapshot)
  {
    AppendRegroup(blocks, "\n\n--- Crawl Progress ---\n", CountsLine(snapshot), StatusLine(snapshot.status));
  }

  datatype Response =
    | Partial(title: string, content: string, status: string, completed: nat, total: nat, sources: seq<string>)
    | ErrorResponse(code: nat, error: string)

  const CrawlIdRequired := "crawlId parameter is required"
  const MissingKeyMessage := "FIRECRAWL_API_KEY is not defined in environment variables"

  /** `GET`: the checks on the query and the key, both before any request, then
      the snapshot (or the failure of fetching it) turned into the reply. */
  method Get(crawlId: string, apiKeySet: bool, fetched: Result<CrawlStatus>) returns (r: Response)
    ensures crawlId == "" ==> r == ErrorResponse(400, CrawlIdRequired)
    ensures crawlId != "" && !apiKeySet ==> r == ErrorResponse(500, MissingKeyMessage)
    ensures crawlId != "" && apiKeySet && fetched.Failure?
      ==> r == ErrorResponse(500, "Failed to fetch partial content: " + fetched.error)
    ensures crawlId != "" && apiKeySet && fetched.Success? ==> (
      var s := fetched.value;
      r == Partial(PartialTitle(s.data), CombinedContent(s), s.status, s.completed, s.total, Urls(s.data)))
  {
    if crawlId == "" {
      return ErrorResponse(400, CrawlIdRequired);
    }
    if !apiKeySet {
      return ErrorResponse(500, MissingKeyMessage);
    }
    match fetched
    case Failure(message) =>
      r := ErrorResponse(500, "Failed to fetch partial content: " + message);
    case Success(resultData) =>
      var mainTitle, combinedContent, sources := BuildContent(resultData);
      r := Partial(mainTitle, combinedContent, resultData.status, resultData.completed, resultData.total, sources);
  }

  // ---------------------------------------------------------------------------
  // Properties
  // ---------------------------------------------------------------------------

  /** Pages after the first never change the title. */
  lemma TitleFromFirstPageOnly(data: seq<Page>, more: seq<Page>)
    requires data != []
    ensures PartialTitle(data + more) == PartialTitle(data)
  {
    assert (data + more)[0] == data[0];
  }

  /** A page with a source URL always adds it to the list, even when it is
      already there. */
  lemma SourcesKeepDuplicates(data: seq<Page>, p: Page)
    requires SourceUrl(p) != ""
    ensures Urls(data + [p]) == Urls(data) + [SourceUrl(p)]
    ensures |Urls(data + [p, p])| == |Urls(data)| + 2
  {
    assert (data + [p])[..|data|] == data;
    assert (data + [p, p])[..|data| + 1] == data + [p];
    assert Urls(data + [p, p]) == Urls(data + [p]) + [SourceUrl(p)];
  }

  /** Over a first snapshot in which no source URL repeats, the scraper's text
      is exactly this route's page blocks: the same header, separators and
      markdown in the same order. */
  lemma {:induction false} ScraperTextIsBlocks(pages: seq<Page>)
    requires forall i, j :: 0 <= i < j < |pages| && SourceUrl(pages[j]) != "" ==> SourceUrl(pages[i]) != SourceUrl(pages[j])
    ensures Scraper.IngestPages(Scraper.Start, pages).content == Blocks(pages, PartialTitle(pages))
    ensures pages != [] ==> Scraper.IngestPages(Scraper.Start, pages).content != ""
  {
    if pages != [] {
      var n := |pages| - 1;
      var init := pages[..n];
      var p := pages[n];
      var t := PartialTitle(pages);
      if n == 0 {
        Scraper.FirstBlockIsHeader(Scraper.Start, p);
        assert Blocks(pages, t) == Header(t, p) + p.markdown;
      } else {
        assert forall i, j :: 0 <= i < j < |init| && SourceUrl(init[j]) != "" ==> SourceUrl(init[i]) != SourceUrl(init[j]);
        ScraperTextIsBlocks(init);
        assert PartialTitle(init) == t by {
          assert init[0] == pages[0];
        }
        var acc := Scraper.IngestPages(Scraper.Start, init);
        assert forall k :: 0 <= k < |init| ==> SourceUrl(p) == "" || SourceUrl(init[k]) != SourceUrl(p);
        NotReprocessed(init, p);
        Scraper.LaterBlockIsSeparator(acc, p);
        assert Scraper.IngestPages(Scraper.Start, pages) == Scraper.IngestPage(acc, p);
        assert Blocks(pages, t) == Blocks(init, t) + Separator(p) + p.markdown;
      }
    }
  }

  /** A page whose source URL no earlier page of the first snapshot carries is
      not skipped by the scraper. */
  lemma NotReprocessed(init: seq<Page>, p: Page)
    requires forall k :: 0 <= k < |init| ==> SourceUrl(p) == "" || SourceUrl(init[k]) != SourceUrl(p)
    ensures !Scraper.AlreadyProcessed(Scraper.IngestPages(Scraper.Start, init), p)
  {
    Scraper.IngestPagesProcessed(Scraper.Start, init);
    UrlsMembership(init, SourceUrl(p));
  }

  /** The same page twice: this route lists its URL twice, while the crawl
      loop in the scraper lists it once and appends its text once. */
  lemma NoDeduplicationUnlikeScraper(p: Page)
    requires SourceUrl(p) != ""
    ensures Urls([p, p]) == [SourceUrl(p), SourceUrl(p)]
    ensures Scraper.IngestPages(Scraper.Start, [p, p]).sources == [SourceUrl(p)]
    ensures Scraper.IngestPages(Scraper.Start, [p, p]) == Scraper.IngestPages(Scraper.Start, [p])
  {
    UrlsOfRepeatedPage(p);
    ScraperSkipsRepeat(p);
  }

  lemma UrlsOfRepeatedPage(p: Page)
    requires SourceUrl(p) != ""
    ensures Urls([p, p]) == [SourceUrl(p), SourceUrl(p)]
  {
    SourcesKeepDuplicates([], p);
    SourcesKeepDuplicates([p], p);
    assert [] + [p] == [p] && [p] + [p] == [p, p];
  }

  lemma ScraperSkipsRepeat(p: Page)
    requires SourceUrl(p) != ""
    ensures Scraper.IngestPages(Scraper.Start, [p]).sources == [SourceUrl(p)]
    ensures Scraper.IngestPages(Scraper.Start, [p, p]) == Scraper.IngestPages(Scraper.Start, [p])
  {
    ScraperFirstPage(p);
    var once := Scraper.IngestPages(Scraper.Start, [p]);
    assert [p, p][..1] == [p];
    assert Scraper.IngestPages(Scraper.Start, [p, p]) == Scraper.IngestPage(once, p);
    assert Scraper.AlreadyProcessed(once, p);
  }

  lemma ScraperFirstPage(p: Page)
    requires SourceUrl(p) != ""
    ensures Scraper.IngestPages(Scraper.Start, [p]).processed == {SourceUrl(p)}
    ensures Scraper.IngestPages(Scraper.Start, [p]).sources == [SourceUrl(p)]
  {
    assert [p][..0] == [];
  }

  /** The text of a snapshot starts with page 0's header and markdown, and each
      later page contributes its separator and markdown right after the pages
      before it. */
  lemma {:induction false} BlocksStartWithHeader(data: seq<Page>, title: string)
    requires data != []
    ensures StartsWith(Blocks(data, title), Header(title, data[0]) + data[0].markdown)
  {
    if |data| == 1 {
      OnePageBlocks(data, title);
    } else {
      var n := |data| - 1;
      BlocksStartWithHeader(data[..n], title);
      LaterPageKeepsStart(data, title);
    }
  }

  lemma OnePageBlocks(data: seq<Page>, title: string)
    requires |data| == 1
    ensures StartsWith(Blocks(data, title), Header(title, data[0]) + data[0].markdown)
  {
    assert Blocks(data, title) == Header(title, data[0]) + data[0].markdown;
  }

  lemma LaterPageKeepsStart(data: seq<Page>, title: string)
    requires |data| > 1
    requires StartsWith(Blocks(data[..|data| - 1], title), Header(title, data[0]) + data[0].markdown)
    ensures StartsWith(Blocks(data, title), Header(title, data[0]) + data[0].markdown)
  {
    var n := |data| - 1;
    var b := Blocks(data[..n], title);
    StartsWithAppend(b, Header(title, data[0]) + data[0].markdown, Separator(data[n]));
    StartsWithAppend(b + Separator(data[n]), Header(title, data[0]) + data[0].markdown, data[n].markdown);
  }

  lemma BlocksAppend(data: seq<Page>, p: Page, title: string)
    requires data != []
    ensures Blocks(data + [p], title) == Blocks(data, title) + Separator(p) + p.markdown
  {
    assert (data + [p])[..|data|] == data;
  }

  /** A snapshot has content exactly when it has pages; then the content
      starts with the header, carrying the title, and ends with the trailer. */
  lemma ContentShape(snapshot: CrawlStatus)
    ensures CombinedContent(snapshot) == "" <==> snapshot.data == []
    ensures snapshot.data != [] ==> StartsWith(CombinedContent(snapshot), "# " + PartialTitle(snapshot.data))
    ensures snapshot.data != [] ==> (
      var c := CombinedContent(snapshot);
      |c| >= |Trailer(snapshot)| && c[|c| - |Trailer(snapshot)|..] == Trailer(snapshot))
  {
    if snapshot.data != [] {
      var data := snapshot.data;
      var title := PartialTitle(data);
      var b := Blocks(data, title);
      var h := Header(title, data[0]) + data[0].markdown;
      BlocksStartWithHeader(data, title);
      assert h[..|"# " + title|] == "# " + title;
      StartsWithTransitive(b, h, "# " + title);
      var c := CombinedContent(snapshot);
      assert c == b + Trailer(snapshot);
      assert c[..|b|] == b;
      StartsWithTransitive(c, b, "# " + title);
      assert c[|c| - |Trailer(snapshot)|..] == Trailer(snapshot);
    }
  }

  /** The trailer names the status only for `scraping` and `completed`. */
  lemma TrailerStatus(snapshot: CrawlStatus)
    ensures snapshot.status == "completed" ==> (
      var t := Trailer(snapshot);
      t[|t| - |"Status: Crawl completed\n"|..] == "Status: Crawl completed\n")
    ensures snapshot.status != "scraping" && snapshot.status != "completed" ==> (
      var t := Trailer(snapshot);
      t[|t| - 1] == '\n' && t[|t| - |" of " + NatToString(snapshot.total) + "\n"|..] == " of " + NatToString(snapshot.total) + "\n")
  {
  }
}
