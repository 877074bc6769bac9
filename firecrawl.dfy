/** The reply of the crawl service's "get crawl status" call, as both
    src/app/lib/scraper.ts and src/app/api/partial-content/route.ts declare it.
    Missing optional strings and empty strings are both `""`: every test the
    application makes on them is a truthiness test. */
module Firecrawl {
  import opened Wrappers

  datatype Metadata = Metadata(title: string, sourceURL: string, description: string)

  /** One crawled page; `metadata` may be missing altogether. */
  datatype Page = Page(markdown: string, metadata: Option<Metadata>)

  /** A crawl-status snapshot: the job status text, the page counters, the
      optional `next` cursor and the pages crawled so far. */
  datatype CrawlStatus = CrawlStatus(status: string, total: nat, completed: nat, next: string, data: seq<Page>)

  /** `page.metadata?.sourceURL`, with `""` when either is missing. */
  function SourceUrl(p: Page): string {
    if p.metadata.Some? then p.metadata.value.sourceURL else ""
  }

  /** `page.metadata?.title`, with `""` when either is missing. */
  function Title(p: Page): string {
    if p.metadata.Some? then p.metadata.value.title else ""
  }

  /** `page.metadata?.description`, with `""` when either is missing. */
  function Description(p: Page): string {
    if p.metadata.Some? then p.metadata.value.description else ""
  }

  /** The non-empty source URLs of `pages`, in page order, duplicates kept. */
  function Urls(pages: seq<Page>): (r: seq<string>)
    ensures |r| <= |pages|
    ensures forall k :: 0 <= k < |r| ==> r[k] != ""
  {
    if pages == [] then []
    else
      var last := pages[|pages| - 1];
      Urls(pages[..|pages| - 1]) + PageUrl(last)
  }

  /** The page's source URL as a list of at most one element. */
  function PageUrl(p: Page): (r: seq<string>)
    ensures |r| <= 1 && (r == [] <==> SourceUrl(p) == "")
  {
    if SourceUrl(p) != "" then [SourceUrl(p)] else []
  }

  /** A URL is listed by `Urls` exactly when some page carries it. */
  lemma {:induction false} UrlsMembership(pages: seq<Page>, u: string)
    ensures u in Urls(pages) <==> u != "" && exists k :: 0 <= k < |pages| && SourceUrl(pages[k]) == u
  {
    if pages != [] {
      var init := pages[..|pages| - 1];
      UrlsMembership(init, u);
      if u in Urls(init) {
        var k :| 0 <= k < |init| && SourceUrl(init[k]) == u;
        assert SourceUrl(pages[k]) == u;
      }
      if u != "" && exists k :: 0 <= k < |pages| && SourceUrl(pages[k]) == u {
        var k :| 0 <= k < |pages| && SourceUrl(pages[k]) == u;
        if k < |init| {
          assert SourceUrl(init[k]) == u;
        }
      }
    }
  }

  /** The separator placed before every page block but the first. */
  function Separator(p: Page): string {
    "\n\n--- Content from " + (if SourceUrl(p) != "" then SourceUrl(p) else "unknown URL") + " ---\n\n"
  }

  /** The header placed before the first page block. */
  function Header(title: string, p: Page): string {
    "# " + title + "\n\n" + (if Description(p) != "" then Description(p) + "\n\n" else "")
  }
}
