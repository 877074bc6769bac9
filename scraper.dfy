/** `scrapeWebsite` of src/app/lib/scraper.ts: start a crawl job, poll it at most
    thirty times, merge the pages of every snapshot into a running result without
    repeating a page, and return the pages of the last snapshot.
    The replies of the crawl service are inputs: one `InitReply` for the start
    request and one `PollReply` for each of the (at most thirty) status polls. */
module Scraper {
  import opened Wrappers
  import opened Text
  import opened Firecrawl

  const MaxAttempts: nat := 30
  const UntitledWebsite := "Untitled Website"

  const MissingKeyMessage := "FIRECRAWL_API_KEY is not defined in environment variables"
  const InitFailedMessage := "Failed to initiate crawl"
  const TimedOutMessage := "Timed out waiting for crawl results"
  const NoContentMessage := "No content extracted from the URL"
  /** What V8 throws when the result mapping reads `sourceURL` of a page without metadata. */
  const MissingMetadataMessage := "Cannot read properties of undefined (reading 'sourceURL')"

  /** The outer handler rethrows every error with this prefix. */
  function Wrap(message: string): string {
    "Failed to scrape website: " + message
  }

  datatype PageData = PageData(url: string, title: string, content: string, description: string)

  datatype ScrapedData = ScrapedData(pages: seq<PageData>, mainUrl: string, mainTitle: string, totalPages: int)

  /** The start request either throws (network or HTTP error, with its message)
      or answers with a success flag and a job id. */
  datatype InitReply = InitRejected(message: string) | InitReplied(success: bool, id: string)

  /** One status poll either throws (with its message) or returns a snapshot. */
  datatype PollReply = Fetched(snapshot: CrawlStatus) | PollFailed(message: string)

  /** The module-level `crawlIdMap`, from requested URL to crawl job id. It is
      written here and read by the crawl-progress route. */
  class CrawlIdMap {
    var ids: map<string, string>

    constructor ()
      ensures ids == map[]
    {
      ids := map[];
    }
  }

  // ---------------------------------------------------------------------------
  // Accumulation of pages (the body of the `forEach` over a snapshot)
  // ---------------------------------------------------------------------------

  /** The loop's accumulated state: `processedPageUrls`, `sources`,
      `combinedContent` and `mainTitle`. */
  datatype Accum = Accum(processed: set<string>, sources: seq<string>, content: string, mainTitle: string)

  const Start := Accum({}, [], "", UntitledWebsite)

  /** The page is skipped: its source URL was processed before. */
  predicate AlreadyProcessed(acc: Accum, p: Page) {
    SourceUrl(p) != "" && SourceUrl(p) in acc.processed
  }

  /** One iteration of the `forEach`: skip a page already processed; otherwise
      record its URL, adopt its title while the title is still the placeholder,
      and append its block (header for the first block, separator otherwise). */
  function IngestPage(acc: Accum, p: Page): Accum {
    if AlreadyProcessed(acc, p) then acc
    else
      var u := SourceUrl(p);
      var processed := if u != "" then acc.processed + {u} else acc.processed;
      var sources := if u != "" then acc.sources + [u] else acc.sources;
      var title := if acc.mainTitle == UntitledWebsite && Title(p) != "" then Title(p) else acc.mainTitle;
      var block := if |acc.content| > 0 then Separator(p) else Header(title, p);
      Accum(processed, sources, acc.content + block + p.markdown, title)
  }

  /** The whole `forEach` over `pages`, in order. */
  function IngestPages(acc: Accum, pages: seq<Page>): Accum {
    if pages == [] then acc
    else IngestPage(IngestPages(acc, pages[..|pages| - 1]), pages[|pages| - 1])
  }

  function SetOf(s: seq<string>): (r: set<string>)
    ensures forall x :: x in r <==> x in s
  {
    set x | x in s
  }

  lemma SetOfAppend(a: seq<string>, b: seq<string>)
    ensures SetOf(a + b) == SetOf(a) + SetOf(b)
  {
  }

  /** Reference definition of "first-observed order": the elements of `us` that
      are not in `seen` and do not occur earlier in `us`, in the order of `us`. */
  function FirstSeen(us: seq<string>, seen: set<string>): seq<string> {
    if us == [] then []
    else
      var init := us[..|us| - 1];
      var last := us[|us| - 1];
      FirstSeen(init, seen) + (if last in seen || last in init then [] else [last])
  }

  lemma {:induction false} FirstSeenAppend(a: seq<string>, b: seq<string>, seen: set<string>)
    ensures FirstSeen(a + b, seen) == FirstSeen(a, seen) + FirstSeen(b, seen + SetOf(a))
  {
    if b == [] {
      assert a + b == a;
    } else {
      var init := b[..|b| - 1];
      FirstSeenAppend(a, init, seen);
      assert (a + b)[..|a + b| - 1] == a + init;
      assert (a + b)[|a + b| - 1] == b[|b| - 1];
    }
  }

  /** The invariant of the accumulator: `sources` holds no URL twice and holds
      exactly the URLs of `processedPageUrls`, none of them empty; the content,
      once it is not empty, starts with the `# ` title header. */
  ghost predicate Valid(acc: Accum) {
    && (forall i, j :: 0 <= i < j < |acc.sources| ==> acc.sources[i] != acc.sources[j])
    && (forall u :: u in acc.sources <==> u in acc.processed)
    && "" !in acc.processed
    && (acc.content == "" || StartsWith(acc.content, "# "))
  }

  /** One page's effect: the invariant is kept, the page's URL joins the
      processed set and, when new, the end of `sources`; the content is only
      extended; a title other than the placeholder is kept. */
  lemma IngestPageFacts(acc: Accum, p: Page)
    requires Valid(acc)
    ensures Valid(IngestPage(acc, p))
    ensures IngestPage(acc, p).processed == acc.processed + SetOf(PageUrl(p))
    ensures IngestPage(acc, p).sources == acc.sources + FirstSeen(PageUrl(p), acc.processed)
    ensures StartsWith(IngestPage(acc, p).content, acc.content)
    ensures acc.mainTitle != UntitledWebsite ==> IngestPage(acc, p).mainTitle == acc.mainTitle
  {
    IngestPageUrls(acc, p);
    IngestPageContent(acc, p);
    IngestPageSources(acc, p);
    IngestPageHeader(acc, p);
  }

  /** One page only appends to the content and keeps a title that is set. */
  lemma IngestPageContent(acc: Accum, p: Page)
    ensures StartsWith(IngestPage(acc, p).content, acc.content)
    ensures acc.mainTitle != UntitledWebsite ==> IngestPage(acc, p).mainTitle == acc.mainTitle
  {
    if AlreadyProcessed(acc, p) {
      StartsWithSelf(acc.content, "");
      assert acc.content + "" == acc.content;
    } else {
      var r := IngestPage(acc, p);
      var block := if |acc.content| > 0 then Separator(p) else Header(r.mainTitle, p);
      StartsWithSelf(acc.content, block);
      StartsWithAppend(acc.content + block, acc.content, p.markdown);
    }
  }

  /** One page keeps `sources` free of repeats and in step with the processed
      set, and never records the empty URL. */
  lemma IngestPageSources(acc: Accum, p: Page)
    requires forall i, j :: 0 <= i < j < |acc.sources| ==> acc.sources[i] != acc.sources[j]
    requires forall u :: u in acc.sources <==> u in acc.processed
    requires "" !in acc.processed
    ensures var r := IngestPage(acc, p);
      && (forall i, j :: 0 <= i < j < |r.sources| ==> r.sources[i] != r.sources[j])
      && (forall u :: u in r.sources <==> u in r.processed)
      && "" !in r.processed
  {
  }

  /** Content, once present, starts with the `# ` title header. */
  lemma IngestPageHeader(acc: Accum, p: Page)
    requires acc.content == "" || StartsWith(acc.content, "# ")
    ensures IngestPage(acc, p).content == "" || StartsWith(IngestPage(acc, p).content, "# ")
  {
    if !AlreadyProcessed(acc, p) {
      var r := IngestPage(acc, p);
      if acc.content == "" {
        HeaderStartsWithHash(r.mainTitle, p);
        var block := Header(r.mainTitle, p);
        assert acc.content + block == block;
        StartsWithAppend(block, "# ", p.markdown);
      } else {
        IngestPageContent(acc, p);
        StartsWithTransitive(r.content, acc.content, "# ");
      }
    }
  }

  lemma HeaderStartsWithHash(title: string, p: Page)
    ensures StartsWith(Header(title, p), "# ")
  {
    StartsWithSelf("# ", title);
    StartsWithAppend("# " + title, "# ", "\n\n");
    StartsWithAppend("# " + title + "\n\n", "# ", if Description(p) != "" then Description(p) + "\n\n" else "");
  }

  /** One page's effect on the URL lists. */
  lemma IngestPageUrls(acc: Accum, p: Page)
    ensures IngestPage(acc, p).processed == acc.processed + SetOf(PageUrl(p))
    ensures IngestPage(acc, p).sources == acc.sources + FirstSeen(PageUrl(p), acc.processed)
  {
    var u := SourceUrl(p);
    if u != "" {
      assert FirstSeen([u], acc.processed) == FirstSeen([], acc.processed) + (if u in acc.processed then [] else [u]);
    }
  }

  /** What a snapshot's `forEach` does to the accumulator: it keeps the invariant,
      adds exactly the snapshot's source URLs to the processed set, appends to
      `sources` the new URLs in first-observed order, only appends to the content,
      and never replaces a title that is no longer the placeholder. */
  lemma IngestPagesFacts(acc: Accum, pages: seq<Page>)
    requires Valid(acc)
    ensures Valid(IngestPages(acc, pages))
    ensures IngestPages(acc, pages).processed == acc.processed + SetOf(Urls(pages))
    ensures IngestPages(acc, pages).sources == acc.sources + FirstSeen(Urls(pages), acc.processed)
    ensures StartsWith(IngestPages(acc, pages).content, acc.content)
    ensures acc.mainTitle != UntitledWebsite ==> IngestPages(acc, pages).mainTitle == acc.mainTitle
  {
    IngestPagesValid(acc, pages);
    IngestPagesUrls(acc, pages);
    IngestPagesContent(acc, pages);
  }

  lemma {:induction false} IngestPagesValid(acc: Accum, pages: seq<Page>)
    requires Valid(acc)
    ensures Valid(IngestPages(acc, pages))
  {
    if pages != [] {
      IngestPagesValid(acc, pages[..|pages| - 1]);
      IngestPageFacts(IngestPages(acc, pages[..|pages| - 1]), pages[|pages| - 1]);
    }
  }

  lemma IngestPagesUrls(acc: Accum, pages: seq<Page>)
    ensures IngestPages(acc, pages).processed == acc.processed + SetOf(Urls(pages))
    ensures IngestPages(acc, pages).sources == acc.sources + FirstSeen(Urls(pages), acc.processed)
  {
    IngestPagesProcessed(acc, pages);
    IngestPagesSources(acc, pages);
  }

  lemma {:induction false} IngestPagesProcessed(acc: Accum, pages: seq<Page>)
    ensures IngestPages(acc, pages).processed == acc.processed + SetOf(Urls(pages))
  {
    if pages != [] {
      var init := pages[..|pages| - 1];
      var p := pages[|pages| - 1];
      IngestPagesProcessed(acc, init);
      IngestPageUrls(IngestPages(acc, init), p);
      SetOfAppend(Urls(init), PageUrl(p));
    }
  }

  lemma {:induction false} IngestPagesSources(acc: Accum, pages: seq<Page>)
    ensures IngestPages(acc, pages).sources == acc.sources + FirstSeen(Urls(pages), acc.processed)
  {
    if pages != [] {
      var init := pages[..|pages| - 1];
      var p := pages[|pages| - 1];
      var mid := IngestPages(acc, init);
      IngestPagesProcessed(acc, init);
      IngestPagesSources(acc, init);
      IngestPageUrls(mid, p);
      FirstSeenAppend(Urls(init), PageUrl(p), acc.processed);
      assert IngestPages(acc, pages).sources == acc.sources + FirstSeen(Urls(init), acc.processed) + FirstSeen(PageUrl(p), mid.processed);
    }
  }

  lemma {:induction false} IngestPagesContent(acc: Accum, pages: seq<Page>)
    ensures StartsWith(IngestPages(acc, pages).content, acc.content)
    ensures acc.mainTitle != UntitledWebsite ==> IngestPages(acc, pages).mainTitle == acc.mainTitle
  {
    if pages != [] {
      var init := pages[..|pages| - 1];
      var mid := IngestPages(acc, init);
      IngestPagesContent(acc, init);
      IngestPageContent(mid, pages[|pages| - 1]);
      StartsWithTransitive(IngestPages(acc, pages).content, mid.content, acc.content);
    } else {
      StartsWithSelf(acc.content, "");
      assert acc.content + "" == acc.content;
    }
  }

  /** A page already processed, whether seen in an earlier poll or earlier in the
      same snapshot, changes nothing. */
  lemma ProcessedPageChangesNothing(acc: Accum, p: Page)
    requires SourceUrl(p) in acc.processed && SourceUrl(p) != ""
    ensures IngestPage(acc, p) == acc
  {
  }

  /** A page without a source URL is never skipped: it always appends a block
      and never touches the processed set or `sources`. */
  lemma PageWithoutUrlAppends(acc: Accum, p: Page)
    requires SourceUrl(p) == ""
    ensures IngestPage(acc, p).processed == acc.processed
    ensures IngestPage(acc, p).sources == acc.sources
    ensures |IngestPage(acc, p).content| > |acc.content| + |p.markdown|
  {
  }

  /** Within one snapshot: a page without a source URL at position `k` makes
      the content strictly longer, however often it was ingested before. */
  lemma {:induction false} IngestPagesGrowsWith(acc: Accum, pages: seq<Page>, k: nat)
    requires Valid(acc)
    requires k < |pages| && SourceUrl(pages[k]) == ""
    ensures |IngestPages(acc, pages).content| > |acc.content|
  {
    var init := pages[..|pages| - 1];
    IngestPagesFacts(acc, init);
    var mid := IngestPages(acc, init);
    if k == |pages| - 1 {
      PageWithoutUrlAppends(mid, pages[k]);
    } else {
      assert init[k] == pages[k];
      IngestPagesGrowsWith(acc, init, k);
      IngestPageFacts(mid, pages[|pages| - 1]);
    }
  }

  /** A snapshot whose every page was processed before changes nothing. */
  lemma {:induction false} AllProcessedChangesNothing(acc: Accum, pages: seq<Page>)
    requires forall k :: 0 <= k < |pages| ==> AlreadyProcessed(acc, pages[k])
    ensures IngestPages(acc, pages) == acc
  {
    if pages != [] {
      AllProcessedChangesNothing(acc, pages[..|pages| - 1]);
    }
  }

  /** Ingesting the same snapshot twice equals ingesting it once, provided every
      page of it carries a source URL. */
  lemma IngestTwiceIsIngestOnce(acc: Accum, pages: seq<Page>)
    requires Valid(acc)
    requires forall k :: 0 <= k < |pages| ==> SourceUrl(pages[k]) != ""
    ensures IngestPages(IngestPages(acc, pages), pages) == IngestPages(acc, pages)
  {
    var once := IngestPages(acc, pages);
    IngestPagesFacts(acc, pages);
    forall k | 0 <= k < |pages| ensures AlreadyProcessed(once, pages[k]) {
      UrlsMembership(pages, SourceUrl(pages[k]));
    }
    AllProcessedChangesNothing(once, pages);
  }

  /** With a page lacking a source URL, a repeated snapshot is not idempotent:
      the content grows again. */
  lemma IngestTwiceGrowsWithoutUrl(acc: Accum, pages: seq<Page>, k: nat)
    requires Valid(acc)
    requires k < |pages| && SourceUrl(pages[k]) == ""
    ensures |IngestPages(IngestPages(acc, pages), pages).content| > |IngestPages(acc, pages).content|
  {
    IngestPagesFacts(acc, pages);
    IngestPagesGrowsWith(IngestPages(acc, pages), pages, k);
  }

  /** The first block of the text is the header, naming the title adopted from
      this same page (its own title, else the placeholder) and its description,
      followed by the page's markdown. */
  lemma FirstBlockIsHeader(acc: Accum, p: Page)
    requires acc.content == "" && acc.mainTitle == UntitledWebsite && !AlreadyProcessed(acc, p)
    ensures var t := if Title(p) != "" then Title(p) else UntitledWebsite;
      && IngestPage(acc, p).mainTitle == t
      && IngestPage(acc, p).content == Header(t, p) + p.markdown
  {
  }

  /** After the first block, a page not seen before appends exactly its
      separator, naming its URL, and its markdown. */
  lemma LaterBlockIsSeparator(acc: Accum, p: Page)
    requires acc.content != "" && !AlreadyProcessed(acc, p)
    ensures IngestPage(acc, p).content == acc.content + Separator(p) + p.markdown
  {
  }

  // ---------------------------------------------------------------------------
  // The polling loop
  // ---------------------------------------------------------------------------

  /** A poll that ends the loop: a snapshot whose status is `completed`. */
  predicate Completes(r: PollReply) {
    r.Fetched? && r.snapshot.status == "completed"
  }

  /** One poll's effect on the accumulator: a failed poll changes nothing. */
  function AfterPoll(acc: Accum, r: PollReply): Accum {
    match r
    case PollFailed(_) => acc
    case Fetched(s) => if |s.data| > 0 then IngestPages(acc, s.data) else acc
  }

  /** The accumulator after the polls `rs`, starting from the empty one. */
  function AfterPolls(rs: seq<PollReply>): Accum {
    if rs == [] then Start else AfterPoll(AfterPolls(rs[..|rs| - 1]), rs[|rs| - 1])
  }

  /** `resultResponse`: the snapshot of the last poll that did not throw. */
  function LastFetched(rs: seq<PollReply>): Option<CrawlStatus> {
    if rs == [] then None
    else if rs[|rs| - 1].Fetched? then Some(rs[|rs| - 1].snapshot)
    else LastFetched(rs[..|rs| - 1])
  }

  /** The source URLs of all snapshots the polls `rs` returned, in order. */
  function AllUrls(rs: seq<PollReply>): seq<string> {
    if rs == [] then []
    else
      var last := rs[|rs| - 1];
      AllUrls(rs[..|rs| - 1]) + (if last.Fetched? then Urls(last.snapshot.data) else [])
  }

  /** Number of polls made when polling resumes at attempt `from`: it stops after
      the first `completed` snapshot and after thirty polls at the latest; no
      other reply (a failed poll, a `failed` status) ends the loop. */
  function PollsMade(rs: seq<PollReply>, from: nat): (n: nat)
    requires |rs| == MaxAttempts && from <= MaxAttempts
    ensures from <= n <= MaxAttempts
    ensures from < MaxAttempts ==> from < n
    ensures n < MaxAttempts ==> Completes(rs[n - 1])
    ensures forall k :: from <= k < n - 1 ==> !Completes(rs[k])
    decreases MaxAttempts - from
  {
    if from == MaxAttempts then MaxAttempts
    else if Completes(rs[from]) then from + 1
    else PollsMade(rs, from + 1)
  }

  /** `resultResponse` stays null exactly when every poll made threw. */
  lemma {:induction false} LastFetchedNone(rs: seq<PollReply>)
    ensures LastFetched(rs) == None <==> forall k :: 0 <= k < |rs| ==> rs[k].PollFailed?
  {
    if rs != [] {
      var init := rs[..|rs| - 1];
      LastFetchedNone(init);
      if LastFetched(rs) == None {
        forall k | 0 <= k < |rs| ensures rs[k].PollFailed? {
          if k < |init| { assert rs[k] == init[k]; }
        }
      }
    }
  }

  /** If the last successful snapshot exists it is one of the replies, and no
      later reply succeeded. */
  lemma {:induction false} LastFetchedIsLast(rs: seq<PollReply>)
    requires LastFetched(rs).Some?
    ensures exists k :: (0 <= k < |rs| && rs[k] == Fetched(LastFetched(rs).value)
                         && forall j :: k < j < |rs| ==> rs[j].PollFailed?)
  {
    var init := rs[..|rs| - 1];
    if !rs[|rs| - 1].Fetched? {
      LastFetchedIsLast(init);
      var k :| 0 <= k < |init| && init[k] == Fetched(LastFetched(init).value)
        && forall j :: k < j < |init| ==> init[j].PollFailed?;
      assert rs[k] == init[k];
      forall j | k < j < |rs| ensures rs[j].PollFailed? {
        if j < |init| { assert rs[j] == init[j]; }
      }
    }
  }

  /** Over all polls, the accumulator keeps its invariant, has processed exactly
      the URLs seen in any snapshot, and lists them once each in first-observed
      order. */
  lemma {:induction false} AfterPollsFacts(rs: seq<PollReply>)
    ensures Valid(AfterPolls(rs))
    ensures AfterPolls(rs).processed == SetOf(AllUrls(rs))
    ensures AfterPolls(rs).sources == FirstSeen(AllUrls(rs), {})
  {
    if rs != [] {
      var init := rs[..|rs| - 1];
      AfterPollsFacts(init);
      AfterPollStep(AfterPolls(init), AllUrls(init), rs[|rs| - 1]);
    }
  }

  /** One poll keeps the accumulator valid and extends its URLs by the
      snapshot's. */
  lemma AfterPollStep(acc: Accum, before: seq<string>, r: PollReply)
    requires Valid(acc) && acc.processed == SetOf(before) && acc.sources == FirstSeen(before, {})
    ensures var us := if r.Fetched? then Urls(r.snapshot.data) else [];
      && Valid(AfterPoll(acc, r))
      && AfterPoll(acc, r).processed == SetOf(before + us)
      && AfterPoll(acc, r).sources == FirstSeen(before + us, {})
  {
    var us := if r.Fetched? then Urls(r.snapshot.data) else [];
    FirstSeenAppend(before, us, {});
    SetOfAppend(before, us);
    assert {} + SetOf(before) == acc.processed;
    if r.Fetched? && |r.snapshot.data| > 0 {
      IngestPagesFacts(acc, r.snapshot.data);
    } else {
      assert us == [] && before + us == before;
    }
  }

  /** A `sourceURL` ends up in the final `sources` exactly once, and the
      processed set and `sources` hold the same URLs. */
  lemma SourcesListEachUrlOnce(rs: seq<PollReply>, u: string)
    requires u in AllUrls(rs)
    ensures u in AfterPolls(rs).sources && u in AfterPolls(rs).processed
    ensures forall i, j :: 0 <= i < j < |AfterPolls(rs).sources| ==> AfterPolls(rs).sources[i] != AfterPolls(rs).sources[j]
  {
    AfterPollsFacts(rs);
  }

  /** One poll only appends to the content and keeps a title that is set. */
  lemma AfterPollContent(acc: Accum, r: PollReply)
    ensures StartsWith(AfterPoll(acc, r).content, acc.content)
    ensures acc.mainTitle != UntitledWebsite ==> AfterPoll(acc, r).mainTitle == acc.mainTitle
  {
    if r.Fetched? && |r.snapshot.data| > 0 {
      IngestPagesContent(acc, r.snapshot.data);
    } else {
      StartsWithSelf(acc.content, "");
      assert acc.content + "" == acc.content;
    }
  }

  /** Content is append-only across polls: later content extends earlier content. */
  lemma {:induction false} ContentOnlyGrows(rs: seq<PollReply>, i: nat)
    requires i <= |rs|
    ensures StartsWith(AfterPolls(rs).content, AfterPolls(rs[..i]).content)
    decreases |rs|
  {
    if i < |rs| {
      var init := rs[..|rs| - 1];
      ContentOnlyGrows(init, i);
      assert init[..i] == rs[..i];
      AfterPollContent(AfterPolls(init), rs[|rs| - 1]);
      StartsWithTransitive(AfterPolls(rs).content, AfterPolls(init).content, AfterPolls(rs[..i]).content);
    } else {
      assert rs[..i] == rs;
    }
  }

  /** Once the title is no longer the placeholder, no later poll changes it. */
  lemma {:induction false} TitleIsSticky(rs: seq<PollReply>, i: nat)
    requires i <= |rs|
    requires AfterPolls(rs[..i]).mainTitle != UntitledWebsite
    ensures AfterPolls(rs).mainTitle == AfterPolls(rs[..i]).mainTitle
    decreases |rs|
  {
    if i < |rs| {
      var init := rs[..|rs| - 1];
      assert init[..i] == rs[..i];
      TitleIsSticky(init, i);
      AfterPollContent(AfterPolls(init), rs[|rs| - 1]);
    } else {
      assert rs[..i] == rs;
    }
  }

  // ---------------------------------------------------------------------------
  // The adopted title
  // ---------------------------------------------------------------------------

  /** The title the scraper settles on, given the titles of the pages it
      ingested in order: the first that is neither empty nor the placeholder
      (adopting `Untitled Website` itself leaves the placeholder in place), or
      the placeholder when there is none. */
  function FirstTitle(ts: seq<string>): (r: string)
    ensures r == UntitledWebsite <==> forall k :: 0 <= k < |ts| ==> ts[k] == "" || ts[k] == UntitledWebsite
    ensures r != UntitledWebsite ==>
      exists i :: 0 <= i < |ts| && ts[i] == r && forall k :: 0 <= k < i ==> ts[k] == "" || ts[k] == UntitledWebsite
  {
    if ts == [] then UntitledWebsite
    else if ts[0] != "" && ts[0] != UntitledWebsite then ts[0]
    else
      var r := FirstTitle(ts[1..]);
      assert forall k :: 1 <= k < |ts| ==> ts[k] == ts[1..][k - 1];
      if r != UntitledWebsite then
        var i :| 0 <= i < |ts[1..]| && ts[1..][i] == r && forall k :: 0 <= k < i ==> ts[1..][k] == "" || ts[1..][k] == UntitledWebsite;
        assert ts[i + 1] == r;
        r
      else r
  }

  lemma {:induction false} FirstTitleAppend(a: seq<string>, b: seq<string>)
    ensures FirstTitle(a + b) == if FirstTitle(a) != UntitledWebsite then FirstTitle(a) else FirstTitle(b)
  {
    if a == [] {
      assert a + b == b;
    } else {
      assert (a + b)[0] == a[0];
      assert (a + b)[1..] == a[1..] + b;
      FirstTitleAppend(a[1..], b);
    }
  }

  /** The titles of the pages a snapshot ingests, in order, when the URLs in
      `seen` were processed before: a page is ingested when it has no source
      URL, or its URL is neither in `seen` nor carried by an earlier page. */
  function IngestedTitles(pages: seq<Page>, seen: set<string>): seq<string> {
    if pages == [] then []
    else
      var init := pages[..|pages| - 1];
      var p := pages[|pages| - 1];
      var skipped := SourceUrl(p) != "" && (SourceUrl(p) in seen || SourceUrl(p) in Urls(init));
      IngestedTitles(init, seen) + (if skipped then [] else [Title(p)])
  }

  /** The titles of the pages ingested over the polls `rs`, in order. */
  function PolledTitles(rs: seq<PollReply>): seq<string> {
    if rs == [] then []
    else
      var init := rs[..|rs| - 1];
      var last := rs[|rs| - 1];
      PolledTitles(init) + (if last.Fetched? then IngestedTitles(last.snapshot.data, SetOf(AllUrls(init))) else [])
  }

  /** Over one snapshot, a title already set is kept; the placeholder gives way
      to the first ingested page's title that is set. */
  lemma {:induction false} IngestPagesTitle(acc: Accum, pages: seq<Page>)
    ensures IngestPages(acc, pages).mainTitle ==
      if acc.mainTitle != UntitledWebsite then acc.mainTitle else FirstTitle(IngestedTitles(pages, acc.processed))
  {
    if pages != [] {
      var init := pages[..|pages| - 1];
      var p := pages[|pages| - 1];
      var mid := IngestPages(acc, init);
      IngestPagesTitle(acc, init);
      IngestPagesProcessed(acc, init);
      assert SourceUrl(p) in mid.processed <==> SourceUrl(p) in acc.processed || SourceUrl(p) in Urls(init);
      var skipped := SourceUrl(p) != "" && (SourceUrl(p) in acc.processed || SourceUrl(p) in Urls(init));
      var tail := if skipped then [] else [Title(p)];
      FirstTitleAppend(IngestedTitles(init, acc.processed), tail);
      if tail != [] {
        assert tail[1..] == [];
      }
    }
  }

  /** The settled title is that of the first page ingested over all polls whose
      title is set, or `Untitled Website` when no ingested page has one. */
  lemma {:induction false} AfterPollsTitle(rs: seq<PollReply>)
    ensures AfterPolls(rs).mainTitle == FirstTitle(PolledTitles(rs))
  {
    if rs != [] {
      var init := rs[..|rs| - 1];
      var last := rs[|rs| - 1];
      AfterPollsTitle(init);
      AfterPollsFacts(init);
      var tail := if last.Fetched? then IngestedTitles(last.snapshot.data, SetOf(AllUrls(init))) else [];
      FirstTitleAppend(PolledTitles(init), tail);
      if last.Fetched? {
        IngestPagesTitle(AfterPolls(init), last.snapshot.data);
      }
    }
  }

  /** The `forEach` over one snapshot's pages, on the loop's variables. */
  method IngestSnapshot(acc: Accum, data: seq<Page>) returns (r: Accum)
    ensures r == IngestPages(acc, data)
  {
    var processedPageUrls, sources, combinedContent, mainTitle := acc.processed, acc.sources, acc.content, acc.mainTitle;
    var j := 0;
    while j < |data|
      invariant j <= |data|
      invariant Accum(processedPageUrls, sources, combinedContent, mainTitle) == IngestPages(acc, data[..j])
    {
      var page := data[j];
      assert data[..j + 1][..j] == data[..j];
      if !(SourceUrl(page) != "" && SourceUrl(page) in processedPageUrls) {
        if SourceUrl(page) != "" {
          processedPageUrls := processedPageUrls + {SourceUrl(page)};
          sources := sources + [SourceUrl(page)];
        }
        if mainTitle == UntitledWebsite && Title(page) != "" {
          mainTitle := Title(page);
        }
        if |combinedContent| > 0 {
          combinedContent := combinedContent + Separator(page);
        } else {
          combinedContent := combinedContent + Header(mainTitle, page);
        }
        combinedContent := combinedContent + page.markdown;
      }
      j := j + 1;
    }
    assert data[..j] == data;
    r := Accum(processedPageUrls, sources, combinedContent, mainTitle);
  }

  /** The polls up to `n` are those up to `n - 1` and poll `n - 1`. */
  lemma PollStep(replies: seq<PollReply>, n: nat)
    requires 0 < n <= |replies|
    ensures AfterPolls(replies[..n]) == AfterPoll(AfterPolls(replies[..n - 1]), replies[n - 1])
    ensures LastFetched(replies[..n])
         == if replies[n - 1].Fetched? then Some(replies[n - 1].snapshot) else LastFetched(replies[..n - 1])
  {
    assert replies[..n][..n - 1] == replies[..n - 1];
  }

  /** The polling loop: at most thirty polls, ending early only after a
      `completed` snapshot; every other reply, including a thrown poll and a
      `failed` status, is followed by another poll. */
  method PollForResults(replies: seq<PollReply>) returns (acc: Accum, resultResponse: Option<CrawlStatus>, attempts: nat)
    requires |replies| == MaxAttempts
    ensures attempts == PollsMade(replies, 0)
    ensures acc == AfterPolls(replies[..attempts])
    ensures resultResponse == LastFetched(replies[..attempts])
  {
    attempts := 0;
    resultResponse := None;
    acc := Start;
    while attempts < MaxAttempts
      invariant attempts <= MaxAttempts
      invariant PollsMade(replies, attempts) == PollsMade(replies, 0)
      invariant acc == AfterPolls(replies[..attempts])
      invariant resultResponse == LastFetched(replies[..attempts])
    {
      attempts := attempts + 1;
      PollStep(replies, attempts);
      match replies[attempts - 1]
      case PollFailed(_) =>
        // the poll threw: the error is logged and the loop polls again
      case Fetched(snapshot) =>
        resultResponse := Some(snapshot);
        if |snapshot.data| > 0 {
          acc := IngestSnapshot(acc, snapshot.data);
        }
        if snapshot.status == "completed" {
          assert PollsMade(replies, attempts - 1) == attempts;
          break;
        } else if snapshot.status == "scraping" {
          // still crawling: wait and poll again
        } else if snapshot.status == "failed" {
          // 'Crawl failed' is thrown inside the poll's own try and caught by it:
          // the loop polls again
        }
    }
  }

  // ---------------------------------------------------------------------------
  // The whole function
  // ---------------------------------------------------------------------------

  /** The `pages` of the returned data: one entry per page of the snapshot. */
  function ToPageData(p: Page): PageData
    requires p.metadata.Some?
  {
    PageData(p.metadata.value.sourceURL, p.metadata.value.title, p.markdown, p.metadata.value.description)
  }

  function MapPages(pages: seq<Page>): (r: Result<seq<PageData>>)
    ensures r.Success? <==> forall k :: 0 <= k < |pages| ==> pages[k].metadata.Some?
    ensures r.Success? ==> |r.value| == |pages| && forall k :: 0 <= k < |pages| ==> r.value[k] == ToPageData(pages[k])
    ensures r.Failure? ==> r.error == MissingMetadataMessage
  {
    if pages == [] then Success([])
    else
      var init := MapPages(pages[..|pages| - 1]);
      var last := pages[|pages| - 1];
      if init.Failure? then init
      else if last.metadata.None? then Failure(MissingMetadataMessage)
      else Success(init.value + [ToPageData(last)])
  }

  /** The statistics trailer appended to `combinedContent` after the loop. */
  function StatisticsTrailer(last: CrawlStatus): string {
    "\n\n--- Crawl Statistics ---\n"
    + "Total pages crawled: " + NatToString(last.completed) + " of " + NatToString(last.total) + "\n"
    + (if last.next != "" then "\nNote: There are more pages available that weren't included in this crawl.\n" else "")
  }

  /** What follows the loop, given the polls made: 'Timed out' without any
      successful poll, 'No content' when no page had a source URL, otherwise the
      pages of the last successful snapshot. */
  function PollOutcome(url: string, polled: seq<PollReply>): Result<ScrapedData> {
    match LastFetched(polled)
    case None => Failure(TimedOutMessage)
    case Some(last) =>
      var acc := AfterPolls(polled);
      if acc.processed == {} then Failure(NoContentMessage)
      else match MapPages(last.data)
        case Failure(e) => Failure(e)
        case Success(pages) => Success(ScrapedData(pages, url, acc.mainTitle, last.total))
  }

  /** The result of `scrapeWebsite`: the data, or the message of the error it
      throws, every message carrying the outer handler's prefix. */
  function ScrapeOutcome(url: string, apiKeySet: bool, init: InitReply, replies: seq<PollReply>): Result<ScrapedData>
    requires |replies| == MaxAttempts
  {
    if !apiKeySet then Failure(Wrap(MissingKeyMessage))
    else match init
      case InitRejected(message) => Failure(Wrap(message))
      case InitReplied(success, id) =>
        if !success || id == "" then Failure(Wrap(InitFailedMessage))
        else match PollOutcome(url, replies[..PollsMade(replies, 0)])
          case Failure(e) => Failure(Wrap(e))
          case Success(d) => Success(d)
  }

  /** `scrapeWebsite(url)`: records the job id under `url` once the crawl is
      started, polls, and returns `ScrapeOutcome`. `combinedContent` is the text
      the function accumulates (with its statistics trailer when it gets that
      far); the source builds it but does not return it. */
  method ScrapeWebsite(crawlIdMap: CrawlIdMap, url: string, apiKeySet: bool, init: InitReply, replies: seq<PollReply>)
    returns (r: Result<ScrapedData>, combinedContent: string)
    requires |replies| == MaxAttempts
    modifies crawlIdMap
    ensures r == ScrapeOutcome(url, apiKeySet, init, replies)
    ensures crawlIdMap.ids == if apiKeySet && init.InitReplied? && init.success && init.id != ""
      then old(crawlIdMap.ids)[url := init.id] else old(crawlIdMap.ids)
    ensures r.Success? ==> LastFetched(replies[..PollsMade(replies, 0)]).Some?
    ensures r.Success? ==> combinedContent == AfterPolls(replies[..PollsMade(replies, 0)]).content
                                               + StatisticsTrailer(LastFetched(replies[..PollsMade(replies, 0)]).value)
  {
    combinedContent := "";
    if !apiKeySet {
      return Failure(Wrap(MissingKeyMessage)), combinedContent;
    }
    match init
    case InitRejected(message) =>
      return Failure(Wrap(message)), combinedContent;
    case InitReplied(success, id) =>
      if !success || id == "" {
        return Failure(Wrap(InitFailedMessage)), combinedContent;
      }
      crawlIdMap.ids := crawlIdMap.ids[url := id];
      var acc, resultResponse, attempts := PollForResults(replies);
      combinedContent := acc.content;
      if resultResponse.None? {
        return Failure(Wrap(TimedOutMessage)), combinedContent;
      }
      if |acc.processed| == 0 {
        return Failure(Wrap(NoContentMessage)), combinedContent;
      }
      var last := resultResponse.value;
      combinedContent := combinedContent + StatisticsTrailer(last);
      var pages := MapPages(last.data);
      if pages.Failure? {
        return Failure(Wrap(pages.error)), combinedContent;
      }
      r := Success(ScrapedData(pages.value, url, acc.mainTitle, last.total));
  }

  // ---------------------------------------------------------------------------
  // Properties of the outcome
  // ---------------------------------------------------------------------------

  predicate Started(apiKeySet: bool, init: InitReply) {
    apiKeySet && init.InitReplied? && init.success && init.id != ""
  }

  /** 'Timed out' is thrown exactly when every poll made threw; then all thirty
      polls were made. */
  lemma TimedOutIffNoPollSucceeded(url: string, replies: seq<PollReply>)
    requires |replies| == MaxAttempts
    ensures var polled := replies[..PollsMade(replies, 0)];
      PollOutcome(url, polled) == Failure(TimedOutMessage)
      <==> forall k :: 0 <= k < |polled| ==> polled[k].PollFailed?
    ensures (forall k :: 0 <= k < PollsMade(replies, 0) ==> replies[k].PollFailed?) ==> PollsMade(replies, 0) == MaxAttempts
  {
    TimedOutIffAllFailed(url, replies[..PollsMade(replies, 0)]);
    AllFailedMeansAllPolls(replies);
  }

  lemma TimedOutIffAllFailed(url: string, polled: seq<PollReply>)
    ensures PollOutcome(url, polled) == Failure(TimedOutMessage) <==> forall k :: 0 <= k < |polled| ==> polled[k].PollFailed?
  {
    LastFetchedNone(polled);
    if LastFetched(polled).Some? {
      MessagesDistinct();
      var o := PollOutcome(url, polled);
      assert o.Failure? ==> o.error in {NoContentMessage, MissingMetadataMessage};
    }
  }

  lemma AllFailedMeansAllPolls(replies: seq<PollReply>)
    requires |replies| == MaxAttempts
    ensures (forall k :: 0 <= k < PollsMade(replies, 0) ==> replies[k].PollFailed?) ==> PollsMade(replies, 0) == MaxAttempts
  {
    var n := PollsMade(replies, 0);
    if n < MaxAttempts {
      assert Completes(replies[n - 1]);
    }
  }

  lemma MessagesDistinct()
    ensures TimedOutMessage != NoContentMessage
    ensures TimedOutMessage != MissingMetadataMessage
    ensures NoContentMessage != MissingMetadataMessage
  {
    assert |TimedOutMessage| == 35 && |NoContentMessage| == 33 && |MissingMetadataMessage| == 57;
  }

  /** When some poll succeeded, 'No content extracted' is thrown exactly when no
      snapshot held a page with a source URL. */
  lemma NoContentIffNoSourceUrl(url: string, polled: seq<PollReply>)
    requires LastFetched(polled).Some?
    ensures PollOutcome(url, polled) == Failure(NoContentMessage) <==> AllUrls(polled) == []
  {
    AfterPollsFacts(polled);
    var us := AllUrls(polled);
    if us != [] {
      assert us[0] in AfterPolls(polled).processed;
      MessagesDistinct();
    } else {
      assert AfterPolls(polled).processed == {};
    }
  }

  /** A successful result carries the input URL, the title the accumulator
      settled on, and the last successful snapshot's `total`; its pages are that
      snapshot's pages one-to-one (not the deduplicated set), and at least one
      snapshot held a page with a source URL. */
  lemma SuccessShape(url: string, polled: seq<PollReply>)
    requires PollOutcome(url, polled).Success?
    ensures var d := PollOutcome(url, polled).value;
      && LastFetched(polled).Some?
      && d.mainUrl == url
      && d.mainTitle == AfterPolls(polled).mainTitle
      && d.totalPages == LastFetched(polled).value.total
      && |d.pages| == |LastFetched(polled).value.data|
      && (forall k :: 0 <= k < |d.pages| ==> d.pages[k] == ToPageData(LastFetched(polled).value.data[k]))
      && AllUrls(polled) != []
  {
    AfterPollsFacts(polled);
  }

  /** Every failure of `scrapeWebsite` carries the outer handler's prefix, and the
      prefix can be taken off again to recover the inner message. */
  lemma FailuresAreWrapped(url: string, apiKeySet: bool, init: InitReply, replies: seq<PollReply>)
    requires |replies| == MaxAttempts
    requires ScrapeOutcome(url, apiKeySet, init, replies).Failure?
    ensures exists inner :: ScrapeOutcome(url, apiKeySet, init, replies).error == Wrap(inner)
  {
    var e := ScrapeOutcome(url, apiKeySet, init, replies).error;
    if !apiKeySet {
      assert e == Wrap(MissingKeyMessage);
    } else if init.InitRejected? {
      assert e == Wrap(init.message);
    } else if !init.success || init.id == "" {
      assert e == Wrap(InitFailedMessage);
    } else {
      assert e == Wrap(PollOutcome(url, replies[..PollsMade(replies, 0)]).error);
    }
  }

  lemma WrapInjective(a: string, b: string)
    ensures Wrap(a) == Wrap(b) ==> a == b
  {
    if Wrap(a) == Wrap(b) {
      assert a == Wrap(a)[26..];
      assert b == Wrap(b)[26..];
    }
  }
}
