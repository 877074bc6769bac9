/** The crawl-progress route (src/app/api/crawl-progress/route.ts): the job id
    the scraper stored for a URL, and a progress message chosen from the crawl
    service's status reply. The stored ids and the reply are inputs. */
module CrawlProgress {
  import opened Wrappers
  import opened Text
  import Home

  /** The crawl service's status reply; its counters may be missing. */
  datatype StatusReply = StatusReply(status: string, completed: Option<int>, total: Option<int>)

  /** The route's JSON body: `crawlId` and `status` appear only in some bodies. */
  datatype ProgressBody =
    | Body(progress: string, crawlId: Option<string>, completed: int, total: int, status: Option<string>)
    | BadRequest(error: string)

  const UrlRequired := "URL parameter is required"
  const Initializing := "Initializing crawl..."
  const MissingKeyMessage := "FIRECRAWL_API_KEY is not defined in environment variables"

  /** `crawlIdMap[url]`, with `""` for a URL without a stored id. */
  function Lookup(ids: map<string, string>, url: string): string {
    if url in ids then ids[url] else ""
  }

  /** A counter as a template literal renders it. */
  function RenderCount(c: Option<int>): (r: string)
    ensures 'C' !in r && 'y' !in r
    ensures c.Some? ==> r == IntToString(c.value)
    ensures c.None? ==> r == "undefined"
  {
    match c
    case Some(n) =>
      var r := IntToString(n);
      assert forall k :: 0 <= k < |r| ==> r[k] == '-' || IsDigit(r[k]);
      r
    case None => "undefined"
  }

  /** The progress message for a status: counts while scraping, the completed
      count when done, a fixed text for a failure, and the initial text for any
      other status. */
  function ProgressMessage(reply: StatusReply): (m: string)
    ensures reply.status == "scraping" ==> (
      && StartsWith(m, "Crawl in progress: ")
      && m == "Crawl in progress: " + RenderCount(reply.completed) + "/" + RenderCount(reply.total) + " pages completed")
    ensures reply.status == "completed" ==> (
      && StartsWith(m, "Crawl completed: ")
      && m == "Crawl completed: " + RenderCount(reply.completed) + " pages crawled")
    ensures reply.status == "failed" ==> m == "Crawl failed"
    ensures reply.status !in {"scraping", "completed", "failed"} ==> m == Initializing
  {
    if reply.status == "scraping" then
      "Crawl in progress: " + RenderCount(reply.completed) + "/" + RenderCount(reply.total) + " pages completed"
    else if reply.status == "completed" then
      "Crawl completed: " + RenderCount(reply.completed) + " pages crawled"
    else if reply.status == "failed" then "Crawl failed"
    else Initializing
  }

  /** `GET`: the query check, the id lookup, then the reply or the error that
      replaced it. */
  function Get(url: string, ids: map<string, string>, apiKeySet: bool, fetched: Result<StatusReply>): (r: ProgressBody)
    ensures url == "" ==> r == BadRequest(UrlRequired)
    ensures url != "" && Lookup(ids, url) == "" ==> r == Body(Initializing, None, 0, 0, None)
    ensures url != "" && Lookup(ids, url) != "" ==> r.Body? && r.crawlId == Some(Lookup(ids, url))
    ensures url != "" && Lookup(ids, url) != "" && !apiKeySet
      ==> r.progress == "Error fetching progress: " + MissingKeyMessage && r.completed == 0 && r.total == 0
    ensures url != "" && Lookup(ids, url) != "" && apiKeySet && fetched.Failure?
      ==> r.progress == "Error fetching progress: " + fetched.error && r.completed == 0 && r.total == 0 && r.status.None?
    ensures url != "" && Lookup(ids, url) != "" && apiKeySet && fetched.Success? ==> (
      var reply := fetched.value;
      r.progress == ProgressMessage(reply) && r.status == Some(reply.status)
      && r.completed == reply.completed.GetOr(0) && r.total == reply.total.GetOr(0))
  {
    if url == "" then BadRequest(UrlRequired)
    else
      var crawlId := Lookup(ids, url);
      if crawlId == "" then Body(Initializing, None, 0, 0, None)
      else if !apiKeySet then Body("Error fetching progress: " + MissingKeyMessage, Some(crawlId), 0, 0, None)
      else match fetched
        case Failure(message) => Body("Error fetching progress: " + message, Some(crawlId), 0, 0, None)
        case Success(data) =>
          Body(ProgressMessage(data), Some(crawlId), Count(data.completed), Count(data.total), Some(data.status))
  }

  /** `value || 0` on a counter. */
  function Count(c: Option<int>): (n: int)
    ensures c.None? ==> n == 0
    ensures c.Some? ==> n == c.value
  {
    if c.Some? && c.value != 0 then c.value else 0
  }

  /** Of the messages this route derives from a status, the page's completion
      test fires exactly on the one for a completed crawl. */
  lemma CompletionSignalledIffCompleted(reply: StatusReply)
    ensures Home.SignalsCompletion(ProgressMessage(reply)) <==> reply.status == "completed"
  {
    if reply.status == "completed" {
      Home.CompletedMessageSignals(": " + RenderCount(reply.completed) + " pages crawled");
      assert ProgressMessage(reply) == "Crawl completed" + (": " + RenderCount(reply.completed) + " pages crawled");
    } else {
      OtherMessagesSignalNothing(reply);
    }
  }

  lemma OtherMessagesSignalNothing(reply: StatusReply)
    requires reply.status != "completed"
    ensures !Home.SignalsCompletion(ProgressMessage(reply))
  {
    var m := ProgressMessage(reply);
    if reply.status == "scraping" {
      ScrapingMessageSignalsNothing(RenderCount(reply.completed), RenderCount(reply.total));
    } else if reply.status == "failed" {
      FailedMessageCharacters("Crawl failed");
      FixedMessageSignalsNothing("Crawl failed", 'm');
    } else {
      InitializingCharacters();
      FixedMessageSignalsNothing(Initializing, 'C');
    }
  }

  lemma FailedMessageCharacters(m: string)
    requires m == "Crawl failed"
    ensures 'm' !in m && 'y' !in m
  {
    LacksBoth(m, 'm', 'y');
  }

  lemma InitializingCharacters()
    ensures 'C' !in Initializing && 'y' !in Initializing
  {
    LacksBoth(Initializing, 'C', 'y');
  }

  lemma FixedMessageSignalsNothing(m: string, c: char)
    requires c in "Crawl completed" && c !in m && 'y' !in m
    ensures !Home.SignalsCompletion(m)
  {
    MissingCharNotContained(m, "Crawl completed", c);
    MissingCharNotContained(m, "generating summary", 'y');
  }

  lemma ScrapingMessageSignalsNothing(a: string, b: string)
    requires 'C' !in a && 'y' !in a && 'C' !in b && 'y' !in b
    ensures !Home.SignalsCompletion("Crawl in progress: " + a + "/" + b + " pages completed")
  {
    var head, tail := "Crawl in progress: ", " pages completed";
    var m := head + a + "/" + b + tail;
    ScrapingPiecesCharacters(head, tail);
    LacksAppend(head[1..], a, 'C');
    LacksAppend(head[1..] + a, "/", 'C');
    LacksAppend(head[1..] + a + "/", b, 'C');
    LacksAppend(head[1..] + a + "/" + b, tail, 'C');
    LacksAppend(head, a, 'y');
    LacksAppend(head + a, "/", 'y');
    LacksAppend(head + a + "/", b, 'y');
    LacksAppend(head + a + "/" + b, tail, 'y');
    DropFirstAppend(head, a);
    DropFirstAppend(head + a, "/");
    DropFirstAppend(head + a + "/", b);
    DropFirstAppend(head + a + "/" + b, tail);
    assert 'C' !in m[1..];
    assert m[6] == 'i';
    FirstCharOnlyAtStartNotContained(m, "Crawl completed");
    MissingCharNotContained(m, "generating summary", 'y');
  }

  /** The fixed pieces of the running message: it starts `Crawl i`, has no
      other `C`, and no `y`. */
  lemma ScrapingPiecesCharacters(head: string, tail: string)
    requires head == "Crawl in progress: " && tail == " pages completed"
    ensures |head| > 6 && head[0] == 'C' && head[6] == 'i'
    ensures 'C' !in head[1..] && 'y' !in head && 'C' !in tail && 'y' !in tail
  {
    ScrapingHeadCharacters(head);
    LacksBoth(tail, 'C', 'y');
  }

  lemma ScrapingHeadCharacters(head: string)
    requires head == "Crawl in progress: "
    ensures |head| > 6 && head[0] == 'C' && head[6] == 'i'
    ensures 'C' !in head[1..] && 'y' !in head
  {
    LacksBoth(head[1..], 'C', 'y');
  }

  /** Every body for a known URL carries the stored id, and every error body
      reports zero counts. */
  lemma ErrorBodiesCarryIdAndZeros(url: string, ids: map<string, string>, apiKeySet: bool, fetched: Result<StatusReply>)
    requires url != "" && Lookup(ids, url) != ""
    requires !apiKeySet || fetched.Failure?
    ensures var r := Get(url, ids, apiKeySet, fetched);
      r.Body? && r.crawlId == Some(Lookup(ids, url)) && r.completed == 0 && r.total == 0
      && StartsWith(r.progress, "Error fetching progress: ")
  {
    var r := Get(url, ids, apiKeySet, fetched);
    var rest := if !apiKeySet then MissingKeyMessage else fetched.error;
    assert r.progress == "Error fetching progress: " + rest;
    assert r.progress[..|"Error fetching progress: "|] == "Error fetching progress: ";
  }
}
