/** The orchestration of src/app/page.tsx: the progress display, the two
    interval handles (content polling and progress polling), the crawl flags,
    the URL submission with its error classification, and the chat request the
    page forwards. Timer handles are opaque numbers; `running` is the set of
    intervals that are still scheduled. Every reply (progress poll, content
    poll, scrape request, chat request) is an input. */
module Home {
  import opened Wrappers
  import opened Text
  import opened Scraper
  import opened ChatInterface
  import opened Llm

  /** The model the page starts with. */
  const InitialModel := "typhoon-v2.1-12b-instruct"

  /** `WebsiteData`: every field is read from the scrape reply, where each may be
      missing; missing strings are `""`. */
  datatype WebsiteData = WebsiteData(url: string, title: string, summary: string, pages: Option<seq<PageData>>, totalPages: Option<int>)

  datatype PartialWebsiteData = PartialWebsiteData(url: string, title: string, pages: seq<PageData>, completed: int, total: int,
                                                   totalPages: Option<int>, summary: string)

  /** What the progress bar shows. */
  datatype ProgressView = ProgressView(status: string, completed: int, total: int, value: int)

  datatype Toast = SuccessToast(text: string) | ErrorToast(text: string)

  /** The page's state, as one value. */
  datatype PageState = PageState(
    isLoading: bool,
    websiteData: Option<WebsiteData>,
    partialData: Option<PartialWebsiteData>,
    isCrawlComplete: bool,
    crawlId: string,
    pollingInterval: Option<nat>,
    progressPollingInterval: Option<nat>,
    running: set<nat>,
    showProgress: bool,
    progress: ProgressView,
    toasts: seq<Toast>)

  /** The reply to a progress poll: not OK (ignored), thrown (swallowed), or the
      route's body. */
  datatype ProgressReply = ProgressNotOk | ProgressThrew | Progress(progress: string, crawlId: string, completed: int, total: int)

  /** The reply to a content poll: thrown (a failed fetch, a non-OK status or an
      unreadable body, all swallowed), or the route's body. */
  datatype ContentReply = ContentThrew
    | Content(status: string, completed: int, total: int, title: string, pages: Option<seq<PageData>>, totalPages: Option<int>, summary: string)

  /** The outcome of the scrape request: the fetch rejected, a non-OK reply with
      its `error` field, a body that cannot be read, or the data. */
  datatype SubmitReply = FetchRejected(message: string) | NotOk(error: string) | BodyUnreadable(message: string) | Ok(data: WebsiteData)

  // ---------------------------------------------------------------------------
  // Pure parts of the handlers
  // ---------------------------------------------------------------------------

  /** `Math.floor((completed / total) * 100)` for a positive total, else 0,
      computed on integers. */
  function Percentage(completed: int, total: int): (p: int)
    ensures total > 0 ==> p * total <= completed * 100 < p * total + total
    ensures total <= 0 ==> p == 0
  {
    if total > 0 then (completed * 100) / total else 0
  }

  /** A share of the total gives a value between 0 and 100; the whole total
      gives 100. Nothing caps the value at 100. */
  lemma PercentageRange(completed: int, total: int)
    requires 0 <= completed <= total && total > 0
    ensures 0 <= Percentage(completed, total) <= 100
    ensures completed == total ==> Percentage(completed, total) == 100
  {
    var p := Percentage(completed, total);
    MulMonotone(completed, total, 100);
    if p > 100 {
      MulMonotone(101, p, total);
    }
    if p < 0 {
      MulMonotone(p, -1, total);
    }
    if completed == total && p < 100 {
      MulMonotone(p + 1, 100, total);
    }
  }

  lemma {:induction false} MulMonotone(a: int, b: int, c: nat)
    requires a <= b
    ensures a * c <= b * c
  {
    if c > 0 {
      MulMonotone(a, b, c - 1);
      assert a * c == a * (c - 1) + a;
      assert b * c == b * (c - 1) + b;
    }
  }

  lemma PercentageNotCapped()
    ensures Percentage(3, 2) == 150
  {
  }

  /** The entries of the input: split at commas, trimmed, empty ones dropped. */
  function Entries(parts: seq<string>): (r: seq<string>)
    ensures |r| <= |parts|
    ensures forall k :: 0 <= k < |r| ==> IsEntry(r[k])
  {
    if parts == [] then []
    else if Trim(parts[0]) == [] then Entries(parts[1..])
    else
      var rest := Entries(parts[1..]);
      EntryCons(Trim(parts[0]), rest);
      [Trim(parts[0])] + rest
  }

  /** A non-empty string with no whitespace at either end. */
  predicate IsEntry(e: string) {
    e != [] && !IsWhitespace(e[0]) && !IsWhitespace(e[|e| - 1])
  }

  lemma EntryCons(e: string, rest: seq<string>)
    requires IsEntry(e) && forall k :: 0 <= k < |rest| ==> IsEntry(rest[k])
    ensures forall k :: 0 <= k < |[e] + rest| ==> IsEntry(([e] + rest)[k])
  {
    forall k | 0 <= k < |[e] + rest| ensures IsEntry(([e] + rest)[k]) {
      if k > 0 {
        assert ([e] + rest)[k] == rest[k - 1];
      }
    }
  }

  /** `urls[0]`: the first non-blank comma-separated entry, trimmed. */
  function FirstUrl(urlInput: string): Option<string> {
    var urls := Entries(Split(urlInput, ','));
    if urls == [] then None else Some(urls[0])
  }

  /** The first entry is the first part that is not blank, trimmed; it holds no
      comma and no surrounding whitespace. */
  lemma {:induction false} EntriesHead(parts: seq<string>)
    requires Entries(parts) != []
    ensures (exists k :: 0 <= k < |parts| && Entries(parts)[0] == Trim(parts[k])
                         && forall j :: 0 <= j < k ==> Trim(parts[j]) == [])
  {
    if Trim(parts[0]) == [] {
      EntriesHead(parts[1..]);
      var k :| 0 <= k < |parts[1..]| && Entries(parts[1..])[0] == Trim(parts[1..][k])
        && forall j :: 0 <= j < k ==> Trim(parts[1..][j]) == [];
      assert Entries(parts)[0] == Trim(parts[k + 1]);
      forall j | 0 <= j < k + 1 ensures Trim(parts[j]) == [] {
        if j > 0 { assert parts[j] == parts[1..][j - 1]; }
      }
    } else {
      assert Entries(parts)[0] == Trim(parts[0]);
    }
  }

  /** Without a comma the whole input, trimmed, is the URL, unless it is blank. */
  lemma FirstUrlWithoutComma(urlInput: string)
    requires ',' !in urlInput
    ensures FirstUrl(urlInput) == if Trim(urlInput) == [] then None else Some(Trim(urlInput))
  {
    assert Split(urlInput, ',') == [urlInput];
    assert Split(urlInput, ',')[1..] == [];
  }

  /** Only the first entry is used: later entries do not matter. */
  lemma FirstUrlIgnoresRest(first: string, rest: string)
    requires ',' !in first && Trim(first) != []
    ensures FirstUrl(first + [','] + rest) == Some(Trim(first))
  {
    var s := first + [','] + rest;
    assert s[|first|] == ',';
    var i := FirstIndexOfChar(s, ',');
    assert s[..i] == first;
  }

  /** The progress statuses the page shows. */
  const InitialStatus := "Initializing crawl..."
  const InitiatingHead := "Initiating crawl for "
  const Ellipsis := "..."
  const CrawlingPrefix := "Crawling website: "
  const CrawlingStatus := "Crawling website..."
  const GeneratingStatus := "Generating summary..."
  const CompletedHead := "Crawl completed: "
  const CompletedTail := " pages crawled. Generating summary..."

  const SuccessText := "Website analyzed successfully!"
  const AnalyzeFirstText := "Please analyze a website first."

  const ApiKeyText := "Error: The Firecrawl API key is not configured. Please contact the administrator."
  const NoContentText := "Error: Could not extract content from this website. Please try a different URL."
  const RateLimitText := "Error: Rate limit exceeded. Please try again later."
  const TimedOutText := "Error: The crawl process timed out. The website might be too large or not responding."
  const CrawlFailedText := "Error: The crawl process failed. Please try a different website."

  /** The toast text for a failed submission: the first matching substring in
      the order API key, no content, rate limit, timeout, crawl failure;
      otherwise the message after `Error: `. */
  function ClassifySubmitError(message: string): (text: string)
    ensures Contains(message, "Firecrawl API key") ==> text == ApiKeyText
    ensures !Contains(message, "Firecrawl API key") && Contains(message, "No content extracted") ==> text == NoContentText
    ensures (!Contains(message, "Firecrawl API key") && !Contains(message, "No content extracted")
             && Contains(message, "Rate limit")) ==> text == RateLimitText
    ensures (!Contains(message, "Firecrawl API key") && !Contains(message, "No content extracted")
             && !Contains(message, "Rate limit") && Contains(message, "Timed out")) ==> text == TimedOutText
    ensures (!Contains(message, "Firecrawl API key") && !Contains(message, "No content extracted")
             && !Contains(message, "Rate limit") && !Contains(message, "Timed out") && Contains(message, "Crawl failed"))
            ==> text == CrawlFailedText
    ensures (!Contains(message, "Firecrawl API key") && !Contains(message, "No content extracted")
             && !Contains(message, "Rate limit") && !Contains(message, "Timed out") && !Contains(message, "Crawl failed"))
            ==> text == "Error: " + message
  {
    if Contains(message, "Firecrawl API key") then ApiKeyText
    else if Contains(message, "No content extracted") then NoContentText
    else if Contains(message, "Rate limit") then RateLimitText
    else if Contains(message, "Timed out") then TimedOutText
    else if Contains(message, "Crawl failed") then CrawlFailedText
    else "Error: " + message
  }

  /** A message naming several causes gets the text of the earliest in the
      order: a timeout reported with a rate limit reads as a rate limit. */
  lemma ClassifyFirstMatchWins(a: string, b: string, c: string)
    requires !Contains(a + "Timed out" + b + "Rate limit" + c, "Firecrawl API key")
    requires !Contains(a + "Timed out" + b + "Rate limit" + c, "No content extracted")
    ensures ClassifySubmitError(a + "Timed out" + b + "Rate limit" + c) == RateLimitText
  {
    var m := a + "Timed out" + b + "Rate limit" + c;
    assert m == (a + "Timed out" + b) + "Rate limit" + c;
    ContainsMiddle(a + "Timed out" + b, "Rate limit", c);
  }

  /** A non-OK reply whose message names none of the recognised causes is
      reported as that message after `Error: `. */
  lemma UnrecognisedErrorToast(s: PageState, error: string)
    requires !Contains(NotOkMessage(error), "Firecrawl API key") && !Contains(NotOkMessage(error), "No content extracted")
    requires !Contains(NotOkMessage(error), "Rate limit") && !Contains(NotOkMessage(error), "Timed out")
    requires !Contains(NotOkMessage(error), "Crawl failed")
    ensures SubmitOutcome(s, NotOk(error)).toasts[|s.toasts|] == ErrorToast("Error: " + NotOkMessage(error))
  {
  }

  /** The fallback for a non-OK reply without an `error` text names none of
      the recognised causes, so that reply is reported as
      `Error: Failed to analyze website`. */
  lemma FallbackNamesNoCause(m: string)
    requires m == NotOkMessage("")
    ensures m == "Failed to analyze website"
    ensures !Contains(m, "Firecrawl API key") && !Contains(m, "No content extracted") && !Contains(m, "Rate limit")
    ensures !Contains(m, "Timed out") && !Contains(m, "Crawl failed")
  {
    FallbackLetters(m);
    MissingCharNotContained(m, "Firecrawl API key", 'P');
    MissingCharNotContained(m, "No content extracted", 'N');
    MissingCharNotContained(m, "Rate limit", 'R');
    MissingCharNotContained(m, "Timed out", 'T');
    MissingCharNotContained(m, "Crawl failed", 'C');
  }

  lemma FallbackLetters(m: string)
    requires m == "Failed to analyze website"
    ensures 'P' !in m && 'N' !in m && 'R' !in m && 'T' !in m && 'C' !in m
  {
    assert forall i :: 0 <= i < |m| ==> m[i] != 'P' && m[i] != 'N' && m[i] != 'R' && m[i] != 'T' && m[i] != 'C';
  }

  /** The message a non-OK scrape reply raises: its `error` field, or a fixed text. */
  function NotOkMessage(error: string): string {
    if error != "" then error else "Failed to analyze website"
  }

  /** A completion notice in a progress message. */
  predicate SignalsCompletion(progress: string) {
    Contains(progress, "Crawl completed") || Contains(progress, "generating summary")
  }

  /** The crawl-progress route's message for a finished crawl signals completion. */
  lemma CompletedMessageSignals(rest: string)
    ensures SignalsCompletion("Crawl completed" + rest)
  {
    ContainsPrefix("Crawl completed" + rest, "Crawl completed", rest);
  }

  /** Template-literal rendering of an optional first URL. */
  function RenderUrl(url: Option<string>): string {
    match url
    case Some(u) => u
    case None => "undefined"
  }

  // ---------------------------------------------------------------------------
  // State transitions
  // ---------------------------------------------------------------------------

  /** `updateProgress`: records status, counts and percentage and shows the bar. */
  function WithProgress(s: PageState, status: string, completed: int, total: int): (r: PageState)
    ensures r.progress == ProgressView(status, completed, total, Percentage(completed, total)) && r.showProgress
    ensures r == s.(progress := r.progress, showProgress := true)
  {
    s.(progress := ProgressView(status, completed, total, Percentage(completed, total)), showProgress := true)
  }

  /** `if (ref.current) { clearInterval(ref.current); ref.current = null; }` for each ref. */
  function StopContentPolling(s: PageState): (r: PageState)
    ensures r.pollingInterval.None?
    ensures s.pollingInterval.Some? ==> s.pollingInterval.value !in r.running
    ensures r == s.(pollingInterval := None, running := r.running) && r.running <= s.running
  {
    match s.pollingInterval
    case None => s
    case Some(h) => s.(pollingInterval := None, running := s.running - {h})
  }

  function StopProgressPolling(s: PageState): (r: PageState)
    ensures r.progressPollingInterval.None?
    ensures s.progressPollingInterval.Some? ==> s.progressPollingInterval.value !in r.running
    ensures r == s.(progressPollingInterval := None, running := r.running) && r.running <= s.running
  {
    match s.progressPollingInterval
    case None => s
    case Some(h) => s.(progressPollingInterval := None, running := s.running - {h})
  }

  function StopBoth(s: PageState): PageState {
    StopProgressPolling(StopContentPolling(s))
  }

  /** The handle fields name scheduled intervals, and not the same one. */
  ghost predicate Valid(s: PageState) {
    && (s.pollingInterval.Some? ==> s.pollingInterval.value in s.running)
    && (s.progressPollingInterval.Some? ==> s.progressPollingInterval.value in s.running)
    && (s.pollingInterval.Some? && s.progressPollingInterval.Some? ==> s.pollingInterval.value != s.progressPollingInterval.value)
  }

  /** `pollForProgress`, given the reply and the handle a new content interval
      would get. */
  function AfterProgressReply(s: PageState, reply: ProgressReply, newHandle: nat): PageState {
    match reply
    case ProgressNotOk => s
    case ProgressThrew => s
    case Progress(progress, id, completed, total) =>
      if progress == "" then s
      else
        var s1 := WithProgress(s, CrawlingPrefix + progress, completed, total);
        var s2 := if id != "" && s1.crawlId == "" then
            var cleared := if s1.pollingInterval.Some? then s1.running - {s1.pollingInterval.value} else s1.running;
            s1.(crawlId := id, pollingInterval := Some(newHandle), running := cleared + {newHandle})
          else s1;
        if SignalsCompletion(progress) then
          WithProgress(StopBoth(s2.(isCrawlComplete := true)), GeneratingStatus, total, total)
        else s2
  }

  /** `pollForContent`, given the reply. */
  function AfterContentReply(s: PageState, url: string, reply: ContentReply): PageState {
    match reply
    case ContentThrew => s
    case Content(status, completed, total, title, pages, totalPages, summary) =>
      if status == "completed" then
        WithProgress(StopBoth(s.(isCrawlComplete := true)),
                     CompletedHead + IntToString(completed) + CompletedTail, completed, total)
      else if pages.Some? && title != "" then
        WithProgress(s.(partialData := Some(PartialWebsiteData(url, title, pages.value, completed, total, totalPages, summary))),
                     CrawlingStatus, completed, total)
      else s
  }

  /** One tick of the content interval, whose closure holds `url` and `id`. */
  function AfterContentTick(s: PageState, url: string, id: string, reply: ContentReply): PageState {
    if !s.isCrawlComplete && id != "" then AfterContentReply(s, url, reply)
    else StopContentPolling(s)
  }

  /** `handleUrlSubmit` up to the scrape request, given `urls[0]`: reset, stop
      both intervals, show the initial progress and start progress polling. */
  function AfterBeginSubmit(s: PageState, url: Option<string>, newHandle: nat): PageState {
    var reset := StopBoth(s.(isLoading := true, websiteData := None, partialData := None, isCrawlComplete := false, crawlId := ""));
    var shown := WithProgress(reset, InitiatingHead + RenderUrl(url) + Ellipsis, 0, 1);
    shown.(progressPollingInterval := Some(newHandle), running := shown.running + {newHandle})
  }

  /** `handleUrlSubmit` after the scrape request, as written: the intervals are
      stopped only when the request itself resolved. */
  function AfterFinishSubmit(s: PageState, reply: SubmitReply): (r: PageState)
    ensures reply.FetchRejected? ==> (
      && r.pollingInterval == s.pollingInterval && r.progressPollingInterval == s.progressPollingInterval
      && r.running == s.running)
    ensures !reply.FetchRejected? ==> (
      && r.pollingInterval.None? && r.progressPollingInterval.None? && r.running == StopBoth(s).running)
    ensures !r.isLoading && !r.showProgress
  {
    SubmitOutcome(s, reply).(isLoading := false, showProgress := false)
  }

  /** The `try`/`catch` of `handleUrlSubmit` after the request: a toast for
      the outcome, the data on success, and the intervals cleared unless the
      request itself was rejected. */
  function SubmitOutcome(s: PageState, reply: SubmitReply): (r: PageState)
    ensures |r.toasts| == |s.toasts| + 1 && r.toasts[..|s.toasts|] == s.toasts
    ensures r.toasts[|s.toasts|].SuccessToast? <==> reply.Ok?
    ensures reply.FetchRejected? || reply.BodyUnreadable? ==> r.toasts[|s.toasts|] == ErrorToast(ClassifySubmitError(reply.message))
    ensures reply.NotOk? ==> r.toasts[|s.toasts|] == ErrorToast(ClassifySubmitError(NotOkMessage(reply.error)))
    ensures reply.Ok? ==> r.toasts[|s.toasts|] == SuccessToast(SuccessText) && r.websiteData == Some(reply.data) && r.partialData.None?
  {
    match reply
    case FetchRejected(message) => s.(toasts := s.toasts + [ErrorToast(ClassifySubmitError(message))])
    case NotOk(error) => var c := StopBoth(s); c.(toasts := c.toasts + [ErrorToast(ClassifySubmitError(NotOkMessage(error)))])
    case BodyUnreadable(message) => var c := StopBoth(s); c.(toasts := c.toasts + [ErrorToast(ClassifySubmitError(message))])
    case Ok(data) => var c := StopBoth(s); c.(websiteData := Some(data), partialData := None, toasts := c.toasts + [SuccessToast(SuccessText)])
  }

  /** The evidently intended end of `handleUrlSubmit`: both intervals stopped
      whatever the outcome. */
  function AfterFinishSubmitStoppingTimers(s: PageState, reply: SubmitReply): (r: PageState)
    ensures r.pollingInterval.None? && r.progressPollingInterval.None?
    ensures s.progressPollingInterval.Some? ==> s.progressPollingInterval.value !in r.running
    ensures s.pollingInterval.Some? ==> s.pollingInterval.value !in r.running
  {
    var c := StopBoth(s);
    AfterFinishSubmit(c, reply)
  }

  // ---------------------------------------------------------------------------
  // Properties of the transitions
  // ---------------------------------------------------------------------------

  /** Errors of a progress poll and non-OK replies leave the page as it was. */
  lemma ProgressErrorsSwallowed(s: PageState, reply: ProgressReply, newHandle: nat)
    requires reply.ProgressNotOk? || reply.ProgressThrew?
    ensures AfterProgressReply(s, reply, newHandle) == s
  {
  }

  /** A progress message that signals completion marks the crawl complete,
      stops both intervals and shows `Generating summary...` at the full total. */
  lemma CompletionFromProgress(s: PageState, reply: ProgressReply, newHandle: nat)
    requires reply.Progress? && reply.progress != "" && SignalsCompletion(reply.progress)
    requires Valid(s) && newHandle !in s.running
    ensures var r := AfterProgressReply(s, reply, newHandle);
      && r.isCrawlComplete && r.pollingInterval.None? && r.progressPollingInterval.None?
      && r.progress == ProgressView(GeneratingStatus, reply.total, reply.total, Percentage(reply.total, reply.total))
      && (s.progressPollingInterval.Some? ==> s.progressPollingInterval.value !in r.running)
      && r.showProgress
  {
  }

  /** A progress message without a completion notice only shows the message
      (and starts content polling the first time a job id appears). */
  lemma ProgressWithoutCompletion(s: PageState, reply: ProgressReply, newHandle: nat)
    requires reply.Progress? && reply.progress != "" && !SignalsCompletion(reply.progress)
    ensures var r := AfterProgressReply(s, reply, newHandle);
      && r.progress == ProgressView(CrawlingPrefix + reply.progress, reply.completed, reply.total, Percentage(reply.completed, reply.total))
      && r.isCrawlComplete == s.isCrawlComplete && r.progressPollingInterval == s.progressPollingInterval
      && (reply.crawlId != "" && s.crawlId == "" ==> r.crawlId == reply.crawlId && r.pollingInterval == Some(newHandle))
      && (!(reply.crawlId != "" && s.crawlId == "") ==> r.crawlId == s.crawlId && r.pollingInterval == s.pollingInterval)
  {
  }

  /** A content poll reporting `completed` marks the crawl complete, stops
      both intervals, and leaves the partial data alone. */
  lemma CompletionFromContent(s: PageState, url: string, reply: ContentReply)
    requires reply.Content? && reply.status == "completed"
    ensures var r := AfterContentReply(s, url, reply);
      && r.isCrawlComplete && r.pollingInterval.None? && r.progressPollingInterval.None?
      && r.partialData == s.partialData && r.websiteData == s.websiteData
      && r.progress.completed == reply.completed && r.progress.total == reply.total
  {
  }

  /** Submitting resets the data and the flags, stops both old intervals, and
      leaves only the new progress interval set. */
  lemma SubmitResets(s: PageState, url: Option<string>, newHandle: nat)
    requires Valid(s) && newHandle !in s.running
    ensures var r := AfterBeginSubmit(s, url, newHandle);
      && r.isLoading && r.websiteData.None? && r.partialData.None? && !r.isCrawlComplete && r.crawlId == ""
      && r.pollingInterval.None? && r.progressPollingInterval == Some(newHandle) && newHandle in r.running
      && (s.pollingInterval.Some? ==> s.pollingInterval.value !in r.running)
      && (s.progressPollingInterval.Some? ==> s.progressPollingInterval.value !in r.running)
      && r.progress == ProgressView(InitiatingHead + RenderUrl(url) + Ellipsis, 0, 1, 0)
  {
  }

  /** Once the scrape request resolved, both intervals are stopped; loading
      ends and the bar is hidden in every case. */
  lemma SubmitFinishes(s: PageState, reply: SubmitReply)
    ensures !AfterFinishSubmit(s, reply).isLoading && !AfterFinishSubmit(s, reply).showProgress
    ensures !reply.FetchRejected? ==> AfterFinishSubmit(s, reply).pollingInterval.None? && AfterFinishSubmit(s, reply).progressPollingInterval.None?
    ensures reply.Ok? ==> AfterFinishSubmit(s, reply).websiteData == Some(reply.data) && AfterFinishSubmit(s, reply).partialData.None?
  {
  }

  /** When the fetch itself rejects, the progress interval keeps running after
      the submission ended. */
  lemma RejectedFetchLeavesProgressPolling(s: PageState, url: Option<string>, newHandle: nat, message: string)
    requires newHandle !in s.running
    ensures var r := AfterFinishSubmit(AfterBeginSubmit(s, url, newHandle), FetchRejected(message));
      && r.progressPollingInterval == Some(newHandle) && newHandle in r.running && !r.isLoading
  {
  }

  /** The corrected end of the submission stops the progress interval on every
      outcome, including a rejected fetch. */
  lemma CorrectedSubmitStopsPolling(s: PageState, url: Option<string>, newHandle: nat, reply: SubmitReply)
    requires newHandle !in s.running
    ensures var r := AfterFinishSubmitStoppingTimers(AfterBeginSubmit(s, url, newHandle), reply);
      && r.progressPollingInterval.None? && newHandle !in r.running && !r.isLoading
  {
  }

  lemma StopBothValid(s: PageState)
    requires Valid(s)
    ensures Valid(StopBoth(s)) && StopBoth(s).pollingInterval.None? && StopBoth(s).progressPollingInterval.None?
  {
  }

  /** Every transition keeps the handles pointing at scheduled intervals,
      given that a new handle is fresh. */
  lemma ProgressKeepsValid(s: PageState, reply: ProgressReply, newHandle: nat)
    requires Valid(s) && newHandle !in s.running
    ensures Valid(AfterProgressReply(s, reply, newHandle))
  {
    if reply.Progress? && reply.progress != "" && SignalsCompletion(reply.progress) {
      var s1 := WithProgress(s, CrawlingPrefix + reply.progress, reply.completed, reply.total);
      var s2 := if reply.crawlId != "" && s1.crawlId == "" then
          var cleared := if s1.pollingInterval.Some? then s1.running - {s1.pollingInterval.value} else s1.running;
          s1.(crawlId := reply.crawlId, pollingInterval := Some(newHandle), running := cleared + {newHandle})
        else s1;
      StopBothValid(s2.(isCrawlComplete := true));
    }
  }

  lemma ContentKeepsValid(s: PageState, url: string, id: string, reply: ContentReply)
    requires Valid(s)
    ensures Valid(AfterContentTick(s, url, id, reply))
  {
    if !s.isCrawlComplete && id != "" {
      ContentReplyKeepsValid(s, url, reply);
    }
  }

  lemma ContentReplyKeepsValid(s: PageState, url: string, reply: ContentReply)
    requires Valid(s)
    ensures Valid(AfterContentReply(s, url, reply))
  {
    if reply.Content? && reply.status == "completed" {
      StopBothValid(s.(isCrawlComplete := true));
    }
  }

  lemma BeginSubmitKeepsValid(s: PageState, url: Option<string>, newHandle: nat)
    requires Valid(s) && newHandle !in s.running
    ensures Valid(AfterBeginSubmit(s, url, newHandle))
  {
    StopBothValid(s.(isLoading := true, websiteData := None, partialData := None, isCrawlComplete := false, crawlId := ""));
  }

  lemma FinishSubmitKeepsValid(s: PageState, reply: SubmitReply)
    requires Valid(s)
    ensures Valid(AfterFinishSubmit(s, reply))
    ensures Valid(AfterFinishSubmitStoppingTimers(s, reply))
  {
    StopBothValid(s);
  }

  // ---------------------------------------------------------------------------
  // The page
  // ---------------------------------------------------------------------------

  class HomePage {
    var isLoading: bool
    var websiteData: Option<WebsiteData>
    var partialData: Option<PartialWebsiteData>
    var isCrawlComplete: bool
    var crawlId: string
    var selectedModel: string
    var pollingInterval: Option<nat>
    var progressPollingInterval: Option<nat>
    var running: set<nat>
    var showProgress: bool
    var progress: ProgressView
    var toasts: seq<Toast>

    function State(): PageState
      reads this
    {
      PageState(isLoading, websiteData, partialData, isCrawlComplete, crawlId, pollingInterval, progressPollingInterval,
                running, showProgress, progress, toasts)
    }

    constructor ()
      ensures State() == PageState(false, None, None, false, "", None, None, {}, false, ProgressView(InitialStatus, 0, 1, 0), [])
      ensures selectedModel == InitialModel
    {
      isLoading := false;
      websiteData := None;
      partialData := None;
      isCrawlComplete := false;
      crawlId := "";
      selectedModel := InitialModel;
      pollingInterval := None;
      progressPollingInterval := None;
      running := {};
      showProgress := false;
      progress := ProgressView(InitialStatus, 0, 1, 0);
      toasts := [];
    }

    method UpdateProgress(status: string, completed: int, total: int)
      modifies this
      ensures State() == WithProgress(old(State()), status, completed, total)
      ensures selectedModel == old(selectedModel)
    {
      progress := ProgressView(status, completed, total, Percentage(completed, total));
      if !showProgress {
        showProgress := true;
      }
    }

    method ClearContentInterval()
      modifies this
      ensures State() == StopContentPolling(old(State()))
      ensures selectedModel == old(selectedModel)
    {
      if pollingInterval.Some? {
        running := running - {pollingInterval.value};
        pollingInterval := None;
      }
    }

    method ClearProgressInterval()
      modifies this
      ensures State() == StopProgressPolling(old(State()))
      ensures selectedModel == old(selectedModel)
    {
      if progressPollingInterval.Some? {
        running := running - {progressPollingInterval.value};
        progressPollingInterval := None;
      }
    }

    /** Both intervals cleared, content first. */
    method ClearBoth()
      modifies this
      ensures State() == StopBoth(old(State()))
      ensures selectedModel == old(selectedModel)
    {
      ClearContentInterval();
      ClearProgressInterval();
    }

    method PollForProgress(url: string, reply: ProgressReply, newHandle: nat)
      modifies this
      ensures State() == AfterProgressReply(old(State()), reply, newHandle)
      ensures selectedModel == old(selectedModel)
    {
      match reply
      case ProgressNotOk =>
        return;
      case ProgressThrew =>
        // logged and swallowed
      case Progress(message, id, completed, total) =>
        if message != "" {
          UpdateProgress(CrawlingPrefix + message, completed, total);
          if id != "" && crawlId == "" {
            AdoptCrawlId(id, newHandle);
          }
          if Contains(message, "Crawl completed") || Contains(message, "generating summary") {
            CompleteCrawl(GeneratingStatus, total, total);
          }
        }
    }

    /** The first job id seen: stored, and the content interval (re)started. */
    method AdoptCrawlId(id: string, newHandle: nat)
      modifies this
      ensures State() == old(State()).(crawlId := id, pollingInterval := Some(newHandle),
        running := (if old(pollingInterval).Some? then old(running) - {old(pollingInterval).value} else old(running)) + {newHandle})
      ensures selectedModel == old(selectedModel)
    {
      crawlId := id;
      if pollingInterval.Some? {
        running := running - {pollingInterval.value};
      }
      pollingInterval := Some(newHandle);
      running := running + {newHandle};
    }

    /** A completion notice: marked complete, both intervals cleared, and the
        given status shown. */
    method CompleteCrawl(status: string, completed: int, total: int)
      modifies this
      ensures State() == WithProgress(StopBoth(old(State()).(isCrawlComplete := true)), status, completed, total)
      ensures selectedModel == old(selectedModel)
    {
      isCrawlComplete := true;
      ClearContentInterval();
      ClearProgressInterval();
      UpdateProgress(status, completed, total);
    }

    method PollForContent(url: string, id: string, reply: ContentReply)
      modifies this
      ensures State() == AfterContentReply(old(State()), url, reply)
      ensures selectedModel == old(selectedModel)
    {
      match reply
      case ContentThrew =>
        // logged and swallowed
      case Content(status, completed, total, title, pages, totalPages, summary) =>
        if status == "completed" {
          CompleteCrawl(CompletedHead + IntToString(completed) + CompletedTail, completed, total);
          return;
        }
        if pages.Some? && title != "" {
          partialData := Some(PartialWebsiteData(url, title, pages.value, completed, total, totalPages, summary));
          UpdateProgress(CrawlingStatus, completed, total);
        }
    }

    /** The content interval's callback; `url` and `id` are the values its
        closure captured. */
    method ContentTick(url: string, id: string, reply: ContentReply)
      modifies this
      ensures State() == AfterContentTick(old(State()), url, id, reply)
      ensures selectedModel == old(selectedModel)
    {
      if !isCrawlComplete && id != "" {
        PollForContent(url, id, reply);
      } else {
        ClearContentInterval();
      }
    }

    /** `handleUrlSubmit` up to the scrape request; returns `urls[0]`, which the
        progress interval polls and the request carries. */
    method BeginSubmit(urlInput: string, newHandle: nat) returns (url: Option<string>)
      modifies this
      ensures url == FirstUrl(urlInput)
      ensures State() == AfterBeginSubmit(old(State()), url, newHandle)
      ensures selectedModel == old(selectedModel)
    {
      ResetForSubmit();
      url := FirstUrl(urlInput);
      UpdateProgress(InitiatingHead + RenderUrl(url) + Ellipsis, 0, 1);
      StartProgressInterval(newHandle);
    }

    /** The resets at the start of `handleUrlSubmit`, with both intervals cleared. */
    method ResetForSubmit()
      modifies this
      ensures State() == StopBoth(old(State()).(isLoading := true, websiteData := None, partialData := None, isCrawlComplete := false, crawlId := ""))
      ensures selectedModel == old(selectedModel)
    {
      ResetFields();
      ClearBoth();
    }

    method ResetFields()
      modifies this
      ensures State() == old(State()).(isLoading := true, websiteData := None, partialData := None, isCrawlComplete := false, crawlId := "")
      ensures selectedModel == old(selectedModel)
    {
      isLoading := true;
      websiteData := None;
      partialData := None;
      isCrawlComplete := false;
      crawlId := "";
    }

    /** `progressPollingInterval.current = setInterval(...)`, given the handle. */
    method StartProgressInterval(newHandle: nat)
      modifies this
      ensures State() == old(State()).(progressPollingInterval := Some(newHandle), running := old(running) + {newHandle})
      ensures selectedModel == old(selectedModel)
    {
      progressPollingInterval := Some(newHandle);
      running := running + {newHandle};
    }

    /** `handleUrlSubmit` after the scrape request. */
    method FinishSubmit(reply: SubmitReply)
      modifies this
      ensures State() == AfterFinishSubmit(old(State()), reply)
      ensures selectedModel == old(selectedModel)
    {
      ReportOutcome(reply);
      isLoading := false;
      showProgress := false;
    }

    method ReportOutcome(reply: SubmitReply)
      modifies this
      ensures State() == SubmitOutcome(old(State()), reply)
      ensures selectedModel == old(selectedModel)
    {
      match reply {
        case FetchRejected(message) =>
          toasts := toasts + [ErrorToast(ClassifySubmitError(message))];
        case NotOk(error) =>
          ClearBoth();
          toasts := toasts + [ErrorToast(ClassifySubmitError(NotOkMessage(error)))];
        case BodyUnreadable(message) =>
          ClearBoth();
          toasts := toasts + [ErrorToast(ClassifySubmitError(message))];
        case Ok(data) =>
          ClearBoth();
          websiteData := Some(data);
          partialData := None;
          toasts := toasts + [SuccessToast(SuccessText)];
      }
    }
  }

  // ---------------------------------------------------------------------------
  // The chat request
  // ---------------------------------------------------------------------------

  /** The body the page posts to the chat route. */
  datatype ChatRequest = ChatRequest(messages: seq<Message>, lastMessage: string, url: string, title: string,
                                     pages: Option<seq<PageData>>, totalPages: int, model: string, language: string)

  /** The reply of the chat route: the fetch rejected, a non-OK reply with its
      `error` field, or the `response` field. */
  datatype ChatReply = ChatFetchRejected(message: string) | ChatNotOk(error: string) | ChatOk(response: string)

  /** The data the page chats about: the full data, else the partial data,
      in their common shape. */
  datatype SiteView = SiteView(url: string, title: string, pages: Option<seq<PageData>>, totalPages: Option<int>)

  function ChatSource(websiteData: Option<WebsiteData>, partialData: Option<PartialWebsiteData>): Option<SiteView> {
    if websiteData.Some? then
      Some(SiteView(websiteData.value.url, websiteData.value.title, websiteData.value.pages, websiteData.value.totalPages))
    else if partialData.Some? then
      Some(SiteView(partialData.value.url, partialData.value.title, Some(partialData.value.pages), partialData.value.totalPages))
    else None
  }

  /** The request body, or the TypeError building it throws: the last message
      of an empty list, or `pages.length` of missing pages when `totalPages`
      is missing or zero. */
  function ChatRequestFor(site: SiteView, messages: seq<Message>, model: string, language: string): (r: Result<ChatRequest>)
    ensures r.Success? ==> messages != [] && r.value.lastMessage == messages[|messages| - 1].content && r.value.messages == messages
    ensures r.Success? && site.totalPages.Some? && site.totalPages.value != 0 ==> r.value.totalPages == site.totalPages.value
    ensures r.Success? && !(site.totalPages.Some? && site.totalPages.value != 0) ==> site.pages.Some? && r.value.totalPages == |site.pages.value|
    ensures r.Success? ==> r.value.url == site.url && r.value.title == site.title && r.value.pages == site.pages
                           && r.value.model == model && r.value.language == language
    ensures r.Failure? <==> messages == [] || ((site.totalPages.None? || site.totalPages.value == 0) && site.pages.None?)
  {
    if messages == [] then Failure("Cannot read properties of undefined (reading 'content')")
    else
      var total: Result<int> :=
        if site.totalPages.Some? && site.totalPages.value != 0 then Success(site.totalPages.value)
        else if site.pages.Some? then Success(|site.pages.value|)
        else Failure("Cannot read properties of undefined (reading 'length')");
      if total.Failure? then Failure(total.error)
      else Success(ChatRequest(messages, messages[|messages| - 1].content, site.url, site.title, site.pages, total.value, model, language))
  }

  /** `handleSendMessage`: the answer text, or the error it rethrows. */
  function HandleSendMessage(websiteData: Option<WebsiteData>, partialData: Option<PartialWebsiteData>, messages: seq<Message>,
                             model: string, language: string, reply: ChatReply): (r: Result<string>)
    ensures websiteData.None? && partialData.None? ==> r == Success(AnalyzeFirstText)
    ensures r.Success? && (websiteData.Some? || partialData.Some?) ==> reply.ChatOk? && r.value == reply.response
    ensures (websiteData.Some? || partialData.Some?) && messages == [] ==> r.Failure?
    ensures var site := ChatSource(websiteData, partialData);
      site.Some? && ChatRequestFor(site.value, messages, model, language).Failure?
      ==> r == Failure(ChatRequestFor(site.value, messages, model, language).error)
    ensures var site := ChatSource(websiteData, partialData);
      site.Some? && ChatRequestFor(site.value, messages, model, language).Success? ==> (
        && (reply.ChatOk? <==> r.Success?)
        && (reply.ChatOk? ==> r.value == reply.response)
        && (reply.ChatNotOk? ==> r.error == if reply.error != "" then reply.error else "Failed to process message")
        && (reply.ChatFetchRejected? ==> r.error == reply.message))
  {
    match ChatSource(websiteData, partialData)
    case None => Success(AnalyzeFirstText)
    case Some(site) =>
      match ChatRequestFor(site, messages, model, language)
      case Failure(e) => Failure(e)
      case Success(_) =>
        match reply
        case ChatFetchRejected(message) => Failure(message)
        case ChatNotOk(error) => Failure(if error != "" then error else "Failed to process message")
        case ChatOk(response) => Success(response)
  }

  /** The initial model is not a key of the model table, so a summary or chat
      request with it fails as soon as a page budget is computed. */
  lemma InitialModelHasNoParameters(data: ScrapedData, language: string, reply: Result<string>)
    requires |data.pages| > 0
    ensures MaxContentLength(InitialModel).None?
    ensures SummarizeWebsite(data, language, InitialModel, reply)
      == Failure(SummarizePrefix + MissingModelMessage("maxContentLength"))
  {
  }

  /** With a model the table lists, the same request reaches the model and
      returns its answer. */
  lemma ListedModelSummarizes(data: ScrapedData, language: string, text: string)
    ensures SummarizeWebsite(data, language, "typhoon-v2-70b-instruct", Success(text))
      == Success(ExtractResultFromThinking(Trim(text)))
  {
  }
}
