/** The scrape route (src/app/api/scrape/route.ts): the request and key checks,
    the crawl and the summary, and the classification of an error into a
    message and a status code. The crawl service's and the model's replies are
    inputs. */
module ScrapeRoute {
  import opened Wrappers
  import opened Text
  import opened Scraper
  import opened Llm
  import WebsiteRequest

  datatype ScrapeRequest = ScrapeRequest(url: string, language: Option<string>, model: Option<string>)

  /** The reply body. On success the route reads `url`, `title`, `content` and
      `sources` from the scraped data, which has none of them: the first three
      are absent from the body and `sources` falls back to the empty list. */
  datatype ScrapeReply = Analyzed(summary: string, sources: seq<string>) | ScrapeError(status: nat, error: string)

  const UrlRequired := "URL is required. Please provide a website URL to crawl."
  const KeyNotConfigured := "Firecrawl API key is not configured. Please add FIRECRAWL_API_KEY to your environment variables."
  const CouldNotExtract := "Could not extract content from the provided URL. Please try a different website."
  const RateLimited := "Rate limit exceeded for Firecrawl API. Please try again later."
  const CrawlTimedOut := "The crawl process timed out. The website might be too large or not responding."
  const CrawlFailed := "The crawl process failed. Please try a different website."

  /** The substrings the error handler looks for, in its order. */
  const KeyCause := "FIRECRAWL_API_KEY"
  const NoContentCause := "No content extracted"
  const RateLimitCause := "429"
  const TimeoutCause := "Timed out"
  const CrawlFailedCause := "Crawl failed"
  const ProcessPrefix := "Failed to process website: "

  /** The error handler: the first substring that matches, in the order key,
      no content, 429, timeout, crawl failure, decides message and status;
      otherwise 500 with the generic prefix. */
  function ClassifyError(message: string): (r: ScrapeReply)
    ensures r.ScrapeError?
    ensures Contains(message, KeyCause) ==> r == ScrapeError(500, KeyNotConfigured)
    ensures (!Contains(message, KeyCause) && Contains(message, NoContentCause))
            ==> r == ScrapeError(422, CouldNotExtract)
    ensures (!Contains(message, KeyCause) && !Contains(message, NoContentCause) && Contains(message, RateLimitCause))
            ==> r == ScrapeError(429, RateLimited)
    ensures (!Contains(message, KeyCause) && !Contains(message, NoContentCause) && !Contains(message, RateLimitCause)
             && Contains(message, TimeoutCause))
            ==> r == ScrapeError(408, CrawlTimedOut)
    ensures (!Contains(message, KeyCause) && !Contains(message, NoContentCause) && !Contains(message, RateLimitCause)
             && !Contains(message, TimeoutCause) && Contains(message, CrawlFailedCause))
            ==> r == ScrapeError(422, CrawlFailed)
    ensures (!Contains(message, KeyCause) && !Contains(message, NoContentCause) && !Contains(message, RateLimitCause)
             && !Contains(message, TimeoutCause) && !Contains(message, CrawlFailedCause))
            ==> r == ScrapeError(500, ProcessPrefix + message)
    ensures r.status in {408, 422, 429, 500}
  {
    var errorMessage := ProcessPrefix + message;
    if Contains(message, KeyCause) then ScrapeError(500, KeyNotConfigured)
    else if Contains(message, NoContentCause) then ScrapeError(422, CouldNotExtract)
    else if Contains(message, RateLimitCause) then ScrapeError(429, RateLimited)
    else if Contains(message, TimeoutCause) then ScrapeError(408, CrawlTimedOut)
    else if Contains(message, CrawlFailedCause) then ScrapeError(422, CrawlFailed)
    else ScrapeError(500, errorMessage)
  }

  /** `POST`, with the crawl run by the scraper (which records the job id) and
      the summary made by the summarizer. */
  method Post(crawlIdMap: CrawlIdMap, request: Result<ScrapeRequest>, apiKeySet: bool, init: InitReply, replies: seq<PollReply>,
              llmReply: Result<string>) returns (r: ScrapeReply)
    requires |replies| == MaxAttempts
    modifies crawlIdMap
    ensures request.Failure? ==> r == ClassifyError(request.error) && crawlIdMap.ids == old(crawlIdMap.ids)
    ensures request.Success? && request.value.url == "" ==> r == ScrapeError(400, UrlRequired) && crawlIdMap.ids == old(crawlIdMap.ids)
    ensures request.Success? && request.value.url != "" && !apiKeySet
      ==> r == ScrapeError(500, KeyNotConfigured) && crawlIdMap.ids == old(crawlIdMap.ids)
    ensures request.Success? && request.value.url != "" && apiKeySet ==> (
      var q := request.value;
      var scraped := ScrapeOutcome(q.url, true, init, replies);
      && crawlIdMap.ids == (if Started(true, init) then old(crawlIdMap.ids)[q.url := init.id] else old(crawlIdMap.ids))
      && (scraped.Failure? ==> r == ClassifyError(scraped.error))
      && (scraped.Success? ==> (
            var summary := SummarizeWebsite(scraped.value, WebsiteRequest.WithDefault(q.language, WebsiteRequest.DefaultLanguage),
                                            WebsiteRequest.WithDefault(q.model, WebsiteRequest.DefaultModel), llmReply);
            r == if summary.Success? then Analyzed(summary.value, []) else ClassifyError(summary.error))))
  {
    if request.Failure? {
      return ClassifyError(request.error);
    }
    var q := request.value;
    var targetUrl := q.url;
    if targetUrl == "" {
      return ScrapeError(400, UrlRequired);
    }
    if !apiKeySet {
      return ScrapeError(500, KeyNotConfigured);
    }
    var scrapedData, _ := ScrapeWebsite(crawlIdMap, targetUrl, apiKeySet, init, replies);
    if scrapedData.Failure? {
      return ClassifyError(scrapedData.error);
    }
    var summary := SummarizeWebsite(scrapedData.value, WebsiteRequest.WithDefault(q.language, WebsiteRequest.DefaultLanguage),
                                    WebsiteRequest.WithDefault(q.model, WebsiteRequest.DefaultModel), llmReply);
    if summary.Failure? {
      return ClassifyError(summary.error);
    }
    r := Analyzed(summary.value, []);
  }

  /** A crawl whose every poll failed reaches the client as 408. */
  lemma TimedOutCrawlIs408(url: string, init: InitReply, replies: seq<PollReply>)
    requires |replies| == MaxAttempts && Started(true, init)
    requires forall k :: 0 <= k < |replies| ==> replies[k].PollFailed?
    ensures ScrapeOutcome(url, true, init, replies).Failure?
    ensures ClassifyError(ScrapeOutcome(url, true, init, replies).error) == ScrapeError(408, CrawlTimedOut)
  {
    TimedOutIffNoPollSucceeded(url, replies);
    var inner := TimedOutMessage;
    assert ScrapeOutcome(url, true, init, replies) == Failure(Wrap(inner));
    TimedOutMessageIs408(inner);
  }

  lemma TimedOutMessageIs408(m: string)
    requires m == TimedOutMessage
    ensures ClassifyError(Wrap(m)) == ScrapeError(408, CrawlTimedOut)
  {
    TimedOutMessageMentionsTimeout(m);
    TimedOutMessageLacksOtherCauses(m);
    LacksEarlierCauses(m);
    WrappedTimeoutIs408(m);
  }

  lemma TimedOutMessageMentionsTimeout(m: string)
    requires m == TimedOutMessage
    ensures Contains(m, TimeoutCause)
  {
    ContainsAt(m, TimeoutCause, 0);
  }

  lemma TimedOutMessageLacksOtherCauses(m: string)
    requires m == TimedOutMessage
    ensures 'K' !in m && 'N' !in m && '4' !in m
  {
    TimedOutMessageCharacters();
  }

  lemma TimedOutMessageCharacters()
    ensures forall i :: 0 <= i < |TimedOutMessage| ==>
      TimedOutMessage[i] != 'K' && TimedOutMessage[i] != 'N' && TimedOutMessage[i] != '4'
  {
  }

  /** The scraper's wrapping adds none of the earlier causes, so an inner
      timeout that names none of them is classified as a timeout. */
  lemma WrappedTimeoutIs408(inner: string)
    requires Contains(inner, TimeoutCause)
    requires !Contains(inner, KeyCause) && !Contains(inner, NoContentCause) && !Contains(inner, RateLimitCause)
    ensures ClassifyError(Wrap(inner)) == ScrapeError(408, CrawlTimedOut)
  {
    ContainsAfterPrefix("Failed to scrape website: ", inner, TimeoutCause);
    WrapAddsNoEarlierCause(inner);
  }

  /** A timeout message with a `4` in it, but not `429`, is still a timeout. */
  lemma TimeoutWithNumberIs408(m: string)
    requires m == "Timed out after 45 s"
    ensures ClassifyError(Wrap(m)) == ScrapeError(408, CrawlTimedOut)
  {
    ContainsAt(m, TimeoutCause, 0);
    TimeoutWithNumberLacksEarlierCauses(m);
    WrappedTimeoutIs408(m);
  }

  lemma TimeoutWithNumberLacksEarlierCauses(m: string)
    requires m == "Timed out after 45 s"
    ensures !Contains(m, KeyCause) && !Contains(m, NoContentCause) && !Contains(m, RateLimitCause)
  {
    assert forall i :: 0 <= i < |m| ==> m[i] != 'K' && m[i] != 'N' && m[i] != '2';
    MissingCharNotContained(m, KeyCause, 'K');
    MissingCharNotContained(m, NoContentCause, 'N');
    MissingCharNotContained(m, RateLimitCause, '2');
  }

  /** No cause straddles the join: the prefix holds no `N` and no `4`, and its
      only `F` is followed by `a`, not the `I` of `FIRECRAWL_API_KEY`. */
  lemma WrapAddsNoEarlierCause(inner: string)
    requires !Contains(inner, KeyCause) && !Contains(inner, NoContentCause) && !Contains(inner, RateLimitCause)
    ensures !Contains(Wrap(inner), KeyCause) && !Contains(Wrap(inner), NoContentCause) && !Contains(Wrap(inner), RateLimitCause)
  {
    var prefix := "Failed to scrape website: ";
    assert Wrap(inner) == prefix + inner;
    WrapPrefixCharacters(prefix);
    KeyCauseAfterPrefix(prefix);
    NoOccurrenceStartsIn(prefix, inner, KeyCause);
    NotContainedAfterPrefix(prefix, inner, KeyCause);
    assert NoContentCause[0] == 'N' && RateLimitCause[0] == '4';
    NoOccurrenceStartsIn(prefix, inner, NoContentCause);
    NotContainedAfterPrefix(prefix, inner, NoContentCause);
    NoOccurrenceStartsIn(prefix, inner, RateLimitCause);
    NotContainedAfterPrefix(prefix, inner, RateLimitCause);
  }

  /** The prefix's only `F` is its first character, followed by `a`. */
  lemma KeyCauseAfterPrefix(prefix: string)
    requires prefix == "Failed to scrape website: "
    ensures KeyCause[0] == 'F' && KeyCause[1] == 'I'
    ensures forall i :: 0 <= i < |prefix| && prefix[i] == KeyCause[0] ==> i + 1 < |prefix| && prefix[i + 1] != KeyCause[1]
  {
    assert forall i :: 1 <= i < |prefix| ==> prefix[i] != 'F';
  }

  /** Without a `K`, an `N` and a `4`, none of the first three causes applies. */
  lemma LacksEarlierCauses(m: string)
    requires 'K' !in m && 'N' !in m && '4' !in m
    ensures !Contains(m, KeyCause) && !Contains(m, NoContentCause) && !Contains(m, RateLimitCause)
  {
    MissingCharNotContained(m, KeyCause, 'K');
    MissingCharNotContained(m, NoContentCause, 'N');
    MissingCharNotContained(m, RateLimitCause, '4');
  }

  /** A crawl that found no page with a source URL reaches the client as 422. */
  lemma NoContentIs422()
    ensures ClassifyError(Wrap(NoContentMessage)) == ScrapeError(422, CouldNotExtract)
  {
    NoContentMentionsItself(NoContentMessage);
    ContainsAfterPrefix("Failed to scrape website: ", NoContentMessage, NoContentCause);
    WrappedNoContentLacksKey(Wrap(NoContentMessage));
    MissingCharNotContained(Wrap(NoContentMessage), KeyCause, 'K');
  }

  lemma NoContentMentionsItself(m: string)
    requires m == NoContentMessage
    ensures Contains(m, NoContentCause)
  {
    ContainsAt(m, NoContentCause, 0);
  }

  lemma WrappedNoContentLacksKey(m: string)
    requires m == Wrap(NoContentMessage)
    ensures 'K' !in m
  {
    WrapPrefixCharacters("Failed to scrape website: ");
    NoContentMessageCharacters();
    LacksAppend("Failed to scrape website: ", NoContentMessage, 'K');
  }

  /** The prefix `Wrap` adds has no `K`, `N` or `4`. */
  lemma WrapPrefixCharacters(prefix: string)
    requires prefix == "Failed to scrape website: "
    ensures 'K' !in prefix && 'N' !in prefix && '4' !in prefix
  {
    assert forall i :: 0 <= i < |prefix| ==> prefix[i] != 'K' && prefix[i] != 'N' && prefix[i] != '4';
  }

  lemma NoContentMessageCharacters()
    ensures 'K' !in NoContentMessage
  {
    assert forall i :: 0 <= i < |NoContentMessage| ==> NoContentMessage[i] != 'K';
  }
}
