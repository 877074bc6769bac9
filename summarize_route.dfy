/** The summarize route (src/app/api/summarize/route.ts): the request check,
    the defaults, and the summary or the error it turns into. The model's reply
    is an input. */
module SummarizeRoute {
  import opened Wrappers
  import opened Text
  import opened Scraper
  import opened Llm
  import opened WebsiteRequest

  datatype SummarizeRequest = SummarizeRequest(websiteData: Option<WebsiteBody>, language: Option<string>, model: Option<string>)

  datatype SummarizeReply = Summary(summary: string) | SummarizeError(status: nat, error: string)

  const RoutePrefix := "Failed to summarize website: "

  /** `POST`: a body that cannot be parsed or a failed summary gives 500 with the
      route's prefix; a request without usable website data gives 400; otherwise
      the summary of the data built with the defaults. */
  function Post(request: Result<SummarizeRequest>, reply: Result<string>): (r: SummarizeReply)
    ensures request.Failure? ==> r == SummarizeError(500, RoutePrefix + request.error)
    ensures request.Success? && !HasWebsiteData(request.value.websiteData) ==> r == SummarizeError(400, WebsiteDataRequired)
    ensures request.Success? && HasWebsiteData(request.value.websiteData) ==> (
      var q := request.value;
      var s := SummarizeWebsite(ToScrapedData(q.websiteData.value), WithDefault(q.language, DefaultLanguage),
                                WithDefault(q.model, DefaultModel), reply);
      r == if s.Success? then Summary(s.value) else SummarizeError(500, RoutePrefix + s.error))
    ensures r.SummarizeError? ==> r.status in {400, 500}
  {
    match request
    case Failure(e) => SummarizeError(500, RoutePrefix + e)
    case Success(q) =>
      if !HasWebsiteData(q.websiteData) then SummarizeError(400, WebsiteDataRequired)
      else
        var scrapedData := ToScrapedData(q.websiteData.value);
        match SummarizeWebsite(scrapedData, WithDefault(q.language, DefaultLanguage), WithDefault(q.model, DefaultModel), reply)
        case Success(summary) => Summary(summary)
        case Failure(e) => SummarizeError(500, RoutePrefix + e)
  }

  /** A failure inside the summary is reported with the prefix twice: once
      from the summarizer, once from the route. */
  lemma SummaryFailureHasPrefixTwice(request: SummarizeRequest, reply: Result<string>)
    requires HasWebsiteData(request.websiteData)
    requires Post(Success(request), reply).SummarizeError?
    ensures StartsWith(Post(Success(request), reply).error, RoutePrefix + RoutePrefix)
  {
    var q := request;
    var s := SummarizeWebsite(ToScrapedData(q.websiteData.value), WithDefault(q.language, DefaultLanguage),
                              WithDefault(q.model, DefaultModel), reply);
    assert Post(Success(request), reply).error == RoutePrefix + s.error;
    SamePrefix(RoutePrefix, SummarizePrefix);
    PrefixBeforePrefix(RoutePrefix, RoutePrefix, s.error);
  }

  /** The route's prefix is the summarizer's. */
  lemma SamePrefix(route: string, summarizer: string)
    requires route == RoutePrefix && summarizer == SummarizePrefix
    ensures route == summarizer
  {
  }

  /** With the defaults, a request with pages reaches the model and returns
      its cleaned answer. */
  lemma DefaultsSummarize(w: WebsiteBody, text: string)
    requires HasWebsiteData(Some(w))
    ensures Post(Success(SummarizeRequest(Some(w), None, None)), Success(text))
      == Summary(ExtractResultFromThinking(Trim(text)))
  {
  }
}
