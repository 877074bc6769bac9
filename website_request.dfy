/** The request shape that src/app/api/chat/route.ts and
    src/app/api/summarize/route.ts share: the destructuring defaults, the
    check on `websiteData`, and the `ScrapedData` they build from it with `||`
    defaults. Missing strings and empty strings are both `""`. */
module WebsiteRequest {
  import opened Wrappers
  import opened Scraper

  const DefaultLanguage := "en"
  const DefaultModel := "typhoon-v2-70b-instruct"
  const UntitledWebsite := "Untitled Website"
  const WebsiteDataRequired := "Website data is required"

  /** `websiteData` as the client sends it; `pages` and `totalPages` may be
      missing. */
  datatype WebsiteBody = WebsiteBody(url: string, title: string, pages: Option<seq<PageData>>, totalPages: Option<int>)

  /** A destructuring default applies only to a missing field, not to an
      empty one. */
  function WithDefault(field: Option<string>, default: string): (r: string)
    ensures field.None? ==> r == default
    ensures field.Some? ==> r == field.value
  {
    match field
    case None => default
    case Some(v) => v
  }

  /** `websiteData && websiteData.url && websiteData.pages`: an empty page
      list passes, an empty URL does not. */
  predicate HasWebsiteData(w: Option<WebsiteBody>) {
    w.Some? && w.value.url != "" && w.value.pages.Some?
  }

  /** The `ScrapedData` built from the request. */
  function ToScrapedData(w: WebsiteBody): (d: ScrapedData)
    requires w.pages.Some?
    ensures d.mainUrl == w.url && d.pages == w.pages.value
    ensures d.mainTitle != "" && (w.title != "" ==> d.mainTitle == w.title)
    ensures w.title == "" ==> d.mainTitle == UntitledWebsite
    ensures w.totalPages.Some? && w.totalPages.value != 0 ==> d.totalPages == w.totalPages.value
    ensures !(w.totalPages.Some? && w.totalPages.value != 0) ==> d.totalPages == |w.pages.value|
  {
    ScrapedData(w.pages.value, w.url,
                if w.title != "" then w.title else UntitledWebsite,
                if w.totalPages.Some? && w.totalPages.value != 0 then w.totalPages.value else |w.pages.value|)
  }

  /** The page total handed on is zero only for a request without pages, so
      the per-page budget is never unlimited for a page that is sent. */
  lemma TotalZeroOnlyWithoutPages(w: WebsiteBody)
    requires w.pages.Some?
    ensures ToScrapedData(w).totalPages == 0 ==> w.pages.value == []
    ensures w.pages.value != [] && (w.totalPages.None? || w.totalPages.value >= 0) ==> ToScrapedData(w).totalPages > 0
  {
  }
}
