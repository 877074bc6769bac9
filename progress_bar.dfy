/** The progress bar (src/app/components/ProgressBar.tsx): what it shows for
    the page's progress fields. Only the text and the bar's state are modelled;
    markup, classes and animation are not. */
module ProgressBar {
  import opened Wrappers
  import opened Text
  import Home
  import CrawlProgress

  /** The bar: an animated strip of unknown length while summarizing, else a
      strip filled to a percentage. */
  datatype Bar = Indeterminate | Filled(width: int)

  /** What a visible bar shows. */
  datatype View = View(
    status: string,
    completed: int,
    total: int,
    percent: int,
    bar: Bar,
    phase: string,
    detail: string)

  /** `Math.min(100, Math.max(0, progress))`. */
  function SafeProgress(progress: int): (r: int)
    ensures 0 <= r <= 100
    ensures 0 <= progress <= 100 ==> r == progress
    ensures progress < 0 ==> r == 0
    ensures progress > 100 ==> r == 100
  {
    var atLeastZero := if progress < 0 then 0 else progress;
    if atLeastZero < 100 then atLeastZero else 100
  }

  /** The phase test: the lower-cased status mentions `summary` or
      `preparing`. */
  predicate IsSummarizing(status: string) {
    var lower := ToLowerAscii(status);
    Contains(lower, "summary") || Contains(lower, "preparing")
  }

  /** The component: nothing when hidden, else the status, the counts, the
      clamped percentage, and the bar and labels of the phase. */
  function Render(isVisible: bool, progress: int, total: int, completed: int, status: string): (r: Option<View>)
    ensures r.None? <==> !isVisible
    ensures r.Some? ==> r.value.status == status && r.value.completed == completed && r.value.total == total
    ensures r.Some? ==> r.value.percent == SafeProgress(progress) && 0 <= r.value.percent <= 100
    ensures r.Some? && IsSummarizing(status) ==> (
      && r.value.bar == Indeterminate
      && r.value.phase == "Summarizing content"
      && r.value.detail == "Preparing AI summary...")
    ensures r.Some? && !IsSummarizing(status) ==> (
      && r.value.bar == Filled(r.value.percent)
      && r.value.phase == "Crawling website"
      && r.value.detail == IntToString(completed) + " pages crawled")
  {
    if !isVisible then None
    else
      var safeProgress := SafeProgress(progress);
      var summarizing := IsSummarizing(status);
      Some(View(
        status, completed, total, safeProgress,
        if summarizing then Indeterminate else Filled(safeProgress),
        if summarizing then "Summarizing content" else "Crawling website",
        if summarizing then "Preparing AI summary..." else IntToString(completed) + " pages crawled"))
  }

  // ---------------------------------------------------------------------------
  // Properties
  // ---------------------------------------------------------------------------

  /** Clamping twice changes nothing, and a larger value never shows less. */
  lemma SafeProgressIdempotentAndMonotone(p: int, q: int)
    ensures SafeProgress(SafeProgress(p)) == SafeProgress(p)
    ensures p <= q ==> SafeProgress(p) <= SafeProgress(q)
  {
  }

  /** The page's percentage exceeds 100 once more pages are done than were
      counted; the bar shows such a value as full. */
  lemma OverfullCrawlShowsFullBar(completed: int, total: int)
    requires total > 0 && completed >= total
    ensures Home.Percentage(completed, total) >= 100
    ensures SafeProgress(Home.Percentage(completed, total)) == 100
  {
    var p := Home.Percentage(completed, total);
    Home.MulMonotone(total, completed, 100);
    assert (p + 1) * total == p * total + total;
    MulCancel(100, p + 1, total);
  }

  /** A product with a natural factor is smaller only if the other factor is. */
  lemma MulCancel(a: int, b: int, c: nat)
    requires a * c < b * c
    ensures a < b
  {
    if b <= a {
      Home.MulMonotone(b, a, c);
    }
  }

  /** Lower-casing works character by character, so it distributes over
      concatenation. */
  lemma ToLowerAppend(a: string, b: string)
    ensures ToLowerAscii(a + b) == ToLowerAscii(a) + ToLowerAscii(b)
  {
  }

  /** Lower-casing is idempotent, so the phase test ignores case. */
  lemma PhaseIgnoresCase(status: string)
    ensures ToLowerAscii(ToLowerAscii(status)) == ToLowerAscii(status)
    ensures IsSummarizing(ToLowerAscii(status)) == IsSummarizing(status)
  {
  }

  /** The page's status once a crawl completes, in either form it takes, puts
      the bar in the summarizing phase. */
  lemma CompletedStatusesSummarize(n: int)
    ensures IsSummarizing(Home.GeneratingStatus)
    ensures IsSummarizing(Home.CompletedHead + IntToString(n) + Home.CompletedTail)
  {
    GeneratingSummarizes(Home.GeneratingStatus);
    CompletedSummarizes(Home.CompletedHead + IntToString(n) + Home.CompletedTail, IntToString(n));
  }

  lemma GeneratingSummarizes(s: string)
    requires s == Home.GeneratingStatus
    ensures IsSummarizing(s)
  {
    SummaryAt(s, 11);
    ContainsSummarizes(s);
  }

  lemma CompletedSummarizes(s: string, count: string)
    requires s == Home.CompletedHead + count + Home.CompletedTail
    ensures IsSummarizing(s)
  {
    var head, tail := Home.CompletedHead + count, Home.CompletedTail;
    SummaryAt(tail, 27);
    ToLowerAppend(head, tail);
    ContainsAfterPrefix(ToLowerAscii(head), ToLowerAscii(tail), "summary");
  }

  /** A text with `summary` at index `i` mentions it once lower-cased. */
  lemma SummaryAt(s: string, i: nat)
    requires i + 7 <= |s| && s[i..i + 7] == "summary"
    ensures Contains(ToLowerAscii(s), "summary")
  {
    var lower := ToLowerAscii(s);
    forall k | 0 <= k < 7 ensures lower[i + k] == "summary"[k] {
      assert s[i + k] == s[i..i + 7][k];
    }
    ContainsAt(lower, "summary", i);
  }

  lemma ContainsSummarizes(s: string)
    requires Contains(ToLowerAscii(s), "summary")
    ensures IsSummarizing(s)
  {
  }

  /** The fixed `Crawling website...` status keeps the bar in the crawling
      phase. Only the content-poll branch for partial data sets it, and that
      branch needs `pages` in the content reply, which the partial-content
      route never sends; the statuses the page does show while crawling are
      covered by `ProgressStatusesCrawl`. */
  lemma CrawlingStatusCrawls()
    ensures !IsSummarizing(Home.CrawlingStatus)
  {
    CrawlingLacksPhaseWords(Home.CrawlingStatus);
  }

  lemma CrawlingLacksPhaseWords(s: string)
    requires s == Home.CrawlingStatus
    ensures !IsSummarizing(s)
  {
    CrawlingLacksLetters(s);
    LowerLacks(s, 'y', 'Y');
    LowerLacks(s, 'p', 'P');
    var lower := ToLowerAscii(s);
    MissingCharNotContained(lower, "summary", 'y');
    MissingCharNotContained(lower, "preparing", 'p');
  }

  lemma CrawlingLacksLetters(s: string)
    requires s == Home.CrawlingStatus
    ensures 'y' !in s && 'Y' !in s && 'p' !in s && 'P' !in s
  {
    assert forall i :: 0 <= i < |s| ==> s[i] != 'y' && s[i] != 'Y' && s[i] != 'p' && s[i] != 'P';
  }

  /** A lower-case letter appears after lower-casing only where it or its
      capital stood. */
  lemma LowerLacks(s: string, c: char, upper: char)
    requires 'a' <= c <= 'z' && upper as int == c as int - 32
    requires c !in s && upper !in s
    ensures c !in ToLowerAscii(s)
  {
    var lower := ToLowerAscii(s);
    forall k | 0 <= k < |lower| ensures lower[k] != c {
      assert s[k] != c && s[k] != upper;
    }
  }

  /** Every message the crawl-progress route derives from the status of a
      crawl that has not completed, behind the page's `Crawling website: `
      prefix, keeps the bar in the crawling phase. */
  lemma ProgressStatusesCrawl(reply: CrawlProgress.StatusReply)
    requires reply.status != "completed"
    ensures !IsSummarizing(Home.CrawlingPrefix + CrawlProgress.ProgressMessage(reply))
  {
    var s := Home.CrawlingPrefix + CrawlProgress.ProgressMessage(reply);
    ProgressStatusPlain(reply);
    PlainNotPreparing(s);
    LowerLacks(s, 'y', 'Y');
    MissingCharNotContained(ToLowerAscii(s), "summary", 'y');
  }

  /** After a progress poll whose message the route derived from a crawl that
      has not completed, the page's bar shows that message and is filled to
      the clamped share of pages done. */
  lemma BarWhileProgress(s: Home.PageState, reply: CrawlProgress.StatusReply, crawlId: string, completed: int, total: int, newHandle: nat)
    requires reply.status != "completed"
    ensures var r := Home.AfterProgressReply(s, Home.Progress(CrawlProgress.ProgressMessage(reply), crawlId, completed, total), newHandle);
      var v := Render(r.showProgress, r.progress.value, r.progress.total, r.progress.completed, r.progress.status);
      && v.Some? && v.value.status == Home.CrawlingPrefix + CrawlProgress.ProgressMessage(reply)
      && v.value.bar == Filled(SafeProgress(Home.Percentage(completed, total)))
      && v.value.detail == IntToString(completed) + " pages crawled"
  {
    var m := CrawlProgress.ProgressMessage(reply);
    CrawlProgress.OtherMessagesSignalNothing(reply);
    Home.ProgressWithoutCompletion(s, Home.Progress(m, crawlId, completed, total), newHandle);
    ProgressStatusesCrawl(reply);
  }

  /** Text in which no `e` is followed by a `p` and which does not end in an
      `e`, ignoring case, and which holds no `y` or `Y`: once lower-cased it
      mentions neither `summary` nor `preparing`. */
  predicate Plain(s: string) {
    && 'y' !in s && 'Y' !in s
    && forall i :: 0 <= i < |s| && LowerChar(s[i]) == 'e' ==> i + 1 < |s| && LowerChar(s[i + 1]) != 'p'
  }

  lemma PlainAppend(a: string, b: string)
    requires Plain(a) && Plain(b)
    ensures Plain(a + b)
  {
    var ab := a + b;
    forall i | 0 <= i < |ab| && LowerChar(ab[i]) == 'e' ensures i + 1 < |ab| && LowerChar(ab[i + 1]) != 'p' {
      if i < |a| {
        assert ab[i] == a[i] && ab[i + 1] == a[i + 1];
      } else {
        assert ab[i] == b[i - |a|];
        assert i - |a| + 1 < |b|;
        assert ab[i + 1] == b[i - |a| + 1];
      }
    }
  }

  lemma PlainNotPreparing(s: string)
    requires Plain(s)
    ensures !Contains(ToLowerAscii(s), "preparing")
  {
    var lower := ToLowerAscii(s);
    forall k: nat | k <= |lower| ensures !OccursAt(lower, "preparing", k) {
      if k + 9 <= |lower| {
        var w := lower[k..k + 9];
        assert w[2] == LowerChar(s[k + 2]) && w[3] == LowerChar(s[k + 3]);
        assert !(w[2] == 'e' && w[3] == 'p');
      }
    }
  }

  /** The status the page shows for each such message is plain. */
  lemma ProgressStatusPlain(reply: CrawlProgress.StatusReply)
    requires reply.status != "completed"
    ensures Plain(Home.CrawlingPrefix + CrawlProgress.ProgressMessage(reply))
  {
    PlainCrawlingPrefix(Home.CrawlingPrefix);
    var m := CrawlProgress.ProgressMessage(reply);
    if reply.status == "scraping" {
      var a, b := CrawlProgress.RenderCount(reply.completed), CrawlProgress.RenderCount(reply.total);
      CountPlain(reply.completed);
      CountPlain(reply.total);
      PlainProgressHead("Crawl in progress: ");
      PlainShortLiteral("/");
      PlainProgressTail(" pages completed");
      PlainAppend("Crawl in progress: ", a);
      PlainAppend("Crawl in progress: " + a, "/");
      PlainAppend("Crawl in progress: " + a + "/", b);
      PlainAppend("Crawl in progress: " + a + "/" + b, " pages completed");
    } else if reply.status == "failed" {
      PlainShortLiteral("Crawl failed");
    } else {
      PlainInitializing(CrawlProgress.Initializing);
    }
    PlainAppend(Home.CrawlingPrefix, m);
  }

  lemma PlainCrawlingPrefix(s: string)
    requires s == Home.CrawlingPrefix
    ensures Plain(s)
  {
    assert forall i :: 0 <= i < |s| ==> s[i] != 'y' && s[i] != 'Y' && s[i] != 'E' && s[i] != 'P';
    assert forall i :: 0 <= i < |s| && s[i] == 'e' ==> i + 1 < |s| && s[i + 1] != 'p';
    PlainByChars(s);
  }

  lemma PlainProgressHead(s: string)
    requires s == "Crawl in progress: "
    ensures Plain(s)
  {
    assert forall i :: 0 <= i < |s| ==> s[i] != 'y' && s[i] != 'Y' && s[i] != 'E' && s[i] != 'P';
    assert forall i :: 0 <= i < |s| && s[i] == 'e' ==> i + 1 < |s| && s[i + 1] != 'p';
    PlainByChars(s);
  }

  lemma PlainProgressTail(s: string)
    requires s == " pages completed"
    ensures Plain(s)
  {
    assert forall i :: 0 <= i < |s| ==> s[i] != 'y' && s[i] != 'Y' && s[i] != 'E' && s[i] != 'P';
    assert forall i :: 0 <= i < |s| && s[i] == 'e' ==> i + 1 < |s| && s[i + 1] != 'p';
    PlainByChars(s);
  }

  lemma PlainShortLiteral(s: string)
    requires s in {"/", "Crawl failed", "undefined"}
    ensures Plain(s)
  {
    assert forall i :: 0 <= i < |s| ==> s[i] != 'y' && s[i] != 'Y' && s[i] != 'E' && s[i] != 'P';
    assert forall i :: 0 <= i < |s| && s[i] == 'e' ==> i + 1 < |s| && s[i + 1] != 'p';
    PlainByChars(s);
  }

  lemma PlainInitializing(s: string)
    requires s == CrawlProgress.Initializing
    ensures Plain(s)
  {
    assert forall i :: 0 <= i < |s| ==> s[i] != 'y' && s[i] != 'Y' && s[i] != 'E' && s[i] != 'e';
    PlainByChars(s);
  }

  /** Plainness read off the characters themselves. */
  lemma PlainByChars(s: string)
    requires 'y' !in s && 'Y' !in s
    requires forall i :: 0 <= i < |s| && (s[i] == 'e' || s[i] == 'E') ==> i + 1 < |s| && s[i + 1] != 'p' && s[i + 1] != 'P'
    ensures Plain(s)
  {
    forall i | 0 <= i < |s| && LowerChar(s[i]) == 'e' ensures i + 1 < |s| && LowerChar(s[i + 1]) != 'p' {
      assert s[i] == 'e' || s[i] == 'E';
    }
  }

  lemma SignedDigitsPlain(r: string)
    requires forall k :: 0 <= k < |r| ==> r[k] == '-' || IsDigit(r[k])
    ensures Plain(r)
  {
    PlainByChars(r);
  }

  /** A rendered count is decimal digits with an optional sign, or `undefined`. */
  lemma CountPlain(c: Option<int>)
    ensures Plain(CrawlProgress.RenderCount(c))
  {
    if c.Some? {
      IntToStringChars(c.value);
      SignedDigitsPlain(IntToString(c.value));
    } else {
      PlainShortLiteral("undefined");
    }
  }

  /** After a content poll reports `completed`, the page's bar is visible and
      in the summarizing phase. */
  lemma BarAfterCompletedContent(s: Home.PageState, url: string, reply: Home.ContentReply)
    requires reply.Content? && reply.status == "completed"
    ensures var p := Home.AfterContentReply(s, url, reply).progress;
      var v := Render(Home.AfterContentReply(s, url, reply).showProgress, p.value, p.total, p.completed, p.status);
      && v.Some? && v.value.bar == Indeterminate && v.value.detail == "Preparing AI summary..."
  {
    var r := Home.AfterContentReply(s, url, reply);
    assert r.showProgress;
    CompletedSummarizes(r.progress.status, IntToString(reply.completed));
  }

  /** While content polls report pages of a running crawl, the page's bar is
      filled to the clamped share of pages done. This is the partial-data
      branch, which needs `pages` in the content reply; `BarWhileProgress`
      covers the progress polls that drive the bar in the page as written. */
  lemma BarWhileCrawling(s: Home.PageState, url: string, reply: Home.ContentReply)
    requires reply.Content? && reply.status != "completed" && reply.pages.Some? && reply.title != ""
    ensures var p := Home.AfterContentReply(s, url, reply).progress;
      var v := Render(Home.AfterContentReply(s, url, reply).showProgress, p.value, p.total, p.completed, p.status);
      && v.Some? && v.value.bar == Filled(SafeProgress(Home.Percentage(reply.completed, reply.total)))
      && v.value.detail == IntToString(reply.completed) + " pages crawled"
  {
    var r := Home.AfterContentReply(s, url, reply);
    assert r.showProgress && r.progress.status == Home.CrawlingStatus;
    CrawlingLacksPhaseWords(r.progress.status);
  }
}
