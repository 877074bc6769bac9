# Chat with your website — a Dafny model of the crawl, chat and summary logic

The application crawls a website through the Firecrawl service. It polls the
crawl job and merges the pages into one text. A Typhoon language model then
summarizes that text, and the user can chat about the site. This project
models the sequential logic underneath the user interface and the HTTP
plumbing, and proves properties of it:

- `Scraper` models `scrapeWebsite`. It starts a crawl job and records the job
  id under the URL. It polls at most thirty times and merges every snapshot's
  pages without repeating one. It keeps a sticky title and decides between
  timeout, "no content" and success.
- `ChatInterface` models the chat component. It covers the greeting, sending
  a message, the backward scan for the last user and last assistant messages,
  regeneration of the reply in place, and the "last assistant message" test.
- `Llm` models the language instruction, the extraction of the answer after a
  `</think>` block, the per-page content budget and truncation, the in-place
  trimming of the chat history, and the list of messages sent to the model.
- `Home` models the page. It holds the progress display, the two interval
  handles with the crawl flags, the URL submission and its error
  classification, and the chat request.
- `ProgressBar` models the clamp and the phase test of the progress bar.
- `PartialContent`, `CrawlProgress`, `ScrapeRoute`, `ChatRoute` and
  `SummarizeRoute` model the API routes. `WebsiteRequest` holds the request
  shape that the chat and summarize routes share.
- `Firecrawl` holds the crawl service's snapshot shape, and `Text` holds the
  JavaScript string operations used throughout (`trim`, `includes`,
  `indexOf`, `split`, ASCII `toLowerCase`, decimal rendering).

Every reply from outside is an input value of the model:
- a crawl-status snapshot, or a thrown poll;
- the language model's text, or its error;
- the result of a `fetch`.

Environment variables are booleans. Timer handles and message ids are fresh
values passed in.

Code that changes state step by step is imperative Dafny:
- the polling loop and the per-snapshot `forEach` of the scraper;
- the route's `forEach`;
- the backward scan;
- the page's interval handles, a class whose methods clear and set them;
- the chat component's state;
- the caller's message array that `chatWithWebsite` trims in place.

Each such method is proved against a function that specifies it. The
properties are proved about those functions.

## Model

| member | source | states |
|---|---|---|
| Scraper.CrawlIdMap.constructor | src/app/lib/scraper.ts:3 | the URL-to-job-id registry starts empty |
| Scraper.IngestPageFacts | src/app/lib/scraper.ts:130-160 | one page keeps the accumulator invariant: `sources` has no repeats, has exactly the URLs of the processed set and never the empty URL, and the content starts with `# ` once present; the page's URL joins the processed set and, when new, the end of `sources`; content is only extended; a title already set is kept |
| Scraper.IngestPagesFacts | src/app/lib/scraper.ts:128-160 | a whole snapshot adds exactly its source URLs to the processed set and appends the new ones to `sources` in first-observed order, given by the independent definition `FirstSeen`; it keeps the invariant, only extends the content and keeps a title already set |
| Scraper.FirstBlockIsHeader | src/app/lib/scraper.ts:143-159 | the first block is the header naming the title adopted from that same page (its title, else `Untitled Website`) and its description, then its markdown |
| Scraper.LaterBlockIsSeparator | src/app/lib/scraper.ts:147-159 | after the first block, a page not seen before appends exactly its separator, naming its URL or `unknown URL`, and its markdown |
| Scraper.ProcessedPageChangesNothing | src/app/lib/scraper.ts:132-134 | a page whose source URL was already processed, in an earlier poll or earlier in the same snapshot, changes nothing |
| Scraper.PageWithoutUrlAppends | src/app/lib/scraper.ts:137-159 | a page without a source URL leaves the processed set and `sources` alone but always lengthens the content by more than its markdown |
| Scraper.IngestPagesGrowsWith | src/app/lib/scraper.ts:132-159 | a snapshot holding a page without a source URL always makes the content strictly longer |
| Scraper.AllProcessedChangesNothing | src/app/lib/scraper.ts:130-134 | a snapshot whose pages were all processed before changes nothing |
| Scraper.IngestTwiceIsIngestOnce | src/app/lib/scraper.ts:130-160 | ingesting the same snapshot twice equals ingesting it once when every page has a source URL |
| Scraper.IngestTwiceGrowsWithoutUrl | src/app/lib/scraper.ts:132-159 | with a page lacking a source URL, a repeated snapshot grows the content again: it is not deduplicated |
| Scraper.IngestSnapshot | src/app/lib/scraper.ts:130-160 | the `forEach` loop over a snapshot's pages computes exactly the specification `IngestPages` |
| Scraper.PollsMade | src/app/lib/scraper.ts:99-110 | the number of polls lies between the start and thirty and is larger than the start when polls remain; fewer than thirty happen only when the last one returned a `completed` snapshot, and no earlier one did |
| Scraper.PollForResults | src/app/lib/scraper.ts:98-196 | the loop makes `PollsMade` polls; the accumulator equals the specification applied to those polls, and `resultResponse` is the snapshot of the last poll that did not throw; a thrown poll and a `failed` status are both retried |
| Scraper.LastFetchedNone | src/app/lib/scraper.ts:98-125 | `resultResponse` stays null exactly when every poll threw |
| Scraper.LastFetchedIsLast | src/app/lib/scraper.ts:125 | a non-null `resultResponse` is the snapshot of some poll after which every poll threw |
| Scraper.AfterPollsFacts | src/app/lib/scraper.ts:103-160 | over all polls the invariant holds, the processed set is the set of every URL seen, and `sources` lists them once each in first-observed order |
| Scraper.SourcesListEachUrlOnce | src/app/lib/scraper.ts:137-140 | every source URL seen ends up in `sources` and the processed set, and `sources` holds no URL twice |
| Scraper.ContentOnlyGrows | src/app/lib/scraper.ts:148-159 | content is append-only across polls: later content extends earlier content |
| Scraper.TitleIsSticky | src/app/lib/scraper.ts:143-145 | once the title is not the placeholder, no later poll changes it |
| Scraper.FirstTitle | src/app/lib/scraper.ts:107 | reference for the settled title: the placeholder exactly when every candidate is empty or the placeholder, otherwise the earliest candidate that is neither |
| Scraper.IngestPagesTitle | src/app/lib/scraper.ts:143-145 | over one snapshot a title already set is kept, and the placeholder gives way to `FirstTitle` of the titles of the pages ingested (no source URL, or one neither processed before nor carried by an earlier page) |
| Scraper.AfterPollsTitle | src/app/lib/scraper.ts:107-145 | over all polls the title is `FirstTitle` of the titles of the ingested pages in ingestion order: the first set one, or `Untitled Website` when none is |
| Scraper.MapPages | src/app/lib/scraper.ts:221-226 | the returned pages map the snapshot's pages one to one; the mapping throws exactly when a page lacks metadata |
| Scraper.ScrapeWebsite | src/app/lib/scraper.ts:56-235 | the result is `ScrapeOutcome`; the job id is stored under the URL exactly when the crawl started; on success the accumulated text ends with the statistics trailer |
| Scraper.TimedOutIffNoPollSucceeded | src/app/lib/scraper.ts:199-201 | `Timed out` is thrown exactly when every poll made threw, and then all thirty polls were made |
| Scraper.NoContentIffNoSourceUrl | src/app/lib/scraper.ts:204-206 | once a poll succeeded, `No content extracted` is thrown exactly when no snapshot held a page with a source URL |
| Scraper.SuccessShape | src/app/lib/scraper.ts:220-230 | a success carries the input URL, the settled title, the last snapshot's `total`, and that snapshot's pages one to one, not the deduplicated set |
| Scraper.FailuresAreWrapped | src/app/lib/scraper.ts:231-234 | every failure message carries the `Failed to scrape website: ` prefix |
| Scraper.WrapInjective | src/app/lib/scraper.ts:233 | the prefix can be taken off again: different inner messages stay different |
| ChatInterface.Greeting | src/app/components/ChatInterface.tsx:131-140 | the first message has id `1`, is an assistant message and names the URL |
| ChatInterface.EffectGreeting | src/app/components/ChatInterface.tsx:160-172 | the reset greeting has id `1`, names the URL, and for partial data equals the mount greeting |
| ChatInterface.LastIndexOf | src/app/components/ChatInterface.tsx:228-240 | the reference for the scan: the index of the last message with a role, or -1, with no later message of that role |
| ChatInterface.ScanLastIndices | src/app/components/ChatInterface.tsx:228-240 | the backward scan with its early break yields the last user and the last assistant index of the whole transcript |
| ChatInterface.NoAssistantFromIff | src/app/components/ChatInterface.tsx:298-300 | the loop of `isLastAssistantMessage` finds no assistant message from an index on exactly when none exists there |
| ChatInterface.IsLastAssistantMessageIff | src/app/components/ChatInterface.tsx:294-303 | `isLastAssistantMessage` holds exactly when the message is an assistant message and no later message is |
| ChatInterface.RegenerateTargetIsFlagged | src/app/components/ChatInterface.tsx:294-303 | the message dimmed during regeneration (the `isLastAssistantMessage` test) is exactly the one regenerate overwrites |
| ChatInterface.StaleWrite | src/app/components/ChatInterface.tsx:261-268 | as written: the JavaScript write `newMessages[index] = …` keeps every other message, puts the new one at the index, and past the end lengthens the array with holes |
| ChatInterface.StaleWriteHoleIff | src/app/components/ChatInterface.tsx:261-268 | the write leaves a hole exactly when the index lies beyond the end |
| ChatInterface.StaleWriteInRange | src/app/components/ChatInterface.tsx:261-268 | inside the transcript the JavaScript write agrees with `ReplaceAt` |
| ChatInterface.ResetDuringRegenerateLeavesHole | src/app/components/ChatInterface.tsx:160-172 | a regenerate captured over greeting, question and answer targets index 2; after the greeting effect resets the transcript during the await, the write gives greeting, hole, reply |
| ChatInterface.StaleReplyDropped | src/app/components/ChatInterface.tsx:261-268 | corrected: a reply whose target the reset removed leaves the greeting alone |
| ChatInterface.ReplaceAt | src/app/components/ChatInterface.tsx:261-268 | replacement keeps the length and changes only the given index; index -1 changes nothing |
| ChatInterface.RegenerateFor | src/app/components/ChatInterface.tsx:243-254 | no request exactly when no user message exists; otherwise the history is the prefix up to and including the last user message, and the target is the last assistant index |
| ChatInterface.ScanExamples | src/app/components/ChatInterface.tsx:231-240 | when the reply to the last question is missing, the scan picks the reply to the previous question |
| ChatInterface.ChatSession.constructor | src/app/components/ChatInterface.tsx:131-144 | the transcript starts as the greeting alone, with an empty input and no send or regenerate running |
| ChatInterface.ChatSession.ResetGreeting | src/app/components/ChatInterface.tsx:160-172 | the effect resets the transcript to the greeting alone and changes no other field |
| ChatInterface.ChatSession.SetNewMessage | src/app/components/ChatInterface.tsx:141 | typing changes only the input |
| ChatInterface.ChatSession.BeginSend | src/app/components/ChatInterface.tsx:178-194 | a blank input or a running send changes nothing; otherwise the user message is appended, its text remembered, the input cleared and loading set |
| ChatInterface.ChatSession.Record | src/app/components/ChatInterface.tsx:190-194 | the accepted message is appended and the input state updated |
| ChatInterface.ChatSession.FinishSend | src/app/components/ChatInterface.tsx:196-221 | exactly one assistant message is appended, holding the reply or the fixed error text, and loading ends |
| ChatInterface.ChatSession.HandleSendMessage | src/app/components/ChatInterface.tsx:178-222 | a send grows the transcript by exactly two, the user message and then the assistant message, or changes nothing when refused |
| ChatInterface.ChatSession.BeginRegenerate | src/app/components/ChatInterface.tsx:224-254 | refused when no message was sent, a send or regenerate runs, or no user message exists; otherwise the request `RegenerateFor` describes |
| ChatInterface.ChatSession.FinishRegenerate | src/app/components/ChatInterface.tsx:253-290 | corrected: only the captured assistant index changes, to the reply or the fixed error text under the kept id; an index the transcript no longer holds, after a reset during the await, changes nothing, so the transcript keeps its length; nothing else changes |
| ChatInterface.ChatSession.HandleRegenerate | src/app/components/ChatInterface.tsx:224-291 | a regenerate keeps the length, changes at most the last assistant message and keeps its id; when refused nothing changes |
| Llm.LanguageCodeToName | src/app/lib/llm.ts:10-17 | the table knows exactly the five codes `en`, `th`, `zh`, `ja`, `ko` |
| Llm.GetLanguageInstructions | src/app/lib/llm.ts:24-60 | the text always starts with `Respond in <name>.` and is longer exactly for the twelve spellings that get an extra sentence |
| Llm.ExtraInstructionPresent | src/app/lib/llm.ts:32-57 | the `switch` adds a sentence exactly for the code, the English name and the native name of Chinese, Japanese, Korean and Thai |
| Llm.EnglishInstruction | src/app/lib/llm.ts:26-29 | the code `en` resolves to `Respond in English.` |
| Llm.ThaiInstructionAdded | src/app/lib/llm.ts:50-54 | the code `th` gets the name Thai and the Thai sentence |
| Llm.UnknownLanguageVerbatim | src/app/lib/llm.ts:26-29 | a language that is neither a table code nor a listed spelling is named verbatim, with no extra sentence |
| Llm.SecondPiece | src/app/lib/llm.ts:71 | the second piece of the split is the text after the first `</think>` up to the next one or the end, and holds no `</think>` |
| Llm.ExtractResultFromThinking | src/app/lib/llm.ts:68-74 | without `</think>` the result is the trimmed text; with it, the trimmed second piece |
| Llm.ExtractAfterReasoning | src/app/lib/llm.ts:70-71 | reasoning, the first `</think>` and an answer without another one give the trimmed answer |
| Llm.MaxContentLength | src/app/lib/const.ts:11-33 | exactly the three listed models have a content length, 24000 each |
| Llm.FloorDiv | src/app/lib/llm.ts:93 | `Math.floor` of the quotient, for divisors of either sign |
| Llm.MaxContextLengthPerPage | src/app/lib/llm.ts:92-94 | the page budget is the floor of the content length over the page total, and unlimited for zero pages |
| Llm.Excerpt | src/app/lib/llm.ts:136 | the excerpt is a prefix of the content of length min(length, budget), clamped at 0 |
| Llm.MarkerIffContentCut | src/app/lib/llm.ts:136 | for a budget that is not negative, the truncation marker appears exactly when the excerpt lost text |
| Llm.PageBody | src/app/lib/llm.ts:136 | a page body is the excerpt and a space, followed by the marker exactly when the content is longer than the budget |
| Llm.PromptPages | src/app/lib/llm.ts:129-140 | one block per page, numbered from 1, with the page's URL, title, description and body |
| Llm.BudgetExample | src/app/lib/llm.ts:92-94 | three pages share 24000 characters as 8000 each; 10000 characters are cut to 8000 and marked |
| Llm.PromptFor | src/app/lib/llm.ts:113-141 | building the prompt throws exactly when there are pages and the model has no parameters; otherwise it carries the site's URL, title, total and one block per page |
| Llm.Generate | src/app/lib/llm.ts:144-156 | the reply with any reasoning removed, or the prompt's, the parameter lookup's or the model's error under the caller's prefix |
| Llm.GenerateFailureKeepsPrefix | src/app/lib/llm.ts:153-156 | every failure carries the caller's prefix |
| Llm.SummarizeWebsite | src/app/lib/llm.ts:103-157 | a failure carries `Failed to summarize website: `; a success needs a model answer and a listed model |
| Llm.MessageArray.constructor | src/app/lib/llm.ts:170 | the caller's array holds the given messages |
| Llm.TrimmedHistory | src/app/lib/llm.ts:258-264 | at most one leading assistant message and then at most one trailing user message are removed, and the rest keep their order |
| Llm.TrimmedTranscript | src/app/lib/llm.ts:258-264 | a transcript as the chat component sends it loses exactly its greeting and its last question |
| Llm.Turns | src/app/lib/llm.ts:273 | each history message becomes one turn with its role and content |
| Llm.UpstreamMessages | src/app/lib/llm.ts:266-275 | the model sees the system prompt, the history and a final user turn with the last message |
| Llm.TrimHistory | src/app/lib/llm.ts:258-264 | `shift` and `pop` on the caller's array leave it trimmed as `TrimmedHistory` says |
| Llm.ChatWithWebsite | src/app/lib/llm.ts:168-286 | the result is `Generate` under the chat prefix; the caller's array is trimmed once the prompt is built; the upstream list is as `UpstreamMessages` says |
| Llm.ChatUpstreamForTranscript | src/app/lib/llm.ts:258-275 | for a transcript from the chat component the model sees the system prompt, the turns between greeting and question, and the question once, as the final turn |
| Home.Percentage | src/app/page.tsx:100 | the percentage is the floor of completed·100/total for a positive total, else 0 |
| Home.PercentageRange | src/app/page.tsx:99-101 | a share of the total lies in 0..100, and the whole total gives 100 |
| Home.PercentageNotCapped | src/app/page.tsx:100 | nothing caps the value: 3 of 2 gives 150 |
| Home.Entries | src/app/page.tsx:236 | the entries are at most the parts, each non-empty with no surrounding whitespace |
| Home.EntriesHead | src/app/page.tsx:236 | the first entry is the first part that is not blank, trimmed |
| Home.FirstUrlWithoutComma | src/app/page.tsx:236-239 | without a comma the trimmed input is the URL, unless it is blank |
| Home.FirstUrlIgnoresRest | src/app/page.tsx:236-252 | only the first comma-separated entry is used |
| Home.ClassifySubmitError | src/app/page.tsx:305-317 | the toast text follows the first matching substring in the order API key, no content, rate limit, timeout, crawl failure; otherwise `Error: <message>` |
| Home.ClassifyFirstMatchWins | src/app/page.tsx:311-314 | a message naming a timeout and a rate limit reads as a rate limit |
| Home.CompletedMessageSignals | src/app/page.tsx:149 | a `Crawl completed` message from the crawl-progress route signals completion |
| Home.WithProgress | src/app/page.tsx:94-106 | `updateProgress` records status, counts and percentage, shows the bar and changes nothing else |
| Home.StopContentPolling | src/app/page.tsx:183-186 | the content handle is cleared and its interval no longer runs; nothing else changes |
| Home.StopProgressPolling | src/app/page.tsx:187-190 | the progress handle is cleared and its interval no longer runs; nothing else changes |
| Home.AfterFinishSubmit | src/app/page.tsx:258-324 | as written: the handles are cleared only when the request resolved; loading ends and the bar hides in every case |
| Home.SubmitOutcome | src/app/page.tsx:268-319 | exactly one toast is added and the earlier ones kept; it is a success toast exactly when the reply is OK, and then the reply's data is shown and the partial data dropped; a rejected fetch or an unreadable body is toasted as `ClassifySubmitError` of its message, and a non-OK reply as `ClassifySubmitError` of its `error` text or `Failed to analyze website` |
| Home.UnrecognisedErrorToast | src/app/page.tsx:302-317 | a non-OK reply whose message names none of the recognised causes is toasted as `Error: ` followed by that message |
| Home.FallbackNamesNoCause | src/app/page.tsx:269-270 | the fallback `Failed to analyze website` names none of the recognised causes, so a non-OK reply without an `error` text is toasted as `Error: Failed to analyze website` |
| Home.AfterFinishSubmitStoppingTimers | src/app/page.tsx:258-266 | corrected: both handles are cleared and their intervals stopped on every outcome |
| Home.ProgressErrorsSwallowed | src/app/page.tsx:113-115 | a non-OK or thrown progress poll leaves the page as it was |
| Home.CompletionFromProgress | src/app/page.tsx:149-163 | a completion notice marks the crawl complete, clears both handles and shows `Generating summary...` at the full total |
| Home.ProgressWithoutCompletion | src/app/page.tsx:119-146 | another message only updates the display and, on the first job id, adopts it and starts content polling |
| Home.CompletionFromContent | src/app/page.tsx:181-196 | a `completed` content poll marks the crawl complete, clears both handles and leaves the data alone |
| Home.SubmitResets | src/app/page.tsx:218-244 | submitting resets data and flags, stops both old intervals and leaves only the new progress interval |
| Home.SubmitFinishes | src/app/page.tsx:258-324 | loading ends and the bar hides; when the request resolved both handles are cleared; on success the data is set and the partial data dropped |
| Home.RejectedFetchLeavesProgressPolling | src/app/page.tsx:242-266 | when the fetch rejects, the progress interval keeps running after the submission ended |
| Home.CorrectedSubmitStopsPolling | src/app/page.tsx:242-266 | the corrected ending stops the progress interval on every outcome |
| Home.StopBothValid | src/app/page.tsx:183-190 | clearing both handles keeps them pointing at running intervals |
| Home.ProgressKeepsValid | src/app/page.tsx:110-168 | a progress poll keeps both handles naming distinct running intervals |
| Home.ContentKeepsValid | src/app/page.tsx:136-145 | a content tick keeps the handle invariant |
| Home.ContentReplyKeepsValid | src/app/page.tsx:171-215 | a content reply keeps the handle invariant |
| Home.BeginSubmitKeepsValid | src/app/page.tsx:218-244 | starting a submission keeps the handle invariant |
| Home.FinishSubmitKeepsValid | src/app/page.tsx:258-324 | ending a submission, as written or corrected, keeps the handle invariant |
| Home.HomePage.constructor | src/app/page.tsx:54-68 | the initial state: nothing loaded, no handles, status `Initializing crawl...` over a total of 1, the initial model |
| Home.HomePage.UpdateProgress | src/app/page.tsx:94-106 | the new state is `WithProgress` of the old |
| Home.HomePage.ClearContentInterval | src/app/page.tsx:183-186 | the new state is `StopContentPolling` of the old |
| Home.HomePage.ClearProgressInterval | src/app/page.tsx:187-190 | the new state is `StopProgressPolling` of the old |
| Home.HomePage.ClearBoth | src/app/page.tsx:225-232 | both handles cleared, content first |
| Home.HomePage.PollForProgress | src/app/page.tsx:110-168 | the new state is `AfterProgressReply` of the old |
| Home.HomePage.AdoptCrawlId | src/app/page.tsx:128-145 | the job id is stored and the content interval replaced by a new one |
| Home.HomePage.CompleteCrawl | src/app/page.tsx:150-162 | marked complete, both handles cleared, the given status shown |
| Home.HomePage.PollForContent | src/app/page.tsx:171-215 | the new state is `AfterContentReply` of the old |
| Home.HomePage.ContentTick | src/app/page.tsx:136-145 | the interval callback polls while the crawl runs, else clears its handle |
| Home.HomePage.BeginSubmit | src/app/page.tsx:217-244 | returns the first URL; the new state is `AfterBeginSubmit` of the old |
| Home.HomePage.ResetForSubmit | src/app/page.tsx:218-232 | data and flags reset, both handles cleared |
| Home.HomePage.ResetFields | src/app/page.tsx:218-222 | data and flags reset |
| Home.HomePage.StartProgressInterval | src/app/page.tsx:242-244 | the progress handle names a new running interval |
| Home.HomePage.FinishSubmit | src/app/page.tsx:258-324 | the new state is `AfterFinishSubmit` of the old |
| Home.HomePage.ReportOutcome | src/app/page.tsx:258-319 | the new state is `SubmitOutcome` of the old |
| Home.ChatRequestFor | src/app/page.tsx:333-352 | the body carries the messages, the last one's content, the site's URL, title and pages, the selected model and language; the total is the site's total, or `pages.length` when that is missing or zero; building it throws exactly for no messages, or for a missing or zero total without pages |
| Home.HandleSendMessage | src/app/page.tsx:327-366 | without data the fixed prompt text; with data, a request that cannot be built rethrows its error; otherwise the answer succeeds exactly for an OK reply and is its `response`, a non-OK reply rethrows its `error` or `Failed to process message`, and a rejected fetch rethrows its message |
| Home.InitialModelHasNoParameters | src/app/page.tsx:59 | the initial model is not in the model table, so a summary with pages fails at the budget lookup |
| Home.ListedModelSummarizes | src/app/lib/const.ts:12-18 | with a listed model the same request reaches the model and returns its answer |
| PartialContent.PartialTitle | src/app/api/partial-content/route.ts:67-76 | page 0's title when it has one, else `Untitled Website` |
| PartialContent.StatusLine | src/app/api/partial-content/route.ts:102-106 | a status line exactly for `scraping` and `completed` |
| PartialContent.ForEachPage | src/app/api/partial-content/route.ts:72-96 | the loop yields the title, every page's URL in order with repeats, and the page blocks |
| PartialContent.BuildContent | src/app/api/partial-content/route.ts:66-107 | title, sources and the combined content, with the trailer only for a snapshot with pages |
| PartialContent.Get | src/app/api/partial-content/route.ts:31-125 | 400 without a job id, then 500 without the key, before any request; a failed fetch gives 500 with `Failed to fetch partial content: `; otherwise the snapshot's status and counts echoed with the built title, content and source list |
| PartialContent.TitleFromFirstPageOnly | src/app/api/partial-content/route.ts:74-76 | later pages never change the title |
| PartialContent.SourcesKeepDuplicates | src/app/api/partial-content/route.ts:79-81 | a page with a source URL always adds it, even when listed before |
| PartialContent.NoDeduplicationUnlikeScraper | src/app/api/partial-content/route.ts:79-81 | the same page twice is listed twice here but once by the scraper |
| PartialContent.BlocksStartWithHeader | src/app/api/partial-content/route.ts:84-95 | the text starts with page 0's header and markdown |
| PartialContent.ScraperTextIsBlocks | src/app/api/partial-content/route.ts:84-95 | over a first snapshot with no repeated source URL, the scraper's text is exactly this route's page blocks under page 0's title |
| PartialContent.BlocksAppend | src/app/api/partial-content/route.ts:84-95 | every later page adds its separator and its markdown |
| PartialContent.ContentShape | src/app/api/partial-content/route.ts:71-107 | content is empty exactly without pages, and otherwise starts with the `# title` header |
| PartialContent.TrailerStatus | src/app/api/partial-content/route.ts:98-106 | the trailer names the status only for `scraping` and `completed` |
| CrawlProgress.ProgressMessage | src/app/api/crawl-progress/route.ts:51-59 | `scraping` gives `Crawl in progress: <completed>/<total> pages completed`, `completed` gives `Crawl completed: <completed> pages crawled`, `failed` `Crawl failed`, anything else `Initializing crawl...` |
| CrawlProgress.RenderCount | src/app/api/crawl-progress/route.ts:54-56 | a count renders as its decimal text and a missing one as `undefined`; neither holds a `C` or a `y` |
| CrawlProgress.Get | src/app/api/crawl-progress/route.ts:5-80 | 400 without a URL; `Initializing crawl...` with 0/0 and no id when none is stored; otherwise the stored id with the message and counts, or the error text |
| CrawlProgress.Count | src/app/api/crawl-progress/route.ts:65-66 | a missing counter is 0 |
| CrawlProgress.CompletionSignalledIffCompleted | src/app/api/crawl-progress/route.ts:51-59 | of this route's messages, the page sees completion exactly for status `completed` |
| CrawlProgress.OtherMessagesSignalNothing | src/app/api/crawl-progress/route.ts:53-59 | the messages for every other status carry no completion notice |
| CrawlProgress.ScrapingMessageSignalsNothing | src/app/api/crawl-progress/route.ts:54 | the running message carries no completion notice, whatever the counts |
| CrawlProgress.ErrorBodiesCarryIdAndZeros | src/app/api/crawl-progress/route.ts:69-78 | every error body carries the stored id, 0/0 and the `Error fetching progress: ` text |
| ScrapeRoute.ClassifyError | src/app/api/scrape/route.ts:47-72 | the first matching substring in the order key 500, no content 422, `429` 429, timeout 408, crawl failed 422; otherwise 500 with `Failed to process website: ` |
| ScrapeRoute.Post | src/app/api/scrape/route.ts:6-74 | a body that cannot be read is classified like any error; 400 without a URL and 500 without the key, before any crawl; otherwise the job id is recorded once the crawl starts, and the crawl's or the summary's error is classified, or the summary returned with empty sources |
| ScrapeRoute.TimedOutCrawlIs408 | src/app/api/scrape/route.ts:62-65 | a crawl whose every poll failed reaches the client as 408 |
| ScrapeRoute.TimedOutMessageIs408 | src/app/api/scrape/route.ts:62-65 | the scraper's wrapped timeout message classifies as 408 |
| ScrapeRoute.WrappedTimeoutIs408 | src/app/api/scrape/route.ts:51-65 | a wrapped message mentioning `Timed out` and none of `FIRECRAWL_API_KEY`, `No content extracted` and `429` classifies as 408 |
| ScrapeRoute.WrapAddsNoEarlierCause | src/app/lib/scraper.ts:233 | the `Failed to scrape website: ` prefix creates none of the three earlier causes across the join |
| ScrapeRoute.TimeoutWithNumberIs408 | src/app/api/scrape/route.ts:51-65 | `Timed out after 45 s`, which holds a `4` but not `429`, reaches the client as 408 |
| ScrapeRoute.NoContentIs422 | src/app/api/scrape/route.ts:54-57 | a crawl without content reaches the client as 422 |
| ChatRoute.RequestProblem | src/app/api/chat/route.ts:11-30 | the first failing check in the order messages, last message, website data; none exactly when all hold |
| ChatRoute.Post | src/app/api/chat/route.ts:7-57 | 400 for a failing check; otherwise the model's answer, or 500 with `Failed to process message: ` |
| ChatRoute.ChecksInOrder | src/app/api/chat/route.ts:11-23 | a request failing an earlier check never reports a later one |
| ChatRoute.ChatFailureCarriesBothPrefixes | src/app/api/chat/route.ts:50-56 | a chat failure reaches the client under the route's prefix followed by the chat prefix |
| SummarizeRoute.Post | src/app/api/summarize/route.ts:6-36 | 400 without usable website data; otherwise the summary, or 500 with `Failed to summarize website: ` |
| SummarizeRoute.SummaryFailureHasPrefixTwice | src/app/api/summarize/route.ts:30-34 | a failed summary reaches the client with that prefix twice |
| SummarizeRoute.DefaultsSummarize | src/app/api/summarize/route.ts:8 | with language and model missing, the default model answers |
| WebsiteRequest.WithDefault | src/app/api/summarize/route.ts:8 | a destructuring default applies only to a missing field |
| WebsiteRequest.ToScrapedData | src/app/api/summarize/route.ts:17-23 | URL and pages copied; an empty or missing title becomes `Untitled Website` and any other is kept (likewise src/app/api/chat/route.ts:33-38); a missing or zero total becomes the page count |
| WebsiteRequest.TotalZeroOnlyWithoutPages | src/app/api/summarize/route.ts:22 | the total handed on is zero only for a request without pages |
| Firecrawl.Urls | src/app/api/partial-content/route.ts:79-81 | the non-empty source URLs, in page order, with repeats |
| Firecrawl.PageUrl | src/app/lib/scraper.ts:137 | a page's URL as a list of at most one, empty exactly without a source URL |
| Firecrawl.UrlsMembership | src/app/api/partial-content/route.ts:79-81 | a URL is listed exactly when it is not empty and some page carries it |
| Text.Trim | src/app/page.tsx:236 | `trim` never lengthens, is empty exactly for an all-whitespace string, and otherwise starts and ends with non-whitespace |
| Text.Split | src/app/page.tsx:236 | `split` yields at least one part, and no part holds the separator |
| Text.SplitJoin | src/app/page.tsx:236 | joining the parts with the separator gives the input back |
| Text.IndexOf | src/app/api/scrape/route.ts:51-66 | the first occurrence at or after the start index, or none exactly when there is no occurrence there |
| Text.ContainsIff | src/app/api/scrape/route.ts:51-66 | `includes` holds exactly when the search finds an occurrence |
| Text.ToLowerAscii | src/app/components/ProgressBar.tsx:25 | same length, each character lowered on its own |
| Text.NatToString | src/app/lib/scraper.ts:212 | a count renders as one or more decimal digits without a leading zero |
| Text.NatToStringRoundTrip | src/app/lib/scraper.ts:212 | reading the rendered digits back gives the count |
| Text.IntToString | src/app/api/crawl-progress/route.ts:54-56 | a number renders non-empty, with a leading `-` exactly when negative |
| ProgressBar.SafeProgress | src/app/components/ProgressBar.tsx:22 | the clamp lies in 0..100, is the identity on 0..100, and gives 0 below and 100 above |
| ProgressBar.Render | src/app/components/ProgressBar.tsx:19-90 | nothing when hidden; otherwise status, counts, clamped percentage, and the bar and labels of the phase `isSummarizing` picks |
| ProgressBar.SafeProgressIdempotentAndMonotone | src/app/components/ProgressBar.tsx:22 | clamping twice changes nothing, and a larger value never shows less |
| ProgressBar.OverfullCrawlShowsFullBar | src/app/components/ProgressBar.tsx:22 | the page's uncapped percentage for an overfull crawl shows as a full bar |
| ProgressBar.PhaseIgnoresCase | src/app/components/ProgressBar.tsx:25 | lower-casing is idempotent, so the phase test ignores case |
| ProgressBar.CompletedStatusesSummarize | src/app/components/ProgressBar.tsx:25 | both statuses the page shows after completion put the bar in the summarizing phase |
| ProgressBar.CrawlingStatusCrawls | src/app/components/ProgressBar.tsx:25 | the fixed `Crawling website...` status keeps the bar in the crawling phase; only the partial-data branch of src/app/page.tsx:198, which the page as written never reaches, sets it |
| ProgressBar.ProgressStatusesCrawl | src/app/components/ProgressBar.tsx:25 | for every status reply other than `completed`, `Crawling website: ` followed by the crawl-progress route's message (src/app/page.tsx:122) keeps the bar in the crawling phase: once lower-cased it mentions neither `summary` nor `preparing` |
| ProgressBar.BarWhileProgress | src/app/page.tsx:113-126 | after a progress poll whose message comes from a crawl that has not completed, the bar shows `Crawling website: <message>`, is filled to the clamped share and counts the pages crawled |
| ProgressBar.BarAfterCompletedContent | src/app/components/ProgressBar.tsx:67-90 | after a `completed` content poll the bar is visible, indeterminate and says `Preparing AI summary...` |
| ProgressBar.BarWhileCrawling | src/app/components/ProgressBar.tsx:67-90 | while content polls report pages, the bar is filled to the clamped share and counts the pages crawled; this is the partial-data branch of src/app/page.tsx:198, which the page as written never reaches |

## Left out

- Network, HTTP and platform plumbing is not modelled: axios and `fetch`, `NextRequest`/`NextResponse`, and `process.env`. Every reply is an input and every environment variable a boolean.
- Timing is not modelled: the 3-second poll sleeps, the 2- and 5-second intervals and the 1-second notice delay. Scheduling is abstracted to "an interval runs"; a tick is a method call.
- React state semantics are not modelled: stale closures (page.tsx:128 and :138 read values captured at interval creation) and the batching of `setState`. The handlers are methods over explicit fields, with the guards as written.
- Home.ContentTick: the `url` and `id` its closure captured are parameters, so the stale `isCrawlComplete` the real callback reads is not modelled.
- The language model call and the prose of the prompt templates are not modelled; a `Prompt` records only the interpolated values. `temperature`, `maxTokens` and the provider's configuration are left out.
- `renderMessageContent` and all markup, styles and animation are not modelled.
- `isRootLevelUrl` depends on the platform URL parser; its verdict is an input of ChatInterface.EffectGreeting.
- `handleReSummarize` in page.tsx, the document-title effect and the unmount clean-up are not modelled. The language switcher, model selector and other presentational components are not modelled either.
- Ids and timestamps from `Date.now()` are fresh values passed in.
- Home.Percentage: computed with integer division; JavaScript computes `(completed / total) * 100` in floating point, which can differ by one (for example 29 of 100).
- Llm.MaxContextLengthPerPage: a zero page total gives `Infinity` in JavaScript. It is modelled as an unlimited budget rather than a float.
- Strings are sequences of Unicode scalar values. JavaScript counts UTF-16 code units, which differ only outside the Basic Multilingual Plane. `toLowerCase` is modelled for ASCII letters only, which decides the `summary`/`preparing` test exactly.
- A snapshot whose `data` field is missing is modelled as one with no pages. The scraper then fails in its final mapping; the model treats it as an empty page list.
- ScrapeRoute.Post: the route reads `url`, `title`, `content` and `sources` from a value that has none of them. Only the `sources || []` default is modelled (always `[]`), and the three undefined fields are omitted from the reply.
- The page reads `pages`/`totalPages` from the scrape reply, which the route never sends. The page's branch at page.tsx:198 needs `pages` from the partial-content route, which never sends it either. Both are modelled as written: the fields are optional inputs.
- ChatInterface.ChatSession.FinishRegenerate: the class carries the corrected write. The holes the component leaves as written, and the TypeError the next scan then throws, are modelled on values by ChatInterface.StaleWrite and not in the class state. The reset that leads there needs `isPartialData` to change while the chat is mounted, which the page as written never does (the `partialData` line above), so the hole is latent.
- Home.HandleSendMessage: the answer is the route's `response` field as received. A body without the field (undefined) is not distinguished from an empty string.

## Findings

| source | as written | input that shows it | evidently intended | confidence | as-written member | corrected member |
|---|---|---|---|---|---|---|
| src/app/page.tsx:242-266 | the interval handles are cleared only after `fetch('/api/scrape')` resolves; when the fetch itself rejects, control jumps to `catch` and the progress interval started at line 242 keeps polling after the submission ended | a submission whose request fails at the network level (`FetchRejected`) | both intervals stopped whatever the outcome (the comment at line 322 says the progress display is done "success or fail") | not executed | Home.RejectedFetchLeavesProgressPolling | Home.CorrectedSubmitStopsPolling |
| src/app/page.tsx:59 | the page's initial model `typhoon-v2.1-12b-instruct` is not a key of `MODEL_PARAMETERS` (src/app/lib/const.ts:11-33), so the first summary with pages throws when it reads `maxContentLength` | submitting any site before choosing a model | an initial model that the table lists, such as `typhoon-v2-70b-instruct` | not executed | Home.InitialModelHasNoParameters | Home.ListedModelSummarizes |
| src/app/components/ChatInterface.tsx:261-287 | the updater writes the reply at the assistant index captured before the await; if the effect at ChatInterface.tsx:160-172 resets the transcript to the greeting during that await, the index lies past the end and the write leaves a hole | latent in the page as written: a regenerate over greeting, question, answer (index 2) whose await spans a change of `isPartialData`; that change needs `partialData` set, which src/app/page.tsx:198 does only for a content reply carrying `pages`, and the partial-content route never sends that field | a reply whose target is gone is dropped | not executed | ChatInterface.ResetDuringRegenerateLeavesHole | ChatInterface.ChatSession.FinishRegenerate |
