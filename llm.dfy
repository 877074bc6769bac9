/** Request preparation of src/app/lib/llm.ts: the language instruction, the
    extraction of the answer after a `</think>` block, the per-page content
    budget and truncation, the trimming of the chat history (in place, on the
    caller's array) and the shape of the upstream message list. The language
    model's reply is an input: its text, or the failure it throws. The prose of
    the prompt templates is not modelled; a `Prompt` records the values the
    templates interpolate. */
module Llm {
  import opened Wrappers
  import opened Text
  import opened Scraper
  import opened ChatInterface

  // ---------------------------------------------------------------------------
  // Language instructions
  // ---------------------------------------------------------------------------

  /** The `languageCodeToName` table. */
  function LanguageCodeToName(code: string): (name: Option<string>)
    ensures name.Some? <==> code in {"en", "th", "zh", "ja", "ko"}
  {
    if code == "en" then Some("English")
    else if code == "th" then Some("Thai")
    else if code == "zh" then Some("Chinese")
    else if code == "ja" then Some("Japanese")
    else if code == "ko" then Some("Korean")
    else None
  }

  /** Strings of at most two characters go through the table, unknown ones and
      longer strings are used verbatim. */
  function LanguageName(language: string): string {
    if |language| <= 2 then LanguageCodeToName(language).GetOr(language) else language
  }

  const ChineseInstruction := " 在中文和英文之间添加适当的空格来提升可读性"
  const JapaneseInstruction := " 日本語で回答する際は、専門用語には適宜英語を併記してください。"
  const KoreanInstruction := " 한국어로 응답할 때는 전문 용어에 영어를 함께 표기해 주세요."
  const ThaiInstruction := " เมื่อตอบเป็นภาษาไทย กรุณาใช้คำศัพท์ที่เข้าใจง่ายและเพิ่มคำศัพท์ภาษาอังกฤษสำหรับคำศัพท์เฉพาะทาง"

  /** The languages that get an extra sentence: code, English name, native name. */
  predicate HasExtraInstruction(language: string) {
    language in {"zh", "Chinese", "中文", "ja", "Japanese", "日本語", "ko", "Korean", "한국어", "th", "Thai", "ไทย"}
  }

  /** The `switch` on the raw `language` argument. */
  function ExtraInstruction(language: string): string {
    if language == "zh" || language == "Chinese" || language == "中文" then ChineseInstruction
    else if language == "ja" || language == "Japanese" || language == "日本語" then JapaneseInstruction
    else if language == "ko" || language == "Korean" || language == "한국어" then KoreanInstruction
    else if language == "th" || language == "Thai" || language == "ไทย" then ThaiInstruction
    else ""
  }

  /** `getLanguageInstructions`: always `Respond in <name>.`, followed by an extra
      sentence exactly for the twelve listed spellings of four languages. */
  function GetLanguageInstructions(language: string): (r: string)
    ensures StartsWith(r, "Respond in " + LanguageName(language) + ".")
    ensures |r| > |"Respond in " + LanguageName(language) + "."| <==> HasExtraInstruction(language)
  {
    var prefix := "Respond in " + LanguageName(language) + ".";
    StartsWithSelf(prefix, ExtraInstruction(language));
    ExtraInstructionPresent(language);
    prefix + ExtraInstruction(language)
  }

  lemma ExtraInstructionPresent(language: string)
    ensures |ExtraInstruction(language)| > 0 <==> HasExtraInstruction(language)
  {
  }

  /** Table codes resolve to English names; the Thai code gets the Thai sentence. */
  lemma EnglishInstruction()
    ensures GetLanguageInstructions("en") == "Respond in English."
  {
  }

  lemma ThaiInstructionAdded()
    ensures GetLanguageInstructions("th") == "Respond in Thai." + ThaiInstruction
  {
    ThaiPieces("th");
    RespondInThai("Respond in " + "Thai" + ".");
  }

  lemma ThaiPieces(code: string)
    requires code == "th"
    ensures LanguageName(code) == "Thai" && ExtraInstruction(code) == ThaiInstruction
  {
  }

  lemma RespondInThai(p: string)
    requires p == "Respond in " + "Thai" + "."
    ensures p == "Respond in Thai."
  {
  }

  /** A language that is neither a table code nor one of the twelve listed
      spellings is named verbatim, with no extra sentence. */
  lemma UnknownLanguageVerbatim(language: string)
    requires LanguageCodeToName(language).None? && !HasExtraInstruction(language)
    ensures GetLanguageInstructions(language) == "Respond in " + language + "."
  {
    var prefix := "Respond in " + language + ".";
    assert ExtraInstruction(language) == "";
    assert prefix + "" == prefix;
  }

  // ---------------------------------------------------------------------------
  // extractResultFromThinking
  // ---------------------------------------------------------------------------

  const ThinkClose := "</think>"

  /** `text.split("</think>")[1]`: the text between the first `</think>` and the
      next one, or the end of the text. */
  function SecondPiece(text: string): (r: string)
    requires Contains(text, ThinkClose)
    ensures IndexOf(text, ThinkClose, 0).Some?
    ensures IndexOf(text, ThinkClose, 0).Some? &&
      var i := IndexOf(text, ThinkClose, 0).value;
      var start := i + |ThinkClose|;
      && start + |r| <= |text|
      && r == text[start..start + |r|]
      && (forall k :: start <= k < start + |r| ==> !OccursAt(text, ThinkClose, k))
      && (start + |r| == |text| || OccursAt(text, ThinkClose, start + |r|))
  {
    ContainsIff(text, ThinkClose);
    var i := IndexOf(text, ThinkClose, 0).value;
    var start := i + |ThinkClose|;
    match IndexOf(text, ThinkClose, start)
    case Some(j) => text[start..j]
    case None => text[start..]
  }

  /** `extractResultFromThinking`: the trimmed text after the first `</think>`
      (up to a second one), or the whole text trimmed when there is none. */
  function ExtractResultFromThinking(text: string): (r: string)
    ensures !Contains(text, ThinkClose) ==> r == Trim(text)
    ensures Contains(text, ThinkClose) ==> r == Trim(SecondPiece(text))
  {
    if Contains(text, ThinkClose) then Trim(SecondPiece(text)) else Trim(text)
  }

  /** A reply made of a reasoning part, the first `</think>`, and an answer
      without another `</think>` yields the trimmed answer. */
  lemma ExtractAfterReasoning(reasoning: string, answer: string)
    requires forall k :: 0 <= k < |reasoning| ==> !OccursAt(reasoning + ThinkClose + answer, ThinkClose, k)
    requires !Contains(answer, ThinkClose)
    ensures ExtractResultFromThinking(reasoning + ThinkClose + answer) == Trim(answer)
  {
    var text := reasoning + ThinkClose + answer;
    IndexAfterPrefix(reasoning, ThinkClose, answer);
    NoneAfterPrefix(reasoning, ThinkClose, answer);
    assert OccursAt(text, ThinkClose, |reasoning|);
    SecondPieceRunsToEnd(text, |reasoning|);
    assert text[|reasoning| + |ThinkClose|..] == answer;
  }

  /** With no `</think>` after the first, the second piece is the rest. */
  lemma SecondPieceRunsToEnd(text: string, i: nat)
    requires IndexOf(text, ThinkClose, 0) == Some(i) && Contains(text, ThinkClose)
    requires forall k :: i + |ThinkClose| <= k ==> !OccursAt(text, ThinkClose, k)
    ensures SecondPiece(text) == text[i + |ThinkClose|..]
  {
  }

  // ---------------------------------------------------------------------------
  // Per-page budget and truncation
  // ---------------------------------------------------------------------------

  /** `MODEL_PARAMETERS[model].maxContentLength` (src/app/lib/const.ts): 24000
      for each of the three models; any other name is not a key. */
  function MaxContentLength(model: string): (r: Option<nat>)
    ensures r.Some? <==> model in {"typhoon-v2-70b-instruct", "typhoon-v2-r1-70b-preview", "typhoon-v2-8b-instruct"}
    ensures r.Some? ==> r.value == 24000
  {
    if model == "typhoon-v2-70b-instruct" || model == "typhoon-v2-r1-70b-preview" || model == "typhoon-v2-8b-instruct"
    then Some(12000 * 2)
    else None
  }

  /** What V8 throws when a property of a missing `MODEL_PARAMETERS` entry is read. */
  function MissingModelMessage(property: string): string {
    "Cannot read properties of undefined (reading '" + property + "')"
  }

  /** `Math.floor(a / b)` for a non-zero integer divisor of either sign. */
  function FloorDiv(a: int, b: int): (q: int)
    requires b != 0
    ensures b > 0 ==> q * b <= a < q * b + b
    ensures b < 0 ==> q * b + b < a <= q * b
  {
    if b > 0 || a % b == 0 then a / b else a / b - 1
  }

  /** A page budget in characters; dividing by zero pages gives `Infinity`. */
  datatype Budget = Chars(n: int) | Unlimited

  /** `maxContextLengthPerPage`: the model's content length shared out among
      `totalPages` pages, rounded down. */
  function MaxContextLengthPerPage(totalPages: int, maxContentLength: nat): (b: Budget)
    ensures b.Unlimited? <==> totalPages == 0
    ensures totalPages > 0 ==> b.n * totalPages <= maxContentLength < b.n * totalPages + totalPages
    ensures totalPages < 0 ==> b.n * totalPages + totalPages < maxContentLength <= b.n * totalPages
  {
    if totalPages == 0 then Unlimited else Chars(FloorDiv(maxContentLength, totalPages))
  }

  /** `content.substring(0, budget)`: `substring` clamps its end to [0, length]. */
  function Excerpt(content: string, budget: Budget): (r: string)
    ensures StartsWith(content, r)
    ensures budget.Unlimited? ==> r == content
    ensures budget.Chars? ==> |r| == if budget.n < 0 then 0 else if budget.n < |content| then budget.n else |content|
  {
    match budget
    case Unlimited => content
    case Chars(n) => if n < 0 then [] else if n < |content| then content[..n] else content
  }

  /** `content.length > budget`, which decides the truncation marker. */
  predicate IsTruncated(content: string, budget: Budget) {
    budget.Chars? && |content| > budget.n
  }

  /** For a budget that is not negative, the marker appears exactly when the
      excerpt lost something. */
  lemma MarkerIffContentCut(content: string, budget: Budget)
    requires budget.Unlimited? || budget.n >= 0
    ensures IsTruncated(content, budget) <==> Excerpt(content, budget) != content
  {
  }

  const EnglishMarker := "... (content truncated)"
  const ThaiMarker := "... (เนื้อหาถูกตัดทอน)"

  /** The content part of one page's block: the excerpt, a space, and the
      marker when the content is longer than the budget. */
  function PageBody(content: string, budget: Budget, marker: string): (r: string)
    ensures StartsWith(r, Excerpt(content, budget) + " ")
    ensures |r| == |Excerpt(content, budget)| + 1 + (if IsTruncated(content, budget) then |marker| else 0)
  {
    var head := Excerpt(content, budget) + " ";
    var tail := if IsTruncated(content, budget) then marker else "";
    assert (head + tail)[..|head|] == head;
    head + tail
  }

  /** The values one page contributes to a prompt, numbered from 1. */
  datatype PromptPage = PromptPage(number: nat, url: string, title: string, description: string, body: string)

  function PromptPages(pages: seq<PageData>, budget: Budget, marker: string): (r: seq<PromptPage>)
    ensures |r| == |pages|
    ensures forall k :: 0 <= k < |pages| ==>
      r[k] == PromptPage(k + 1, pages[k].url, pages[k].title, pages[k].description, PageBody(pages[k].content, budget, marker))
  {
    seq(|pages|, k requires 0 <= k < |pages| =>
      PromptPage(k + 1, pages[k].url, pages[k].title, pages[k].description, PageBody(pages[k].content, budget, marker)))
  }

  /** With three pages and any of the three models, each page keeps at most 8000
      characters; 10000 characters come out as 8000 plus the marker. */
  lemma BudgetExample(content: string)
    requires |content| == 10000
    ensures MaxContextLengthPerPage(3, MaxContentLength("typhoon-v2-8b-instruct").value) == Chars(8000)
    ensures Excerpt(content, Chars(8000)) == content[..8000]
    ensures IsTruncated(content, Chars(8000))
  {
    assert FloorDiv(24000, 3) == 8000;
  }

  // ---------------------------------------------------------------------------
  // Prompts and the upstream message list
  // ---------------------------------------------------------------------------

  /** The values a prompt template interpolates: which template (Thai or not),
      the language instruction (summaries only), the site's URL, title and page
      total, and the numbered page blocks (their count is `|pages|`). */
  datatype Prompt = Prompt(thai: bool, instructions: string, mainUrl: string, mainTitle: string, totalPages: int, pages: seq<PromptPage>)

  datatype UpstreamMessage = System(prompt: Prompt) | Turn(role: Role, content: string)

  /** Builds the page blocks; reading `maxContentLength` of an unknown model
      throws, but only when there is a page to build. */
  function PromptFor(data: ScrapedData, thai: bool, instructions: string, model: string, marker: string): (r: Result<Prompt>)
    ensures r.Failure? <==> |data.pages| > 0 && MaxContentLength(model).None?
    ensures r.Failure? ==> r.error == MissingModelMessage("maxContentLength")
    ensures r.Success? ==> (|r.value.pages| == |data.pages| && r.value.mainUrl == data.mainUrl
                            && r.value.mainTitle == data.mainTitle && r.value.totalPages == data.totalPages)
  {
    if |data.pages| > 0 && MaxContentLength(model).None? then Failure(MissingModelMessage("maxContentLength"))
    else
      var budget := if MaxContentLength(model).Some? then MaxContextLengthPerPage(data.totalPages, MaxContentLength(model).value) else Unlimited;
      Success(Prompt(thai, instructions, data.mainUrl, data.mainTitle, data.totalPages, PromptPages(data.pages, budget, marker)))
  }

  /** The common tail of both calls: `maxTokens` of an unknown model throws;
      otherwise the model's reply, trimmed and with any reasoning block
      removed, or its error, each failure carrying `prefix`. */
  function Generate(prefix: string, prompt: Result<Prompt>, model: string, reply: Result<string>): (r: Result<string>)
    ensures prompt.Failure? ==> r == Failure(prefix + prompt.error)
    ensures prompt.Success? && MaxContentLength(model).None? ==> r == Failure(prefix + MissingModelMessage("maxTokens"))
    ensures prompt.Success? && MaxContentLength(model).Some? && reply.Failure? ==> r == Failure(prefix + reply.error)
    ensures prompt.Success? && MaxContentLength(model).Some? && reply.Success? ==> r == Success(ExtractResultFromThinking(Trim(reply.value)))
  {
    if prompt.Failure? then Failure(prefix + prompt.error)
    else if MaxContentLength(model).None? then Failure(prefix + MissingModelMessage("maxTokens"))
    else match reply
      case Failure(e) => Failure(prefix + e)
      case Success(text) => Success(ExtractResultFromThinking(Trim(text)))
  }

  /** Every failure of `Generate` carries the caller's prefix. */
  lemma GenerateFailureKeepsPrefix(prefix: string, prompt: Result<Prompt>, model: string, reply: Result<string>)
    requires Generate(prefix, prompt, model, reply).Failure?
    ensures StartsWith(Generate(prefix, prompt, model, reply).error, prefix)
  {
    if prompt.Failure? {
      StartsWithSelf(prefix, prompt.error);
    } else if MaxContentLength(model).None? {
      StartsWithSelf(prefix, MissingModelMessage("maxTokens"));
    } else {
      StartsWithSelf(prefix, reply.error);
    }
  }

  const SummarizePrefix := "Failed to summarize website: "
  const ChatPrefix := "Failed to chat with website: "

  /** `summarizeWebsite`: one prompt with the language instruction, English
      template and marker. */
  function SummaryPrompt(data: ScrapedData, language: string, model: string): Result<Prompt> {
    PromptFor(data, false, GetLanguageInstructions(language), model, EnglishMarker)
  }

  function SummarizeWebsite(data: ScrapedData, language: string, model: string, reply: Result<string>): (r: Result<string>)
    ensures r.Failure? ==> StartsWith(r.error, SummarizePrefix)
    ensures r.Success? ==> reply.Success? && MaxContentLength(model).Some?
  {
    var r := Generate(SummarizePrefix, SummaryPrompt(data, language, model), model, reply);
    assert r.Failure? ==> (SummarizePrefix + r.error[|SummarizePrefix|..])[..|SummarizePrefix|] == SummarizePrefix;
    r
  }

  /** `chatWithWebsite`'s system prompt: the Thai template and marker for `th`,
      the English ones otherwise; no language instruction. */
  function ChatPrompt(data: ScrapedData, language: string, model: string): Result<Prompt> {
    PromptFor(data, language == "th", "", model, if language == "th" then ThaiMarker else EnglishMarker)
  }

  /** The caller's message array, which `chatWithWebsite` trims in place. */
  class MessageArray {
    var items: seq<Message>

    constructor (items: seq<Message>)
      ensures this.items == items
    {
      this.items := items;
    }
  }

  /** History trimming: at most one leading assistant message is removed, then
      at most one trailing user message; the rest keep their order. */
  function TrimmedHistory(ms: seq<Message>): (r: seq<Message>)
    ensures var s := if |ms| > 0 && ms[0].role == Assistant then 1 else 0;
      && s + |r| <= |ms| && r == ms[s..s + |r|]
      && (|r| == |ms| - s - 1 <==> |ms| > s && ms[|ms| - 1].role == User)
      && (|r| == |ms| - s <==> !(|ms| > s && ms[|ms| - 1].role == User))
  {
    var afterShift := if |ms| > 0 && ms[0].role == Assistant then ms[1..] else ms;
    if |afterShift| > 0 && afterShift[|afterShift| - 1].role == User then afterShift[..|afterShift| - 1] else afterShift
  }

  /** A transcript as the chat component sends it (greeting first, the new
      question last) loses exactly its greeting and its last question. */
  lemma TrimmedTranscript(greeting: Message, body: seq<Message>, question: Message)
    requires greeting.role == Assistant && question.role == User
    ensures TrimmedHistory([greeting] + body + [question]) == body
  {
    var ms := [greeting] + body + [question];
    assert ms[1..] == body + [question];
    assert (body + [question])[..|body|] == body;
  }

  /** The messages of the history as upstream turns. */
  function Turns(ms: seq<Message>): (r: seq<UpstreamMessage>)
    ensures |r| == |ms| && forall k :: 0 <= k < |ms| ==> r[k] == Turn(ms[k].role, ms[k].content)
  {
    seq(|ms|, k requires 0 <= k < |ms| => Turn(ms[k].role, ms[k].content))
  }

  /** The list handed to the model: the system prompt, the trimmed history,
      and a final user turn with `lastMessage`. */
  function UpstreamMessages(prompt: Prompt, history: seq<Message>, lastMessage: string): (r: seq<UpstreamMessage>)
    ensures |r| == |history| + 2
    ensures r[0] == System(prompt) && r[|r| - 1] == Turn(User, lastMessage)
    ensures r[1..|r| - 1] == Turns(history)
  {
    [System(prompt)] + Turns(history) + [Turn(User, lastMessage)]
  }

  /** `messages.shift()` / `messages.pop()` on the caller's array. */
  method TrimHistory(messages: MessageArray)
    modifies messages
    ensures messages.items == TrimmedHistory(old(messages.items))
  {
    if |messages.items| > 0 && messages.items[0].role == Assistant {
      messages.items := messages.items[1..];
    }
    if |messages.items| > 0 && messages.items[|messages.items| - 1].role == User {
      messages.items := messages.items[..|messages.items| - 1];
    }
  }

  /** `chatWithWebsite`: builds the system prompt, trims the caller's array
      (only once the prompt is built), and returns the model's reply;
      `upstream` is the message list handed to the model, if it got that far. */
  method ChatWithWebsite(data: ScrapedData, messages: MessageArray, lastMessage: string, language: string, model: string,
                         reply: Result<string>)
    returns (r: Result<string>, upstream: Option<seq<UpstreamMessage>>)
    modifies messages
    ensures r == Generate(ChatPrefix, ChatPrompt(data, language, model), model, reply)
    ensures messages.items == if ChatPrompt(data, language, model).Success? then TrimmedHistory(old(messages.items)) else old(messages.items)
    ensures upstream.Some? <==> ChatPrompt(data, language, model).Success? && MaxContentLength(model).Some?
    ensures upstream.Some? ==> upstream.value == UpstreamMessages(ChatPrompt(data, language, model).value, TrimmedHistory(old(messages.items)), lastMessage)
  {
    var prompt := ChatPrompt(data, language, model);
    if prompt.Failure? {
      return Failure(ChatPrefix + prompt.error), None;
    }
    TrimHistory(messages);
    if MaxContentLength(model).None? {
      return Failure(ChatPrefix + MissingModelMessage("maxTokens")), None;
    }
    upstream := Some(UpstreamMessages(prompt.value, messages.items, lastMessage));
    match reply
    case Failure(e) =>
      r := Failure(ChatPrefix + e);
    case Success(text) =>
      r := Success(ExtractResultFromThinking(Trim(text)));
  }

  /** For a transcript sent by the chat component, the model sees the system
      prompt, the exchanges between greeting and question, and the question
      once, as the final turn. */
  lemma ChatUpstreamForTranscript(prompt: Prompt, greeting: Message, body: seq<Message>, question: Message)
    requires greeting.role == Assistant && question.role == User
    ensures UpstreamMessages(prompt, TrimmedHistory([greeting] + body + [question]), question.content)
      == [System(prompt)] + Turns(body) + [Turn(User, question.content)]
  {
    TrimmedTranscript(greeting, body, question);
  }
}
