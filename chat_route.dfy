/** The chat route (src/app/api/chat/route.ts): three request checks in a
    fixed order, the defaults, and the answer or the error it turns into. The
    model's reply is an input. */
module ChatRoute {
  import opened Wrappers
  import opened Text
  import opened Scraper
  import opened ChatInterface
  import opened Llm
  import opened WebsiteRequest

  /** The `messages` field: missing, not an array, or a list. */
  datatype JsonMessages = MessagesMissing | NotAnArray | Items(items: seq<Message>)

  datatype ChatRequest = ChatRequest(messages: JsonMessages, lastMessage: string, websiteData: Option<WebsiteBody>,
                                     language: Option<string>, model: Option<string>)

  datatype ChatReply = Answer(response: string) | ChatError(status: nat, error: string)

  const MessagesRequired := "Messages array is required"
  const LastMessageRequired := "Last message is required"
  const RoutePrefix := "Failed to process message: "

  predicate HasMessages(m: JsonMessages) {
    m.Items? && |m.items| > 0
  }

  /** The first failing check, in the route's order. */
  function RequestProblem(q: ChatRequest): (problem: Option<string>)
    ensures !HasMessages(q.messages) ==> problem == Some(MessagesRequired)
    ensures HasMessages(q.messages) && q.lastMessage == "" ==> problem == Some(LastMessageRequired)
    ensures HasMessages(q.messages) && q.lastMessage != "" && !HasWebsiteData(q.websiteData) ==> problem == Some(WebsiteDataRequired)
    ensures problem.None? <==> HasMessages(q.messages) && q.lastMessage != "" && HasWebsiteData(q.websiteData)
  {
    if !HasMessages(q.messages) then Some(MessagesRequired)
    else if q.lastMessage == "" then Some(LastMessageRequired)
    else if !HasWebsiteData(q.websiteData) then Some(WebsiteDataRequired)
    else None
  }

  /** `POST`: a body that cannot be parsed gives 500; a failing check gives
      400 with its message; otherwise the chat over the parsed message list,
      whose answer is returned and whose failure gives 500 with the route's
      prefix. `upstream` is what reaches the model, if anything. */
  method Post(request: Result<ChatRequest>, reply: Result<string>) returns (r: ChatReply, upstream: Option<seq<UpstreamMessage>>)
    ensures request.Failure? ==> r == ChatError(500, RoutePrefix + request.error) && upstream.None?
    ensures request.Success? && RequestProblem(request.value).Some?
      ==> r == ChatError(400, RequestProblem(request.value).value) && upstream.None?
    ensures request.Success? && RequestProblem(request.value).None? ==> (
      var q := request.value;
      var data := ToScrapedData(q.websiteData.value);
      var language := WithDefault(q.language, DefaultLanguage);
      var model := WithDefault(q.model, DefaultModel);
      var g := Generate(ChatPrefix, ChatPrompt(data, language, model), model, reply);
      && r == (if g.Success? then Answer(g.value) else ChatError(500, RoutePrefix + g.error))
      && (upstream.Some? <==> ChatPrompt(data, language, model).Success? && MaxContentLength(model).Some?)
      && (upstream.Some? ==> (upstream.value
            == UpstreamMessages(ChatPrompt(data, language, model).value, TrimmedHistory(q.messages.items), q.lastMessage))))
  {
    upstream := None;
    if request.Failure? {
      return ChatError(500, RoutePrefix + request.error), upstream;
    }
    var q := request.value;
    if !(q.messages.Items? && |q.messages.items| > 0) {
      return ChatError(400, MessagesRequired), upstream;
    }
    if q.lastMessage == "" {
      return ChatError(400, LastMessageRequired), upstream;
    }
    if !(q.websiteData.Some? && q.websiteData.value.url != "" && q.websiteData.value.pages.Some?) {
      return ChatError(400, WebsiteDataRequired), upstream;
    }
    var scrapedData := ToScrapedData(q.websiteData.value);
    var messages := new MessageArray(q.messages.items);
    var response;
    response, upstream := ChatWithWebsite(scrapedData, messages, q.lastMessage,
                                          WithDefault(q.language, DefaultLanguage), WithDefault(q.model, DefaultModel), reply);
    match response
    case Success(text) =>
      r := Answer(text);
    case Failure(e) =>
      r := ChatError(500, RoutePrefix + e);
  }

  /** The checks come in order: a request failing several reports only the
      first, and the website data is looked at only when the messages and the
      last message are present. */
  lemma ChecksInOrder(q: ChatRequest)
    requires !HasMessages(q.messages) || q.lastMessage == ""
    ensures RequestProblem(q) != Some(WebsiteDataRequired)
    ensures !HasMessages(q.messages) ==> RequestProblem(q) == Some(MessagesRequired)
  {
  }

  /** A chat failure reaches the client under both prefixes, the route's
      first. */
  lemma ChatFailureCarriesBothPrefixes(prompt: Result<Prompt>, model: string, reply: Result<string>)
    requires Generate(ChatPrefix, prompt, model, reply).Failure?
    ensures StartsWith(RoutePrefix + Generate(ChatPrefix, prompt, model, reply).error, RoutePrefix + ChatPrefix)
  {
    GenerateFailureKeepsPrefix(ChatPrefix, prompt, model, reply);
    PrefixBeforePrefix(RoutePrefix, ChatPrefix, Generate(ChatPrefix, prompt, model, reply).error);
  }
}
