/** The transcript logic of src/app/components/ChatInterface.tsx: the greeting,
    sending a message, locating the last user and assistant messages and
    regenerating the assistant reply in place, and the "last assistant message"
    test that dims the message being regenerated. The reply of `onSendMessage` is an
    input: its text, or the failure it throws. Ids and timestamps are fresh
    values passed in. */
module ChatInterface {
  import opened Wrappers
  import opened Text

  datatype Role = User | Assistant

  datatype Message = Message(id: string, role: Role, content: string, timestamp: int)

  const SendErrorText := "Sorry, I encountered an error processing your request. Please try again."
  const RegenerateErrorText := "Sorry, I encountered an error regenerating the response. Please try again."

  const PartialIntro := "Hi there! I'm analyzing content from "
  const FullIntro := "Hi there! I've analyzed the content from "
  const PartialRest := " in real-time. You can ask questions, but my answers will be based on partial data until the crawl completes."
  const FullRest := ". What would you like to know about it?"
  const SiteScope := "(up to 10 pages)"
  const PageScope := "(specific page only)"

  /** The transcript's first message, built when the component mounts. */
  function Greeting(url: string, isPartialData: bool, now: int): (m: Message)
    ensures m.id == "1" && m.role == Assistant
    ensures Contains(m.content, url)
  {
    var intro := if isPartialData then PartialIntro else FullIntro;
    var rest := if isPartialData then PartialRest else FullRest;
    Message("1", Assistant, AroundUrl(intro, url, rest), now)
  }

  /** The greeting text: the URL between an opening and a closing part. */
  function AroundUrl(intro: string, url: string, rest: string): (r: string)
    ensures Contains(r, url)
    ensures r == intro + url + rest
  {
    ContainsMiddle(intro, url, rest);
    intro + url + rest
  }

  /** The greeting the effect installs whenever `isPartialData` or `url` changes;
      it also says whether the whole site or one page was analysed.
      `isRootLevelUrl` is the platform URL parser's verdict, an input here. */
  function EffectGreeting(url: string, isPartialData: bool, isRootLevelUrl: bool, now: int): (m: Message)
    ensures m.id == "1" && m.role == Assistant
    ensures Contains(m.content, url)
    ensures isPartialData ==> m == Greeting(url, isPartialData, now)
  {
    if isPartialData then Greeting(url, isPartialData, now)
    else
      var rest := " " + (if isRootLevelUrl then SiteScope else PageScope) + FullRest;
      Message("1", Assistant, AroundUrl(FullIntro, url, rest), now)
  }

  // ---------------------------------------------------------------------------
  // Locating messages
  // ---------------------------------------------------------------------------

  /** The index of the last message with `role`, or -1 when there is none. */
  function LastIndexOf(ms: seq<Message>, role: Role): (i: int)
    ensures -1 <= i < |ms|
    ensures i >= 0 ==> ms[i].role == role
    ensures forall k :: i < k < |ms| ==> ms[k].role != role
  {
    if ms == [] then -1
    else if ms[|ms| - 1].role == role then |ms| - 1
    else LastIndexOf(ms[..|ms| - 1], role)
  }

  /** Loop invariant of the backward scan: `found` is still -1 and no message
      after `i` has `role`, or `found` is already the last index with `role`. */
  ghost predicate FoundLast(ms: seq<Message>, role: Role, i: int, found: int) {
    if found == -1 then forall k :: 0 <= k < |ms| && i < k ==> ms[k].role != role
    else found == LastIndexOf(ms, role)
  }

  /** The backward scan of `handleRegenerate`: it stops once both indices are
      known, and yields the last user and the last assistant index of the whole
      transcript (the assistant message need not follow the user message). */
  method ScanLastIndices(messages: seq<Message>) returns (lastUserMessageIndex: int, lastAssistantMessageIndex: int)
    ensures lastUserMessageIndex == LastIndexOf(messages, User)
    ensures lastAssistantMessageIndex == LastIndexOf(messages, Assistant)
  {
    lastUserMessageIndex := -1;
    lastAssistantMessageIndex := -1;
    var i := |messages| - 1;
    while i >= 0
      invariant -1 <= i < |messages|
      invariant FoundLast(messages, User, i, lastUserMessageIndex)
      invariant FoundLast(messages, Assistant, i, lastAssistantMessageIndex)
    {
      if lastAssistantMessageIndex != -1 && lastUserMessageIndex != -1 {
        break;
      }
      if messages[i].role == User && lastUserMessageIndex == -1 {
        lastUserMessageIndex := i;
      } else if messages[i].role == Assistant && lastAssistantMessageIndex == -1 {
        lastAssistantMessageIndex := i;
      }
      i := i - 1;
    }
  }

  /** No message from index `from` on is an assistant message (the loop of
      `isLastAssistantMessage`, returning false at the first one it meets). */
  predicate NoAssistantFrom(ms: seq<Message>, from: nat)
    decreases |ms| - from
  {
    from >= |ms| || (ms[from].role != Assistant && NoAssistantFrom(ms, from + 1))
  }

  /** `isLastAssistantMessage(message, index)` over the current transcript. */
  predicate IsLastAssistantMessage(messages: seq<Message>, message: Message, index: nat) {
    message.role == Assistant && NoAssistantFrom(messages, index + 1)
  }

  lemma {:induction false} NoAssistantFromIff(ms: seq<Message>, from: nat)
    ensures NoAssistantFrom(ms, from) <==> forall k :: from <= k < |ms| ==> ms[k].role != Assistant
    decreases |ms| - from
  {
    if from < |ms| {
      NoAssistantFromIff(ms, from + 1);
    }
  }

  /** The message is an assistant message and no later one is. */
  lemma IsLastAssistantMessageIff(messages: seq<Message>, message: Message, index: nat)
    ensures IsLastAssistantMessage(messages, message, index)
      <==> message.role == Assistant && forall k :: index < k < |messages| ==> messages[k].role != Assistant
  {
    NoAssistantFromIff(messages, index + 1);
  }

  /** The message dimmed while a regenerate runs is exactly the one that
      regenerate overwrites. */
  lemma RegenerateTargetIsFlagged(messages: seq<Message>, index: nat)
    requires index < |messages|
    ensures IsLastAssistantMessage(messages, messages[index], index) <==> index == LastIndexOf(messages, Assistant)
  {
    IsLastAssistantMessageIff(messages, messages[index], index);
  }

  /** The transcript with the message at `index` replaced, or unchanged when
      `index` is -1. */
  function ReplaceAt(ms: seq<Message>, index: int, m: Message): (r: seq<Message>)
    ensures |r| == |ms|
    ensures forall k :: 0 <= k < |ms| ==> r[k] == (if k == index then m else ms[k])
  {
    if 0 <= index < |ms| then ms[index := m] else ms
  }

  /** A send is refused while the input is blank or a send is running. */
  predicate SendBlocked(newMessage: string, isLoading: bool) {
    Trim(newMessage) == [] || isLoading
  }

  function SendReplyText(reply: Result<string>): string {
    match reply
    case Success(text) => text
    case Failure(_) => SendErrorText
  }

  function RegenerateReplyText(reply: Result<string>): string {
    match reply
    case Success(text) => text
    case Failure(_) => RegenerateErrorText
  }

  /** `newMessages[index] = m` on a copy of a JavaScript array: an index past
      the end lengthens the array, leaving holes (`None`) between. */
  function StaleWrite(ms: seq<Message>, index: nat, m: Message): (r: seq<Option<Message>>)
    ensures |r| == if index < |ms| then |ms| else index + 1
    ensures r[index] == Some(m)
    ensures forall k :: 0 <= k < |ms| && k != index ==> r[k] == Some(ms[k])
    ensures forall k :: |ms| <= k < index ==> r[k] == None
  {
    var present := seq(|ms|, k requires 0 <= k < |ms| => Some(ms[k]));
    if index < |ms| then present[index := Some(m)]
    else present + seq(index - |ms|, k => None) + [Some(m)]
  }

  /** The write leaves a hole exactly when the index lies beyond the end. */
  lemma StaleWriteHoleIff(ms: seq<Message>, index: nat, m: Message)
    ensures (exists k :: 0 <= k < |StaleWrite(ms, index, m)| && StaleWrite(ms, index, m)[k].None?) <==> index > |ms|
  {
    var r := StaleWrite(ms, index, m);
    if index > |ms| {
      assert r[|ms|].None?;
    }
  }

  /** Inside the transcript the write agrees with `ReplaceAt`. */
  lemma StaleWriteInRange(ms: seq<Message>, index: nat, m: Message)
    requires index < |ms|
    ensures var r := StaleWrite(ms, index, m);
      |r| == |ms| && forall k :: 0 <= k < |ms| ==> r[k] == Some(ReplaceAt(ms, index, m)[k])
  {
  }

  /** A regenerate captured over `greeting, question, answer` targets index 2.
      If the transcript is reset to a greeting during the await, the write
      leaves a hole at index 1 below the new message, so the next backward scan
      reads the role of a missing message before it finds a user message.
      The reset runs only when `isPartialData` or `url` changes while the chat
      is mounted; the page as written never sets partial data, so the hole is
      latent there. */
  lemma ResetDuringRegenerateLeavesHole(g: Message, hi: Message, a1: Message, g2: Message, freshId: string, m: Message)
    requires g.role == Assistant && hi.role == User && a1.role == Assistant
    ensures RegenerateFor([g, hi, a1], freshId).Some?
    ensures RegenerateFor([g, hi, a1], freshId).value.assistantIndex == 2
    ensures StaleWrite([g2], 2, m) == [Some(g2), None, Some(m)]
  {
    assert LastIndexOf([g, hi, a1], User) == 1;
    var r := StaleWrite([g2], 2, m);
    assert |r| == 3 && r[0] == Some(g2) && r[1] == None && r[2] == Some(m);
  }

  /** Corrected: a reply whose target the reset removed is dropped, and the
      transcript stays the greeting alone. */
  lemma StaleReplyDropped(g: Message, index: int, m: Message)
    requires index >= 1
    ensures ReplaceAt([g], index, m) == [g]
  {
  }

  /** What `handleRegenerate` captures before awaiting: the history it sends,
      the assistant index it will overwrite (-1 for none) and the id the new
      message takes. */
  datatype RegenerateRequest = RegenerateRequest(history: seq<Message>, assistantIndex: int, replacementId: string)

  /** The scan's verdict as a request, or None when no user message exists. */
  function RegenerateFor(messages: seq<Message>, freshId: string): (r: Option<RegenerateRequest>)
    ensures r.None? <==> forall k :: 0 <= k < |messages| ==> messages[k].role != User
    ensures r.Some? ==> var u := LastIndexOf(messages, User);
      && |r.value.history| == u + 1 && r.value.history == messages[..u + 1]
      && r.value.history[u].role == User
      && r.value.assistantIndex == LastIndexOf(messages, Assistant)
  {
    var u := LastIndexOf(messages, User);
    var a := LastIndexOf(messages, Assistant);
    if u == -1 then None
    else Some(RegenerateRequest(messages[..u + 1], a, if a != -1 then messages[a].id else freshId))
  }

  /** Example: after `hi`/`A1`/`bye`/`A2` the scan finds `bye` (3) and `A2` (4);
      when the reply to `bye` is still missing it finds `bye` (3) and `A1` (2),
      so regenerate overwrites the reply to the earlier question. */
  lemma ScanExamples(g: Message, a1: Message, a2: Message, hi: Message, bye: Message)
    requires g.role == Assistant && a1.role == Assistant && a2.role == Assistant
    requires hi.role == User && bye.role == User
    ensures LastIndexOf([g, hi, a1, bye, a2], User) == 3
    ensures LastIndexOf([g, hi, a1, bye, a2], Assistant) == 4
    ensures LastIndexOf([g, hi, a1, bye], User) == 3
    ensures LastIndexOf([g, hi, a1, bye], Assistant) == 2
  {
    assert [g, hi, a1, bye, a2][..4] == [g, hi, a1, bye];
    assert [g, hi, a1, bye][..3] == [g, hi, a1];
  }

  // ---------------------------------------------------------------------------
  // The component's state and handlers
  // ---------------------------------------------------------------------------

  /** The component's state. `lastUserMessage` is `""` where the source holds null. */
  class ChatSession {
    var url: string
    var isPartialData: bool
    var messages: seq<Message>
    var newMessage: string
    var isLoading: bool
    var lastUserMessage: string
    var isRegenerating: bool

    constructor (url: string, isPartialData: bool, now: int)
      ensures this.url == url && this.isPartialData == isPartialData
      ensures messages == [Greeting(url, isPartialData, now)]
      ensures newMessage == "" && !isLoading && lastUserMessage == "" && !isRegenerating
    {
      this.url := url;
      this.isPartialData := isPartialData;
      messages := [Greeting(url, isPartialData, now)];
      newMessage := "";
      isLoading := false;
      lastUserMessage := "";
      isRegenerating := false;
    }

    /** The effect on `[isPartialData, url]`: the transcript is reset to the
        greeting alone. */
    method ResetGreeting(url: string, isPartialData: bool, isRootLevelUrl: bool, now: int)
      modifies this
      ensures this.url == url && this.isPartialData == isPartialData
      ensures messages == [EffectGreeting(url, isPartialData, isRootLevelUrl, now)]
      ensures newMessage == old(newMessage) && isLoading == old(isLoading)
      ensures lastUserMessage == old(lastUserMessage) && isRegenerating == old(isRegenerating)
    {
      this.url := url;
      this.isPartialData := isPartialData;
      messages := [EffectGreeting(url, isPartialData, isRootLevelUrl, now)];
    }

    /** Typing into the input. */
    method SetNewMessage(text: string)
      modifies this
      ensures newMessage == text
      ensures url == old(url) && isPartialData == old(isPartialData) && messages == old(messages)
      ensures isLoading == old(isLoading) && lastUserMessage == old(lastUserMessage) && isRegenerating == old(isRegenerating)
    {
      newMessage := text;
    }

    /** `handleSendMessage` up to the await: refused while the input is blank or
        a send is running; otherwise appends the user message, remembers its
        text, clears the input, sets `isLoading` and returns the history sent. */
    method BeginSend(userId: string, now: int) returns (history: Option<seq<Message>>)
      modifies this
      ensures url == old(url) && isPartialData == old(isPartialData) && isRegenerating == old(isRegenerating)
      ensures SendBlocked(old(newMessage), old(isLoading)) ==>
        && history == None && messages == old(messages) && newMessage == old(newMessage)
        && isLoading == old(isLoading) && lastUserMessage == old(lastUserMessage)
      ensures !SendBlocked(old(newMessage), old(isLoading)) ==>
        && history == Some(old(messages) + [Message(userId, User, old(newMessage), now)])
        && messages == history.value
        && lastUserMessage == old(newMessage) && newMessage == "" && isLoading
    {
      if Trim(newMessage) == [] || isLoading {
        return None;
      }
      var updatedMessages := Record(Message(userId, User, newMessage, now));
      history := Some(updatedMessages);
    }

    /** The accepted send: the user message appended, its text remembered, the
        input cleared and `isLoading` set. */
    method Record(userMessage: Message) returns (updated: seq<Message>)
      modifies this
      ensures updated == old(messages) + [userMessage] && messages == updated
      ensures lastUserMessage == old(newMessage) && newMessage == "" && isLoading
      ensures url == old(url) && isPartialData == old(isPartialData) && isRegenerating == old(isRegenerating)
    {
      updated := messages + [userMessage];
      messages := updated;
      lastUserMessage := newMessage;
      newMessage := "";
      isLoading := true;
    }

    /** `handleSendMessage` after the await: the reply, or the fixed error text,
        is appended as an assistant message and `isLoading` is cleared. */
    method FinishSend(reply: Result<string>, aiId: string, now: int)
      modifies this
      ensures messages == old(messages) + [Message(aiId, Assistant, SendReplyText(reply), now)]
      ensures !isLoading
      ensures url == old(url) && isPartialData == old(isPartialData) && newMessage == old(newMessage)
      ensures lastUserMessage == old(lastUserMessage) && isRegenerating == old(isRegenerating)
    {
      var aiMessage := Message(aiId, Assistant, SendReplyText(reply), now);
      messages := messages + [aiMessage];
      isLoading := false;
    }

    /** A whole send with nothing in between: the transcript grows by exactly
        the user message and then one assistant message. */
    method HandleSendMessage(reply: Result<string>, userId: string, aiId: string, now: int)
      modifies this
      ensures SendBlocked(old(newMessage), old(isLoading)) ==> messages == old(messages) && isLoading == old(isLoading)
      ensures !SendBlocked(old(newMessage), old(isLoading)) ==>
        && messages == old(messages) + [Message(userId, User, old(newMessage), now), Message(aiId, Assistant, SendReplyText(reply), now)]
        && |messages| == |old(messages)| + 2
        && !isLoading && newMessage == "" && lastUserMessage == old(newMessage)
    {
      var history := BeginSend(userId, now);
      if history.Some? {
        FinishSend(reply, aiId, now);
      }
    }

    /** `handleRegenerate` up to the await: refused when no user message was
        sent, a send or regenerate is running, or the transcript holds no user
        message; otherwise sets `isRegenerating` and captures the request. */
    method BeginRegenerate(freshId: string) returns (request: Option<RegenerateRequest>)
      modifies this
      ensures url == old(url) && isPartialData == old(isPartialData) && messages == old(messages)
      ensures newMessage == old(newMessage) && isLoading == old(isLoading) && lastUserMessage == old(lastUserMessage)
      ensures old(lastUserMessage) == "" || old(isLoading) || old(isRegenerating) ==>
        request == None && isRegenerating == old(isRegenerating)
      ensures !(old(lastUserMessage) == "" || old(isLoading) || old(isRegenerating)) ==>
        request == RegenerateFor(old(messages), freshId) && isRegenerating == request.Some?
    {
      if lastUserMessage == "" || isLoading || isRegenerating {
        return None;
      }
      var lastUserMessageIndex, lastAssistantMessageIndex := ScanLastIndices(messages);
      if lastUserMessageIndex == -1 {
        return None;
      }
      isRegenerating := true;
      var id := if lastAssistantMessageIndex != -1 then messages[lastAssistantMessageIndex].id else freshId;
      request := Some(RegenerateRequest(messages[..lastUserMessageIndex + 1], lastAssistantMessageIndex, id));
    }

    /** `handleRegenerate` after the await: the captured assistant index, if
        any, is overwritten by a message with the kept id holding the reply or
        the fixed error text; nothing else changes. The transcript may have been
        reset to the greeting during the await; an index it no longer holds is
        skipped here, where the component as written writes past the end (see
        `StaleWrite`). */
    method FinishRegenerate(request: RegenerateRequest, reply: Result<string>, now: int)
      requires -1 <= request.assistantIndex
      modifies this
      ensures messages == ReplaceAt(old(messages), request.assistantIndex,
                                    Message(request.replacementId, Assistant, RegenerateReplyText(reply), now))
      ensures |messages| == |old(messages)|
      ensures !isRegenerating
      ensures url == old(url) && isPartialData == old(isPartialData) && newMessage == old(newMessage)
      ensures isLoading == old(isLoading) && lastUserMessage == old(lastUserMessage)
    {
      var aiMessage := Message(request.replacementId, Assistant, RegenerateReplyText(reply), now);
      var newMessages := messages;
      if request.assistantIndex != -1 && request.assistantIndex < |newMessages| {
        newMessages := newMessages[request.assistantIndex := aiMessage];
      }
      messages := newMessages;
      isRegenerating := false;
    }

    /** A whole regenerate with nothing in between: only the last assistant
        message changes, keeping its id; the transcript keeps its length. */
    method HandleRegenerate(reply: Result<string>, freshId: string, now: int)
      modifies this
      ensures |messages| == |old(messages)|
      ensures !old(isRegenerating) ==> !isRegenerating
      ensures forall k :: 0 <= k < |messages| && k != LastIndexOf(old(messages), Assistant) ==> messages[k] == old(messages)[k]
      ensures var a := LastIndexOf(old(messages), Assistant);
        a != -1 && old(lastUserMessage) != "" && !old(isLoading) && !old(isRegenerating) && LastIndexOf(old(messages), User) != -1
        ==> messages[a] == Message(old(messages)[a].id, Assistant, RegenerateReplyText(reply), now)
      ensures old(lastUserMessage) == "" || old(isLoading) || old(isRegenerating) || LastIndexOf(old(messages), User) == -1
        ==> messages == old(messages)
    {
      var request := BeginRegenerate(freshId);
      if request.Some? {
        FinishRegenerate(request.value, reply, now);
      }
    }
  }
}
