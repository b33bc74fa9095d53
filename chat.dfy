/**
 * The chat widget of js/chat.js: the model list and its default selection,
 * the availability check against the selected model, the send guards with
 * the in-flight flag, the canvas context sent with every question, and the
 * message list the widget shows.
 */
module Chat {
  import opened JsText
  import opened Canvas
  import Sorting
  import Analyzer

  // ------------------------------------------------------ model name order

  /**
   * The comparator of the model list, `a.localeCompare(b) <= 0`, taken as
   * code-point order: a prefix comes first, otherwise the first differing
   * character decides.
   */
  predicate NameLe(a: string, b: string) {
    if a == [] then true
    else if b == [] then false
    else if a[0] != b[0] then a[0] < b[0]
    else NameLe(a[1..], b[1..])
  }

  lemma {:induction false} NameLeTotal(a: string, b: string)
    ensures NameLe(a, b) || NameLe(b, a)
  {
    if a != [] && b != [] && a[0] == b[0] {
      NameLeTotal(a[1..], b[1..]);
    }
  }

  lemma {:induction false} NameLeTransitive(a: string, b: string, c: string)
    requires NameLe(a, b) && NameLe(b, c)
    ensures NameLe(a, c)
  {
    if a != [] && b != [] && c != [] && a[0] == b[0] && b[0] == c[0] {
      NameLeTransitive(a[1..], b[1..], c[1..]);
    }
  }

  /** The comparator orders every list of names: sorting by it is well defined. */
  lemma NameLeIsTotalPreorder()
    ensures Sorting.TotalPreorder(NameLe)
  {
    forall a, b ensures NameLe(a, b) || NameLe(b, a) {
      NameLeTotal(a, b);
    }
    forall a, b, c | NameLe(a, b) && NameLe(b, c) ensures NameLe(a, c) {
      NameLeTransitive(a, b, c);
    }
  }

  /** The first of the sorted names is one of them and precedes-or-ties every one. */
  lemma FirstModelIsLeast(names: seq<string>)
    requires names != []
    ensures |Sorting.Sort(names, NameLe)| == |names|
    ensures Sorting.Sort(names, NameLe)[0] in names
    ensures forall n :: n in names ==> NameLe(Sorting.Sort(names, NameLe)[0], n)
  {
    NameLeIsTotalPreorder();
    Sorting.SortFirstIsLeast(names, NameLe);
    var sorted := Sorting.Sort(names, NameLe);
    assert sorted[0] in multiset(names);
  }

  // --------------------------------------------------------- what comes in

  /**
   * What a `tags` request gives: it failed (unreachable, or a reply that is
   * not JSON), a status that is not OK, or a body whose `models` field holds
   * the names of the installed models, or is absent.
   */
  datatype TagsReply = TagsFailed | TagsNotOk(status: int) | TagsOk(models: Option<seq<string>>)

  /** What a `generate` request gives: an error with its message, a status that is not OK, or the reply text. */
  datatype ChatReply = ChatFailed(message: string) | ChatNotOk | ChatReplied(response: string)

  /** One `<option>` of the model selector: a model, or the single placeholder of an empty or failed list. */
  datatype Choice = ModelChoice(name: string) | NoModelsChoice | ModelsErrorChoice

  /**
   * What the assistant says: a reply of the model, or one of the widget's
   * own notices.
   */
  datatype Said =
    | Reply(text: string)
    | Cleared
    | Checking
    | Welcome
    | Unavailable
    | Offline(model: string)
    | ConnectError
    | Sorry(message: string)

  /** One child of the message list: the user's text, an assistant message, or the thinking indicator. */
  datatype Message = UserMessage(text: string) | AiMessage(said: Said) | Thinking

  // ------------------------------------------------------------ the options

  /** The option's value: the model's name, or the empty text of a placeholder. */
  function ChoiceValue(c: Choice): string {
    if c.ModelChoice? then c.name else ""
  }

  /** The option's text. */
  function ChoiceCaption(c: Choice): string {
    match c
    case ModelChoice(name) => name
    case NoModelsChoice => "No models available"
    case ModelsErrorChoice => "Error loading models"
  }

  /** One option per model, in the given order. */
  function ChoicesOf(names: seq<string>): (r: seq<Choice>)
    ensures |r| == |names|
    ensures forall i :: 0 <= i < |names| ==> r[i] == ModelChoice(names[i])
  {
    if names == [] then [] else ChoicesOf(names[..|names| - 1]) + [ModelChoice(names[|names| - 1])]
  }

  /** `data.models || []`. */
  function ModelNames(models: Option<seq<string>>): seq<string> {
    if models.Some? then models.value else []
  }

  // -------------------------------------------------------------- messages

  const NotOkMessage := "Failed to get response from Ollama"
  const FetchFailure := "Failed to fetch"

  /** The text of each thing the assistant says; the offline help names `cogito:3b` when no model is selected. */
  function SaidText(said: Said): string {
    match said
    case Reply(text) => text
    case Cleared => "Chat history cleared. How can I help you with your AI Canvas?"
    case Checking => "Checking connection to Ollama..."
    case Welcome =>
      "\U{1F44B} Hi there! I'm your AI assistant powered by Ollama. I can help you improve your AI Canvas "
      + "by providing suggestions and answering questions. What would you like help with today?"
    case Unavailable =>
      "\U{26A0}\U{FE0F} I can't process your request because Ollama is not available. "
      + "Please check your connection and try again."
    case Offline(model) =>
      "\U{26A0}\U{FE0F} I couldn't connect to Ollama. Please make sure:\n"
      + "1. The proxy server is running: node js/proxy-server.js\n"
      + "2. Ollama is installed and running: ollama serve\n"
      + "3. You have at least one model installed (run: ollama pull " + (if model == "" then "cogito:3b" else model) + ")"
    case ConnectError =>
      "Error: Could not connect to the AI service. Please ensure the proxy server is running:\n\nnode js/proxy-server.js"
    case Sorry(message) =>
      "Sorry, I encountered an error while processing your request: " + message + ". Please try again later."
  }

  /** What ends a request: the reply, the connection error when the fetch failed, or the apology with the error's message. */
  function ReplyMessage(reply: ChatReply): (r: Said)
    ensures reply.ChatReplied? ==> r == Reply(reply.response)
    ensures reply.ChatNotOk? ==> r == Sorry(NotOkMessage)
    ensures reply.ChatFailed? && Contains(reply.message, FetchFailure) ==> r == ConnectError
    ensures reply.ChatFailed? && !Contains(reply.message, FetchFailure) ==> r == Sorry(reply.message)
  {
    match reply
    case ChatReplied(response) => Reply(response)
    case ChatNotOk => Sorry(NotOkMessage)
    case ChatFailed(message) => if Contains(message, FetchFailure) then ConnectError else Sorry(message)
  }

  /** What an element of the list shows: a user's text as text, an assistant's through `formatMessage`. */
  function Shown(m: Message): (r: string)
    ensures '\n' !in r || m.UserMessage?
  {
    match m
    case UserMessage(text) => text
    case AiMessage(said) => NewlinesToBr(SaidText(said))
    case Thinking => ""
  }

  /** The number of thinking indicators in the list. */
  function ThinkingCount(ms: seq<Message>): nat {
    if ms == [] then 0 else ThinkingCount(ms[..|ms| - 1]) + (if ms[|ms| - 1].Thinking? then 1 else 0)
  }

  lemma {:induction false} ThinkingCountAppend(a: seq<Message>, b: seq<Message>)
    ensures ThinkingCount(a + b) == ThinkingCount(a) + ThinkingCount(b)
    decreases |b|
  {
    if b == [] {
      assert a + b == a;
    } else {
      assert (a + b)[..|a + b| - 1] == a + b[..|b| - 1];
      ThinkingCountAppend(a, b[..|b| - 1]);
    }
  }

  /** The list after `removeThinking`: every thinking indicator gone, the rest in order. */
  function WithoutThinking(ms: seq<Message>): (r: seq<Message>)
    ensures ThinkingCount(r) == 0
    ensures forall m :: m in r <==> m in ms && !m.Thinking?
  {
    if ms == [] then []
    else
      var front := WithoutThinking(ms[..|ms| - 1]);
      assert forall m :: m in ms <==> m in ms[..|ms| - 1] || m == ms[|ms| - 1];
      if ms[|ms| - 1].Thinking? then front
      else
        ThinkingCountAppend(front, [ms[|ms| - 1]]);
        assert ([] + [ms[|ms| - 1]])[..0] == [];
        front + [ms[|ms| - 1]]
  }

  // -------------------------------------------------------- canvas context

  const EmptyContext := "[Empty]"

  /** What `formatCanvasContext` writes for one section: a heading, the text or `[Empty]` when it is falsy, a blank line. */
  function ContextBlock(e: Entry): string {
    ("## " + ReadableName(e.id) + "\n")
    + (if e.textarea.Some? && e.textarea.value != "" then e.textarea.value + "\n" else EmptyContext + "\n")
    + "\n"
  }

  /** The blocks of all sections, in page order. */
  function ContextText(es: seq<Entry>): (r: string)
    ensures r == "" <==> es == []
    ensures |r| >= 5 * |es|
  {
    if es == [] then "" else ContextText(es[..|es| - 1]) + ContextBlock(es[|es| - 1])
  }

  /** The context of a canvas is the context of its first part followed by that of the rest. */
  lemma {:induction false} ContextTextAppend(a: seq<Entry>, b: seq<Entry>)
    ensures ContextText(a + b) == ContextText(a) + ContextText(b)
    decreases |b|
  {
    if b == [] {
      assert a + b == a;
    } else {
      var front := b[..|b| - 1];
      assert (a + b)[..|a + b| - 1] == a + front;
      assert (a + b)[|a + b| - 1] == b[|b| - 1];
      ContextTextLast(a + b);
      ContextTextLast(b);
      ContextTextAppend(a, front);
      Analyzer.StringAssoc(ContextText(a), ContextText(front), ContextBlock(b[|b| - 1]));
    }
  }

  /** The context of a non-empty canvas ends with the block of its last section. */
  lemma ContextTextLast(es: seq<Entry>)
    requires es != []
    ensures ContextText(es) == ContextText(es[..|es| - 1]) + ContextBlock(es[|es| - 1])
  {
  }

  /**
   * White space counts as content here and not in the analyzer's prompt: the
   * chat context shows the text itself where the analysis prompt shows the
   * empty-section marker.
   */
  lemma BlankTextDiffersFromAnalysis(id: string, t: string)
    requires t != "" && Blank(t)
    ensures ContextText([Entry(id, Some(t))]) == "## " + ReadableName(id) + "\n" + t + "\n" + "\n"
    ensures Analyzer.LlmCanvasText([Entry(id, Some(t))]) == "## " + ReadableName(id) + "\n" + Analyzer.EmptyMarker + "\n" + "\n"
  {
    assert [Entry(id, Some(t))][..0] == [];
    Analyzer.BlankTextIsMarked(id, t);
  }

  /** `formatCanvasContext(canvasData)`. */
  method FormatCanvasContext(es: seq<Entry>) returns (context: string)
    ensures context == ContextText(es)
  {
    context := "";
    var i := 0;
    while i < |es|
      invariant 0 <= i <= |es|
      invariant context == ContextText(es[..i])
    {
      var e := es[i];
      ghost var before := context;
      var heading := "## " + ReadableName(e.id) + "\n";
      context := context + heading;
      var line;
      if e.textarea.Some? && e.textarea.value != "" {
        line := e.textarea.value + "\n";
      } else {
        line := EmptyContext + "\n";
      }
      context := context + line;
      context := context + "\n";
      Analyzer.Regroup3(before, heading, line, "\n");
      assert es[..i + 1][..i] == es[..i];
      i := i + 1;
    }
    assert es[..i] == es;
  }

  /** The request `sendMessage` posts: the selected model, no streaming, temperature 0.7. */
  function ChatRequest(model: string, context: string, message: string): GenerateRequest {
    GenerateRequest(model, ChatPrompt(context, message), false, 0.7)
  }

  // ------------------------------------------------------------ the widget

  /** The widget's state: `MODEL`, the selector's options, the three flags, the input box and the message list. */
  class ChatWidget {
    var model: string
    var options: seq<Choice>
    var available: bool
    var waiting: bool
    var chatOpen: bool
    var input: string
    var messages: seq<Message>

    /** A thinking indicator is shown only while a request is in flight, and at most one. */
    ghost predicate Valid()
      reads this
    {
      ThinkingCount(messages) <= if waiting then 1 else 0
    }

    constructor ()
      ensures model == "" && options == [] && !available && !waiting && !chatOpen
      ensures input == "" && messages == []
      ensures Valid()
    {
      model := "";
      options := [];
      available := false;
      waiting := false;
      chatOpen := false;
      input := "";
      messages := [];
    }

    /** `addAIMessage(text)`. */
    method AddAiMessage(said: Said)
      requires Valid()
      modifies this`messages
      ensures messages == old(messages) + [AiMessage(said)]
      ensures Valid()
    {
      ThinkingCountAppend(messages, [AiMessage(said)]);
      assert [AiMessage(said)][..0] == [];
      messages := messages + [AiMessage(said)];
    }

    /**
     * `populateModelDropdown()` given the `tags` reply: the options in name
     * order and, through the change event, the first of them selected; the
     * single "No models available" option for an empty list, which keeps the
     * selection; the single error option when the request failed.
     */
    method PopulateModels(reply: TagsReply)
      modifies this`options, this`model
      ensures reply.TagsOk? && ModelNames(reply.models) != [] ==>
        var sorted := Sorting.Sort(ModelNames(reply.models), NameLe);
        && options == ChoicesOf(sorted)
        && model == sorted[0]
        && model in ModelNames(reply.models)
        && forall n :: n in ModelNames(reply.models) ==> NameLe(model, n)
      ensures reply.TagsOk? && ModelNames(reply.models) == [] ==>
        options == [NoModelsChoice] && model == old(model)
      ensures !reply.TagsOk? ==> options == [ModelsErrorChoice] && model == old(model)
    {
      if !reply.TagsOk? {
        options := [ModelsErrorChoice];
        return;
      }
      var names := ModelNames(reply.models);
      if names == [] {
        options := [NoModelsChoice];
        return;
      }
      var sorted := Sorting.Sort(names, NameLe);
      FirstModelIsLeast(names);
      options := [];
      var i := 0;
      while i < |sorted|
        invariant 0 <= i <= |sorted|
        invariant options == ChoicesOf(sorted[..i])
        invariant i > 0 && old(model) == "" ==> model == sorted[0]
        invariant model == old(model) || model == sorted[0]
      {
        options := options + [ModelChoice(sorted[i])];
        if model == "" && i == 0 {
          model := sorted[i];
        }
        assert sorted[..i + 1][..i] == sorted[..i];
        i := i + 1;
      }
      assert sorted[..i] == sorted;
      // The change event: the selector's value is its selected option, and
      // a selector without a selected option selects its first one.
      model := ChoiceValue(options[0]);
    }

    /**
     * `checkOllamaStatus()` given the `tags` reply: available exactly when the
     * reply lists the selected model; otherwise unavailable, with the offline
     * help added when the chat is open and shows at most one message.
     */
    method CheckStatus(reply: TagsReply)
      requires Valid()
      modifies this`available, this`messages
      ensures available <==> reply.TagsOk? && reply.models.Some? && model in reply.models.value
      ensures available ==> messages == old(messages)
      ensures !available && chatOpen && |old(messages)| <= 1 ==> messages == old(messages) + [AiMessage(Offline(model))]
      ensures !available && !(chatOpen && |old(messages)| <= 1) ==> messages == old(messages)
      ensures Valid()
    {
      if reply.TagsOk? && reply.models.Some? && model in reply.models.value {
        available := true;
        return;
      }
      available := false;
      if chatOpen && |messages| <= 1 {
        AddAiMessage(Offline(model));
      }
    }

    /** `toggleChat()`: the status check it starts is a separate `CheckStatus`. */
    method ToggleChat()
      modifies this`chatOpen
      ensures chatOpen == !old(chatOpen)
    {
      chatOpen := !chatOpen;
    }

    /** `clearChat()`: only the notice that the history was cleared is left. */
    method ClearChat()
      modifies this`messages
      ensures messages == [AiMessage(Cleared)]
      ensures Valid()
    {
      messages := [AiMessage(Cleared)];
      assert messages[..0] == [];
    }

    /** The check-connection button: a notice, then a separate `CheckStatus`. */
    method CheckConnection()
      requires Valid()
      modifies this`messages
      ensures messages == old(messages) + [AiMessage(Checking)]
      ensures Valid()
    {
      AddAiMessage(Checking);
    }

    /** The welcome message `initChat()` adds once the model list and the status are in. */
    method ShowWelcome()
      requires Valid()
      modifies this`messages
      ensures messages == old(messages) + [AiMessage(Welcome)]
      ensures Valid()
    {
      AddAiMessage(Welcome);
    }

    /**
     * `sendMessage()` up to its request. Nothing happens for a blank input
     * or while a request is in flight. Otherwise the trimmed message is
     * echoed and the input cleared; without a backend the unavailable notice
     * follows and nothing is sent; with one the thinking indicator is shown,
     * the request is in flight and its body carries the canvas context.
     */
    method BeginSend(entries: seq<Entry>) returns (request: Option<GenerateRequest>)
      requires Valid()
      modifies this`messages, this`input, this`waiting
      ensures Valid()
      ensures request.Some? <==> !old(waiting) && waiting
      ensures Trim(old(input)) == "" || old(waiting) ==>
        request.None? && messages == old(messages) && input == old(input) && waiting == old(waiting)
      ensures Trim(old(input)) != "" && !old(waiting) && !available ==>
        && request.None? && input == "" && !waiting
        && messages == old(messages) + [UserMessage(Trim(old(input)))] + [AiMessage(Unavailable)]
      ensures Trim(old(input)) != "" && !old(waiting) && available ==>
        && request == Some(ChatRequest(model, ContextText(entries), Trim(old(input))))
        && input == "" && waiting
        && messages == old(messages) + [UserMessage(Trim(old(input)))] + [Thinking]
    {
      var message := Trim(input);
      if message == "" || waiting {
        return None;
      }
      Echo(message);
      if !available {
        AddAiMessage(Unavailable);
        return None;
      }
      request := StartRequest(entries, message);
    }

    /** The user's message shown and the input box cleared. */
    method Echo(message: string)
      requires Valid()
      modifies this`messages, this`input
      ensures messages == old(messages) + [UserMessage(message)] && input == ""
      ensures Valid()
    {
      ThinkingCountAppend(messages, [UserMessage(message)]);
      assert [UserMessage(message)][..0] == [];
      messages := messages + [UserMessage(message)];
      input := "";
    }

    /** The thinking indicator shown, the request in flight, and its body built. */
    method StartRequest(entries: seq<Entry>, message: string) returns (request: Option<GenerateRequest>)
      requires Valid() && !waiting
      modifies this`messages, this`waiting
      ensures messages == old(messages) + [Thinking] && waiting
      ensures request == Some(ChatRequest(model, ContextText(entries), message))
      ensures Valid()
    {
      ThinkingCountAppend(messages, [Thinking]);
      assert [Thinking][..0] == [];
      messages := messages + [Thinking];
      waiting := true;
      var context := FormatCanvasContext(entries);
      request := Some(ChatRequest(model, context, message));
    }

    /**
     * `sendMessage()` after its request, given what came back: the thinking
     * indicator removed, the reply or the error message added, the backend
     * marked unavailable when the fetch itself failed, and the request no
     * longer in flight whatever happened.
     */
    method FinishSend(reply: ChatReply)
      modifies this`messages, this`waiting, this`available
      ensures !waiting && Valid()
      ensures messages == WithoutThinking(old(messages)) + [AiMessage(ReplyMessage(reply))]
      ensures reply.ChatFailed? && Contains(reply.message, FetchFailure) ==> !available
      ensures !(reply.ChatFailed? && Contains(reply.message, FetchFailure)) ==> available == old(available)
    {
      messages := WithoutThinking(messages);
      waiting := false;
      match reply {
        case ChatReplied(response) =>
          AddAiMessage(Reply(response));
        case ChatNotOk =>
          AddAiMessage(Sorry(NotOkMessage));
        case ChatFailed(message) =>
          if Contains(message, FetchFailure) {
            AddAiMessage(ConnectError);
            available := false;
          } else {
            AddAiMessage(Sorry(message));
          }
      }
    }
  }

  /** Nothing an assistant message shows contains a newline: `formatMessage` turns each into `<br>`. */
  lemma AiMessagesShowNoNewline(ms: seq<Message>)
    ensures forall i :: 0 <= i < |ms| && !ms[i].UserMessage? ==> '\n' !in Shown(ms[i])
  {
  }
}
