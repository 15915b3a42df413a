/**
 * The chat endpoint of the first API version: the diagnosis context sent by the client is
 * parsed into a label and a confidence, grounded in the knowledge base, embedded in the
 * system prompt, and followed by a bounded window of the conversation history and the new
 * message.  The language model itself is a parameter.
 */
module ChatApi {
  import opened Wrappers
  import Text
  import Stats
  import opened ChatContext
  import opened ChatPrompt

  /** One turn of the client's history. */
  datatype ChatMessage = ChatMessage(role: string, text: string)

  /** One entry of the message chain sent to the language model. */
  datatype Message = Message(role: string, content: string)

  datatype ChatRequest = ChatRequest(message: string, context: Option<string>, history: seq<ChatMessage>)

  datatype HttpError = HttpError(status: int, detail: string)

  const HistoryWindow := 6
  const MaxMessageLength := 500

  const MissingKeyDetail := "OpenRouter API " + "Key not found. " + "Please set " + "OPENROUTER_API_" + "KEY in .env"

  // ---- History window ----

  function Min(a: nat, b: nat): nat { if a <= b then a else b }

  /** `xs[-n:]`: the last `n` items, or all of them when there are fewer. */
  function LastItems<T>(xs: seq<T>, n: nat): (r: seq<T>)
    ensures |r| == Min(n, |xs|)
    ensures r == xs[|xs| - |r|..]
  {
    xs[|xs| - Min(n, |xs|)..]
  }

  /** A history text over the limit is cut to its first `MaxMessageLength` characters plus "...". */
  function Shorten(text: string): (t: string)
    ensures |t| <= MaxMessageLength + 3
    ensures |text| <= MaxMessageLength ==> t == text
    ensures |t| == 0 <==> |text| == 0
  {
    if |text| > MaxMessageLength then text[..MaxMessageLength] + "..." else text
  }

  /** A text over the limit keeps its first `MaxMessageLength` characters and ends in "...". */
  lemma ShortenCut(text: string)
    requires |text| > MaxMessageLength
    ensures |Shorten(text)| == MaxMessageLength + 3
    ensures Text.StartsWith(Shorten(text), text[..MaxMessageLength])
    ensures Text.EndsWith(Shorten(text), "...")
  {
    var t := Shorten(text);
    assert t[..MaxMessageLength] == text[..MaxMessageLength];
    assert t[|t| - 3..] == "...";
  }

  /** Only "assistant" keeps its role; every other role is sent as "user". */
  function RoleFor(role: string): (r: string)
    ensures r == "assistant" || r == "user"
    ensures r == "assistant" <==> role == "assistant"
  {
    if role == "assistant" then "assistant" else "user"
  }

  /** The entries the history loop appends: one per non-empty text, in order. */
  function HistoryMessages(h: seq<ChatMessage>): (ms: seq<Message>)
    ensures |ms| <= |h|
  {
    if h == [] then []
    else
      var last := h[|h| - 1];
      HistoryMessages(h[..|h| - 1])
        + (if |Shorten(last.text)| > 0 then [Message(RoleFor(last.role), Shorten(last.text))] else [])
  }

  /** Every entry has a non-empty text of at most `MaxMessageLength + 3` characters and a role the model knows. */
  lemma {:induction false} HistoryEntriesBounded(h: seq<ChatMessage>)
    ensures forall i :: 0 <= i < |HistoryMessages(h)| ==> ValidEntry(HistoryMessages(h)[i])
  {
    if h != [] {
      HistoryEntriesBounded(h[..|h| - 1]);
    }
  }

  predicate ValidEntry(m: Message)
  {
    0 < |m.content| <= MaxMessageLength + 3 && (m.role == "assistant" || m.role == "user")
  }

  /** One more turn of the window appends its entry, unless its text is empty. */
  lemma HistoryStep(h: seq<ChatMessage>, i: nat)
    requires i < |h|
    ensures HistoryMessages(h[..i + 1]) == HistoryMessages(h[..i])
      + (if |Shorten(h[i].text)| > 0 then [Message(RoleFor(h[i].role), Shorten(h[i].text))] else [])
  {
    assert h[..i + 1][..i] == h[..i];
  }

  /** With no empty text in the window, every turn is kept, in order, with its role mapped. */
  lemma {:induction false} HistoryKeepsEveryNonEmptyTurn(h: seq<ChatMessage>)
    requires forall i :: 0 <= i < |h| ==> |h[i].text| > 0
    ensures |HistoryMessages(h)| == |h|
    ensures forall i :: 0 <= i < |h| ==>
      HistoryMessages(h)[i] == Message(RoleFor(h[i].role), Shorten(h[i].text))
  {
    if h != [] {
      var init := h[..|h| - 1];
      HistoryKeepsEveryNonEmptyTurn(init);
      var last := h[|h| - 1];
      var ms := HistoryMessages(h);
      assert ms == HistoryMessages(init) + [Message(RoleFor(last.role), Shorten(last.text))];
      forall i | 0 <= i < |h|
        ensures ms[i] == Message(RoleFor(h[i].role), Shorten(h[i].text))
      {
        if i < |init| {
          assert init[i] == h[i];
        }
      }
    }
  }

  /** A turn with an empty text adds nothing. */
  lemma EmptyTurnSkipped(h: seq<ChatMessage>, role: string)
    ensures HistoryMessages(h + [ChatMessage(role, "")]) == HistoryMessages(h)
  {
    assert (h + [ChatMessage(role, "")])[..|h|] == h;
  }

  /** The full chain: the system prompt, the history window, then the new message. */
  function MessageChain(systemPrompt: string, history: seq<ChatMessage>, message: string): (ms: seq<Message>)
    ensures 2 <= |ms| <= HistoryWindow + 2
    ensures ms[0] == Message("system", systemPrompt)
    ensures ms[|ms| - 1] == Message("user", message)
    ensures forall i :: 0 < i < |ms| - 1 ==> |ms[i].content| <= MaxMessageLength + 3
  {
    HistoryEntriesBounded(LastItems(history, HistoryWindow));
    [Message("system", systemPrompt)] + HistoryMessages(LastItems(history, HistoryWindow)) + [Message("user", message)]
  }

  // ---- Endpoints ----

  predicate HasKey(apiKey: Option<string>)
  {
    apiKey.Some? && |apiKey.value| > 0
  }

  /** The endpoint's answer for a completion: its text, or a 500 whose detail starts with `prefix`. */
  function Reply(prefix: string, c: Result<string, string>): Result<string, HttpError>
  {
    match c
    case Success(text) => Success(text)
    case Failure(e) => Failure(HttpError(500, prefix + e))
  }

  const CompletionFailedPrefix := "Error generating " + "response: "

  /** What the endpoint answers once the medical context is known. */
  function ChatOutcome(medicalContext: string, request: ChatRequest, complete: seq<Message> -> Result<string, string>)
    : Result<string, HttpError>
  {
    Reply(CompletionFailedPrefix, complete(MessageChain(SystemPrompt(medicalContext), request.history, request.message)))
  }

  /** A completion's text is answered unchanged; its failure is a 500 carrying the reason after `prefix`. */
  lemma ReplyShape(prefix: string, c: Result<string, string>)
    ensures Reply(prefix, c).Success? <==> c.Success?
    ensures c.Success? ==> Reply(prefix, c).value == c.value
    ensures c.Failure? ==> Reply(prefix, c).error.status == 500
    ensures c.Failure? ==> Text.StartsWith(Reply(prefix, c).error.detail, prefix)
    ensures c.Failure? ==> Text.EndsWith(Reply(prefix, c).error.detail, c.error)
  {
  }

  /**
   * The model is asked with a chain that opens with the system prompt and closes with the
   * user's message; the answer is that completion's text, and succeeds exactly when it does.
   */
  lemma AnswerForChain(systemPrompt: string, request: ChatRequest, complete: seq<Message> -> Result<string, string>)
    ensures var chain := MessageChain(systemPrompt, request.history, request.message);
      var r := Reply(CompletionFailedPrefix, complete(chain));
      && chain[0] == Message("system", systemPrompt)
      && chain[|chain| - 1] == Message("user", request.message)
      && (r.Success? <==> complete(chain).Success?)
      && (r.Success? ==> r.value == complete(chain).value)
  {
  }

  const ModelNotLoadedDetail := "F1 Diagnosis " + "model not loaded."

  /**
   * `predict_image` after inference: `score` is the first output row, or the reason the
   * preprocessing or the prediction raised.  The label is the first maximum's class name.
   */
  function PredictImage(modelLoaded: bool, classNames: seq<string>, score: Result<seq<real>, string>)
    : (r: Result<(string, real), HttpError>)
    ensures !modelLoaded ==> r == Failure(HttpError(503, ModelNotLoadedDetail))
    ensures r.Failure? && modelLoaded ==> r.error.status == 500
    ensures r.Success? <==> (modelLoaded && score.Success? && |score.value| > 0
      && Stats.ArgMax(score.value) < |classNames|)
    ensures r.Success? ==>
      exists k :: (0 <= k < |score.value| && k < |classNames|
        && r.value == (classNames[k], score.value[k])
        && (forall j :: 0 <= j < |score.value| ==> score.value[j] <= score.value[k])
        && (forall j :: 0 <= j < k ==> score.value[j] < score.value[k]))
  {
    if !modelLoaded then Failure(HttpError(503, ModelNotLoadedDetail))
    else
      match score
      case Failure(e) => Failure(HttpError(500, "Error processing " + "image: " + e))
      case Success(p) =>
        if |p| == 0 then Failure(HttpError(500, "Error processing " + "image: " + "attempt to get " + "argmax of an " + "empty sequence"))
        else
          var k := Stats.ArgMax(p);
          if k >= |classNames| then Failure(HttpError(500, "Error processing " + "image: " + "list index out " + "of range"))
          else Success((classNames[k], p[k]))
  }
}

/** The chat handler itself: the loop that assembles the chain and the endpoint around it. */
module ChatEndpoint {
  import opened Wrappers
  import ConditionRecords
  import opened ChatContext
  import opened ChatPrompt
  import opened ChatApi

  /** The loop over the history window: each kept turn is appended to `prefix`. */
  method AppendHistory(prefix: seq<Message>, window: seq<ChatMessage>) returns (messages: seq<Message>)
    ensures messages == prefix + HistoryMessages(window)
  {
    messages := prefix;
    var i := 0;
    while i < |window|
      invariant 0 <= i <= |window|
      invariant messages == prefix + HistoryMessages(window[..i])
    {
      HistoryStep(window, i);
      var text := Shorten(window[i].text);
      if |text| > 0 {
        var entry := [Message(RoleFor(window[i].role), text)];
        assert messages + entry == prefix + (HistoryMessages(window[..i]) + entry);
        messages := messages + entry;
      }
      i := i + 1;
    }
    assert window[..|window|] == window;
  }

  /** The chain: the system prompt, the history window appended turn by turn, the new message. */
  method BuildMessages(systemPrompt: string, history: seq<ChatMessage>, message: string) returns (messages: seq<Message>)
    ensures messages == MessageChain(systemPrompt, history, message)
  {
    messages := AppendHistory([Message("system", systemPrompt)], LastItems(history, HistoryWindow));
    messages := messages + [Message("user", message)];
  }

  /** Build the chain for `medicalContext` and send it to the model `complete`. */
  method Answer(medicalContext: string, request: ChatRequest, complete: seq<Message> -> Result<string, string>)
    returns (r: Result<string, HttpError>)
    ensures r == ChatOutcome(medicalContext, request, complete)
  {
    var messages := BuildMessages(SystemPrompt(medicalContext), request.history, request.message);
    var completion := complete(messages);
    r := Reply(CompletionFailedPrefix, completion);
  }

  /**
   * `chat_endpoint`: without an API key, 500 before any other work; otherwise the chain is
   * sent to the model `complete`, whose failure becomes a 500.
   */
  method Chat(apiKey: Option<string>, request: ChatRequest, complete: seq<Message> -> Result<string, string>,
    lookup: string -> ConditionRecords.ConditionInfo)
    returns (r: Result<string, HttpError>)
    ensures !HasKey(apiKey) ==> r == Failure(HttpError(500, MissingKeyDetail))
    ensures HasKey(apiKey) ==> r == ChatOutcome(MedicalContextText(request.context, lookup), request, complete)
  {
    if !HasKey(apiKey) {
      return Failure(HttpError(500, MissingKeyDetail));
    }
    var medicalContext := MedicalContextText(request.context, lookup);
    r := Answer(medicalContext, request, complete);
  }
}
