/**
 * The second version of the chat endpoint: the same grounding, prompt and history window
 * as the first, an instruction naming the response language, a stripped answer and its own
 * failure detail.
 */
module ChatV2 {
  import opened Wrappers
  import Text
  import Tables
  import opened ChatContext
  import ConditionRecords
  import opened ChatPrompt
  import opened ChatApi
  import ChatEndpoint

  /** The request; a client that leaves `language` out sends "en". */
  datatype ChatRequestV2 = ChatRequestV2(
    message: string, context: Option<string>, history: seq<ChatMessage>, language: Option<string>)

  /** Language codes with the language name and the extra note the prompt gets. */
  const LanguageMap: seq<(string, (string, string))> := [
    ("en", ("English", "")),
    ("es", ("Spanish", "")),
    ("fr", ("French", "")),
    ("de", ("German", "")),
    ("zh", ("Chinese", "")),
    ("hi", ("Hindi", " Use Devanagari script (\U{0939}\U{093F}\U{0928}\U{094D}\U{0926}\U{0940}), NOT Urdu/Arabic script."))
  ]

  /** `language_map.get(language, ("English", ""))`. */
  function LanguageFor(language: Option<string>): (r: (string, string))
    ensures language.None? || language.value !in Tables.Keys(LanguageMap) ==> r == ("English", "")
    ensures language.Some? && language.value in Tables.Keys(LanguageMap) ==> (language.value, r) in LanguageMap
  {
    if language.None? then ("English", "")
    else Tables.Lookup(LanguageMap, language.value).GetOr(("English", ""))
  }

  /**
   * The instruction appended to the prompt: nothing for English requested by its code, and
   * otherwise the language to answer in, falling back to English for an unknown code.
   */
  function LanguageInstruction(language: Option<string>): (r: string)
    ensures |r| == 0 <==> language == Some("en")
    ensures language != Some("en") ==>
      r == "\n\nIMPORTANT: Respond in " + LanguageFor(language).0 + "." + LanguageFor(language).1
  {
    if language == Some("en") then ""
    else "\n\nIMPORTANT: Respond in " + LanguageFor(language).0 + "." + LanguageFor(language).1
  }

  /** An unknown or missing code still gets an explicit instruction to answer in English. */
  lemma UnknownLanguageIsEnglish(language: Option<string>)
    requires language.None? || language.value !in Tables.Keys(LanguageMap)
    ensures LanguageInstruction(language) == "\n\nIMPORTANT: Respond in English."
  {
    assert LanguageFor(language) == ("English", "");
    assert "\n\nIMPORTANT: Respond in " + "English" + "." + "" == "\n\nIMPORTANT: Respond in English.";
  }

  /** The codes are distinct, so every listed code gets its own language and note. */
  lemma KnownLanguage(i: nat)
    requires i < |LanguageMap|
    ensures LanguageFor(Some(LanguageMap[i].0)) == LanguageMap[i].1
  {
    LanguageCodesDistinct();
    Tables.LookupDistinct(LanguageMap, i);
  }

  lemma LanguageCodesDistinct()
    ensures Tables.DistinctKeys(LanguageMap)
  {
  }

  /** The first version's prompt, then the language instruction and a final newline. */
  function SystemPromptV2(medicalContext: string, instruction: string): string
  {
    SystemPrompt(medicalContext) + instruction + "\n"
  }

  /** Appending a line to a prompt `head + context + tail` keeps its start and the context. */
  lemma AppendToPrompt(prompt: string, head: string, context: string, tail: string, instruction: string)
    requires prompt == head + context + tail
    ensures Text.StartsWith(prompt + instruction + "\n", prompt)
    ensures Text.Contains(prompt + instruction + "\n", context)
    ensures Text.EndsWith(prompt + instruction + "\n", instruction + "\n")
  {
    var whole := prompt + instruction + "\n";
    assert whole[..|prompt|] == prompt;
    assert whole[|whole| - |instruction + "\n"|..] == instruction + "\n";
    assert whole == head + context + (tail + instruction + "\n");
    Text.ContainsInfix(head, context, tail + instruction + "\n");
  }

  const GenerationFailedPrefix := "Failed to generate response: "

  /** The endpoint's answer for a completion: the stripped text, or a 500. */
  function ReplyV2(c: Result<string, string>): Result<string, HttpError>
  {
    match c
    case Success(text) => Success(Text.Strip(text))
    case Failure(e) => Failure(HttpError(500, GenerationFailedPrefix + e))
  }

  /** What the endpoint answers once the medical context is known. */
  function ChatOutcomeV2(medicalContext: string, request: ChatRequestV2, complete: seq<Message> -> Result<string, string>)
    : Result<string, HttpError>
  {
    var prompt := SystemPromptV2(medicalContext, LanguageInstruction(request.language));
    ReplyV2(complete(MessageChain(prompt, request.history, request.message)))
  }

  /** The answer to a chain with `prompt`: the completion's text stripped, exactly when it succeeds. */
  lemma ReplyToChain(prompt: string, request: ChatRequestV2, complete: seq<Message> -> Result<string, string>)
    ensures var chain := MessageChain(prompt, request.history, request.message);
      var r := ReplyV2(complete(chain));
      && chain[0] == Message("system", prompt)
      && chain[|chain| - 1] == Message("user", request.message)
      && (r.Success? <==> complete(chain).Success?)
      && (complete(chain).Success? ==> r.value == Text.Strip(complete(chain).value))
  {
    ReplyV2Shape(complete(MessageChain(prompt, request.history, request.message)));
  }

  /** An answer never starts or ends with whitespace, and a failure is a 500 with the prefix. */
  lemma ReplyV2Shape(c: Result<string, string>)
    ensures var r := ReplyV2(c);
      (r.Success? <==> c.Success?)
      && (r.Success? ==> Text.Strip(r.value) == r.value)
      && (r.Failure? ==> r.error.status == 500 && Text.StartsWith(r.error.detail, GenerationFailedPrefix))
  {
  }

  method AnswerV2(medicalContext: string, request: ChatRequestV2, complete: seq<Message> -> Result<string, string>)
    returns (r: Result<string, HttpError>)
    ensures r == ChatOutcomeV2(medicalContext, request, complete)
  {
    var instruction := LanguageInstruction(request.language);
    var messages := ChatEndpoint.BuildMessages(SystemPromptV2(medicalContext, instruction), request.history, request.message);
    var completion := complete(messages);
    r := ReplyV2(completion);
  }

  /** `chat_v2`: without an API key, 500 before any other work. */
  method ChatV2(apiKey: Option<string>, request: ChatRequestV2, complete: seq<Message> -> Result<string, string>,
    lookup: string -> ConditionRecords.ConditionInfo)
    returns (r: Result<string, HttpError>)
    ensures !HasKey(apiKey) ==> r == Failure(HttpError(500, MissingKeyDetail))
    ensures HasKey(apiKey) ==> r == ChatOutcomeV2(MedicalContextText(request.context, lookup), request, complete)
  {
    if !HasKey(apiKey) {
      return Failure(HttpError(500, MissingKeyDetail));
    }
    var medicalContext := MedicalContextText(request.context, lookup);
    r := AnswerV2(medicalContext, request, complete);
  }
}
