/** The selection logic of the Python AI service: which chat model serves a
    provider name, which tutoring-style guide goes into the prompt, how the
    conversation history becomes chat messages, and how the model's reply
    becomes the HTTP answer. Prompt wording and the model clients are opaque. */
module AiService {
  import opened Values

  /** The environment variables the service reads. */
  datatype ServiceEnv = ServiceEnv(
    googleApiKey: Option<string>,
    openaiApiKey: Option<string>,
    geminiModelName: Option<string>,
    openaiModelName: Option<string>)

  /** A configured chat model client (temperature and client options left out). */
  datatype Llm =
    | GeminiChat(model: string, apiKey: string)
    | OpenAiChat(model: string, apiKey: string)

  const GoogleKeyMissing := "GOOGLE_API_KEY environment variable not set for Google provider."
  const OpenAiKeyMissing := "OPENAI_API_KEY environment variable not set for OpenAI provider."
  const UnsupportedProvider := "Unsupported LLM provider: "
  const DefaultGeminiModel := "gemini-1.5-flash-latest"
  const DefaultOpenAiModel := "gpt-4o"

  /** Python truthiness of an environment variable: set and not empty. */
  predicate IsSet(v: Option<string>)
  {
    v.Some? && v.value != ""
  }

  /** An optional value, or `default` when it is absent. */
  function OrDefault<T>(v: Option<T>, default: T): (r: T)
    ensures v.Some? ==> r == v.value
    ensures v.None? ==> r == default
  {
    if v.Some? then v.value else default
  }

  /** `os.getenv(name, default)`: the default only when the variable is unset;
      a variable set to the empty string is returned as it is. */
  function GetEnv(v: Option<string>, default: string): (r: string)
    ensures v.Some? ==> r == v.value
    ensures v.None? ==> r == default
  {
    OrDefault(v, default)
  }

  /** `get_llm`: only "google" and "openai" are served, each only with its key;
      every failure is a `ValueError` with the message given here. */
  function GetLlm(provider: string, env: ServiceEnv): (r: Result<Llm, string>)
    ensures r.Success? <==> (provider == "google" && IsSet(env.googleApiKey)) || (provider == "openai" && IsSet(env.openaiApiKey))
    ensures r.Success? && provider == "google" ==>
      r.value == GeminiChat(GetEnv(env.geminiModelName, DefaultGeminiModel), env.googleApiKey.value)
    ensures r.Success? && provider == "openai" ==>
      r.value == OpenAiChat(GetEnv(env.openaiModelName, DefaultOpenAiModel), env.openaiApiKey.value)
    ensures provider == "google" && !IsSet(env.googleApiKey) ==> r == Failure(GoogleKeyMissing)
    ensures provider == "openai" && !IsSet(env.openaiApiKey) ==> r == Failure(OpenAiKeyMissing)
    ensures provider != "google" && provider != "openai" ==> r == Failure(UnsupportedProvider + provider)
  {
    if provider == "google" then
      if !IsSet(env.googleApiKey) then Failure(GoogleKeyMissing)
      else Success(GeminiChat(GetEnv(env.geminiModelName, DefaultGeminiModel), env.googleApiKey.value))
    else if provider == "openai" then
      if !IsSet(env.openaiApiKey) then Failure(OpenAiKeyMissing)
      else Success(OpenAiChat(GetEnv(env.openaiModelName, DefaultOpenAiModel), env.openaiApiKey.value))
    else
      Failure(UnsupportedProvider + provider)
  }

  /** One earlier turn of the conversation (`type` is "user" or "tutor"). */
  datatype Turn = Turn(kind: string, content: string)

  /** The validated `/ai/socratic-question` request. */
  datatype SocraticInput = SocraticInput(
    message: string,
    subject: string,
    gradeLevel: int,
    emotion: string,
    tutoringStyle: string,
    conversationHistory: seq<Turn>,
    provider: string)

  /** The validated `/ai/analyze-emotion` request. */
  datatype EmotionInput = EmotionInput(message: string, provider: string)

  /** The request model's defaults: an omitted style is "standard", an omitted
      history is empty, an omitted provider is "google"; a given field is kept. */
  function SocraticInputOf(message: string, subject: string, gradeLevel: int, emotion: string,
                           tutoringStyle: Option<string>, conversationHistory: Option<seq<Turn>>,
                           provider: Option<string>): (input: SocraticInput)
    ensures input.message == message && input.subject == subject
    ensures input.gradeLevel == gradeLevel && input.emotion == emotion
    ensures tutoringStyle.None? ==> input.tutoringStyle == "standard"
    ensures tutoringStyle.Some? ==> input.tutoringStyle == tutoringStyle.value
    ensures conversationHistory.None? ==> input.conversationHistory == []
    ensures conversationHistory.Some? ==> input.conversationHistory == conversationHistory.value
    ensures provider.None? ==> input.provider == "google"
    ensures provider.Some? ==> input.provider == provider.value
  {
    SocraticInput(message, subject, gradeLevel, emotion, OrDefault(tutoringStyle, "standard"),
                  OrDefault(conversationHistory, []), OrDefault(provider, "google"))
  }

  /** The emotion request model's default: an omitted provider is "google". */
  function EmotionInputOf(message: string, provider: Option<string>): (input: EmotionInput)
    ensures input.message == message
    ensures provider.None? ==> input.provider == "google"
    ensures provider.Some? ==> input.provider == provider.value
  {
    EmotionInput(message, OrDefault(provider, "google"))
  }

  /** The three tutoring-style guides. */
  datatype Guide = Simplify | Deepen | Balanced

  /** The style guide for a tutoring style: "simpler" and "moreDepth" have their
      own guides, every other value (including "standard") gets the balanced one. */
  function StyleGuide(style: string): (g: Guide)
    ensures g == Simplify <==> style == "simpler"
    ensures g == Deepen <==> style == "moreDepth"
    ensures g == Balanced <==> style != "simpler" && style != "moreDepth"
  {
    if style == "simpler" then Simplify
    else if style == "moreDepth" then Deepen
    else Balanced
  }

  /** Message contents. The prompt texts are opaque: only the request values
      they are built from are kept. */
  datatype Content =
    | Text(text: string)
    | SocraticPrompt(gradeLevel: int, subject: string, emotion: string, style: string, guide: Guide)
    | StudentTurn(message: string)
    | EmotionPrompt
    | EmotionTurn(message: string)

  datatype ChatMessage =
    | SystemMessage(content: Content)
    | HumanMessage(content: Content)
    | AiMessage(content: Content)

  /** `msg` is the chat message for `turn`: a human message for a "user" turn,
      an AI message for any other type, with the turn's text. */
  predicate Converts(turn: Turn, msg: ChatMessage)
  {
    && (msg.HumanMessage? <==> turn.kind == "user")
    && (msg.AiMessage? <==> turn.kind != "user")
    && msg.content == Text(turn.content)
  }

  /** The loop that turns the history into chat messages, in order, one per turn. */
  method ConvertHistory(history: seq<Turn>) returns (msgs: seq<ChatMessage>)
    ensures |msgs| == |history|
    ensures forall i :: 0 <= i < |history| ==> Converts(history[i], msgs[i])
  {
    msgs := [];
    for i := 0 to |history|
      invariant |msgs| == i
      invariant forall j :: 0 <= j < i ==> Converts(history[j], msgs[j])
    {
      var turn := history[i];
      if turn.kind == "user" {
        msgs := msgs + [HumanMessage(Text(turn.content))];
      } else {
        msgs := msgs + [AiMessage(Text(turn.content))];
      }
    }
  }

  /** The system prompt of a Socratic request. */
  function SocraticSystem(input: SocraticInput): ChatMessage
  {
    SystemMessage(SocraticPrompt(input.gradeLevel, input.subject, input.emotion, input.tutoringStyle,
                                 StyleGuide(input.tutoringStyle)))
  }

  /** The message list sent to the model: the system prompt, then the history
      in order, then one human message carrying the student's message. */
  predicate Assembled(input: SocraticInput, msgs: seq<ChatMessage>)
  {
    var history := input.conversationHistory;
    && |msgs| == |history| + 2
    && msgs[0] == SocraticSystem(input)
    && (forall i :: 0 <= i < |history| ==> Converts(history[i], msgs[i + 1]))
    && msgs[|history| + 1] == HumanMessage(StudentTurn(input.message))
  }

  method SocraticMessages(input: SocraticInput) returns (msgs: seq<ChatMessage>)
    ensures Assembled(input, msgs)
  {
    var history := ConvertHistory(input.conversationHistory);
    msgs := [SocraticSystem(input)] + history + [HumanMessage(StudentTurn(input.message))];
  }

  /** What the model call gives back: the call (or the `.strip()` of its content)
      raised, or a reply whose stripped text is `content` and whose `json.loads`
      is `parsed` (None: not valid JSON). */
  datatype LlmReply =
    | InvokeFailed
    | Reply(content: string, parsed: Option<Json>)

  /** The service's answer. */
  datatype ServiceResponse =
    | Question(question: string)
    | EmotionReport(emotion: string, adaptedResponse: string)
    | HttpError(status: int, detail: string)

  /** The framework's answer to an exception that leaves a handler. */
  const Uncaught := HttpError(500, "Internal Server Error")
  const BadSocraticJson := "AI model did not return valid JSON for socratic question: "
  const SocraticFailed := "Error generating socratic question."
  const BadEmotionJson := "AI model did not return valid JSON for emotion analysis: "
  const EmotionFailed := "Error processing emotion analysis."

  /** `parsed` is a JSON object whose `key` holds a string. */
  predicate HasString(parsed: Option<Json>, key: string)
  {
    parsed.Some? && parsed.value.JObj? && key in parsed.value.fields && parsed.value.fields[key].JStr?
  }

  /** The Socratic endpoint's `try` block with `json` bound when its `except`
      clauses are evaluated (a module-level import): a question only from a JSON
      object with a string `question`; every other outcome is the handler's own
      500, never the framework's. */
  function SocraticOutcomeIntended(reply: LlmReply): (r: ServiceResponse)
    ensures r.Question? || r.HttpError?
    ensures r.HttpError? ==> r.status == 500 && r != Uncaught
    ensures r.Question? <==> reply.Reply? && HasString(reply.parsed, "question")
    ensures r.Question? ==> r.question == reply.parsed.value.fields["question"].s
    ensures reply.Reply? && reply.parsed.None? ==> r == HttpError(500, BadSocraticJson + reply.content)
    ensures reply.InvokeFailed? ==> r == HttpError(500, SocraticFailed)
  {
    match reply
    case InvokeFailed => HttpError(500, SocraticFailed)
    case Reply(content, parsed) =>
      if parsed.None? then
        assert |BadSocraticJson + content| > |Uncaught.detail|;
        HttpError(500, BadSocraticJson + content)
      else if HasString(parsed, "question") then Question(parsed.value.fields["question"].s)
      else HttpError(500, SocraticFailed)
  }

  /** The Socratic endpoint's `try` block as written. `json` is imported inside
      the handler, so it is a local name; when the model call raises, evaluating
      `except json.JSONDecodeError` raises `UnboundLocalError` and the framework
      answers with its bare 500. Once the reply has arrived, the handler's own
      clauses decide. */
  function SocraticOutcome(reply: LlmReply): (r: ServiceResponse)
    ensures r.Question? || r.HttpError?
    ensures r.HttpError? ==> r.status == 500
    ensures r.Question? <==> reply.Reply? && HasString(reply.parsed, "question")
    ensures r.Question? ==> r.question == reply.parsed.value.fields["question"].s
    ensures reply.Reply? && reply.parsed.None? ==> r == HttpError(500, BadSocraticJson + reply.content)
    ensures reply.Reply? && reply.parsed.Some? && !HasString(reply.parsed, "question") ==> r == HttpError(500, SocraticFailed)
    ensures reply.InvokeFailed? ==> r == Uncaught
  {
    if reply.InvokeFailed? then Uncaught else SocraticOutcomeIntended(reply)
  }

  /** The emotion endpoint's `try` block with `json` bound when its `except`
      clauses are evaluated: a report only from a JSON object with string
      `emotion` and `adaptedResponse`; every other outcome is the handler's own
      500, never the framework's. */
  function EmotionOutcomeIntended(reply: LlmReply): (r: ServiceResponse)
    ensures r.EmotionReport? || r.HttpError?
    ensures r.HttpError? ==> r.status == 500 && r != Uncaught
    ensures r.EmotionReport? <==>
      reply.Reply? && HasString(reply.parsed, "emotion") && HasString(reply.parsed, "adaptedResponse")
    ensures r.EmotionReport? ==>
      && r.emotion == reply.parsed.value.fields["emotion"].s
      && r.adaptedResponse == reply.parsed.value.fields["adaptedResponse"].s
    ensures reply.Reply? && reply.parsed.None? ==> r == HttpError(500, BadEmotionJson + reply.content)
    ensures reply.InvokeFailed? ==> r == HttpError(500, EmotionFailed)
  {
    match reply
    case InvokeFailed => HttpError(500, EmotionFailed)
    case Reply(content, parsed) =>
      if parsed.None? then
        assert |BadEmotionJson + content| > |Uncaught.detail|;
        HttpError(500, BadEmotionJson + content)
      else if HasString(parsed, "emotion") && HasString(parsed, "adaptedResponse") then
        EmotionReport(parsed.value.fields["emotion"].s, parsed.value.fields["adaptedResponse"].s)
      else HttpError(500, EmotionFailed)
  }

  /** The emotion endpoint's `try` block as written: as for the Socratic
      endpoint, a failed model call escapes through `UnboundLocalError` and the
      framework answers with its bare 500. */
  function EmotionOutcome(reply: LlmReply): (r: ServiceResponse)
    ensures r.EmotionReport? || r.HttpError?
    ensures r.HttpError? ==> r.status == 500
    ensures r.EmotionReport? <==>
      reply.Reply? && HasString(reply.parsed, "emotion") && HasString(reply.parsed, "adaptedResponse")
    ensures r.EmotionReport? ==>
      && r.emotion == reply.parsed.value.fields["emotion"].s
      && r.adaptedResponse == reply.parsed.value.fields["adaptedResponse"].s
    ensures reply.Reply? && reply.parsed.None? ==> r == HttpError(500, BadEmotionJson + reply.content)
    ensures reply.Reply? && reply.parsed.Some? && !(HasString(reply.parsed, "emotion") && HasString(reply.parsed, "adaptedResponse")) ==>
      r == HttpError(500, EmotionFailed)
    ensures reply.InvokeFailed? ==> r == Uncaught
  {
    if reply.InvokeFailed? then Uncaught else EmotionOutcomeIntended(reply)
  }

  /** The two readings differ exactly on a failed model call: as written the
      framework's bare 500 goes out, with a module-level import the handler's own
      detail does. On every reply that arrived they agree. */
  lemma FailedCallEscapes(reply: LlmReply)
    ensures SocraticOutcome(reply) != SocraticOutcomeIntended(reply) <==> reply.InvokeFailed?
    ensures EmotionOutcome(reply) != EmotionOutcomeIntended(reply) <==> reply.InvokeFailed?
    ensures reply.InvokeFailed? ==> SocraticOutcome(reply) == Uncaught && EmotionOutcome(reply) == Uncaught
  {
  }

  /** One call of a chat model. */
  datatype Invocation = Invocation(llm: Llm, messages: seq<ChatMessage>)

  /** `/ai/socratic-question`. `reply` is what the model call gives back. */
  method SocraticQuestion(input: SocraticInput, env: ServiceEnv, reply: LlmReply)
    returns (sent: Option<Invocation>, resp: ServiceResponse)
    ensures GetLlm(input.provider, env).Failure? ==> sent.None? && resp == Uncaught
    ensures GetLlm(input.provider, env).Success? ==>
      && sent.Some?
      && sent.value.llm == GetLlm(input.provider, env).value
      && Assembled(input, sent.value.messages)
      && resp == SocraticOutcome(reply)
    ensures resp.HttpError? ==> resp.status == 500
  {
    var llm := GetLlm(input.provider, env);
    if llm.Failure? {
      return None, Uncaught;
    }
    var msgs := SocraticMessages(input);
    sent := Some(Invocation(llm.value, msgs));
    resp := SocraticOutcome(reply);
  }

  /** `/ai/analyze-emotion`. `reply` is what the model call gives back. */
  function AnalyzeEmotion(input: EmotionInput, env: ServiceEnv, reply: LlmReply): (r: (Option<Invocation>, ServiceResponse))
    ensures GetLlm(input.provider, env).Failure? ==> r == (None, Uncaught)
    ensures GetLlm(input.provider, env).Success? ==>
      && r.0 == Some(Invocation(GetLlm(input.provider, env).value,
                                [SystemMessage(EmotionPrompt), HumanMessage(EmotionTurn(input.message))]))
      && r.1 == EmotionOutcome(reply)
    ensures r.1.HttpError? ==> r.1.status == 500
  {
    var llm := GetLlm(input.provider, env);
    if llm.Failure? then (None, Uncaught)
    else (Some(Invocation(llm.value, [SystemMessage(EmotionPrompt), HumanMessage(EmotionTurn(input.message))])),
          EmotionOutcome(reply))
  }

  /** A request that leaves out every optional field is served by Google with
      the balanced guide, and its message list is the system prompt and the
      student's message only. */
  lemma DefaultRequestShape(message: string, subject: string, gradeLevel: int, emotion: string, msgs: seq<ChatMessage>)
    requires Assembled(SocraticInputOf(message, subject, gradeLevel, emotion, None, None, None), msgs)
    ensures SocraticInputOf(message, subject, gradeLevel, emotion, None, None, None).provider == "google"
    ensures StyleGuide(SocraticInputOf(message, subject, gradeLevel, emotion, None, None, None).tutoringStyle) == Balanced
    ensures msgs == [SystemMessage(SocraticPrompt(gradeLevel, subject, emotion, "standard", Balanced)),
                     HumanMessage(StudentTurn(message))]
  {
  }
}
