/**
 * The LLM backend layer of app/services/llm_service.py: the `AIPipeGemini`
 * adapter (message reshaping, the reply it reads, its synchronous stub) and the
 * two factories `get_llm` and `get_llm_with_fallback` that choose a chat model
 * from the settings. The chat libraries themselves are not modelled: a chat
 * model is the record of the arguments it was built with.
 */
module LlmService {
  import opened Results
  import opened Text
  import opened Config

  // ---------------------------------------------------------------------------
  // Messages and the Gemini `contents` list
  // ---------------------------------------------------------------------------

  /** A LangChain message; `OtherMessage` stands for every other message class. */
  datatype Message =
    | HumanMessage(content: string)
    | SystemMessage(content: string)
    | AIMessage(content: string)
    | OtherMessage(content: string)

  /** One entry of the Gemini `contents` list: `{"parts": [{"text": …}], "role": …}`. */
  datatype Part = Part(text: string)
  datatype Content = Content(parts: seq<Part>, role: string)

  const InstructionsPrefix := "Instructions: "

  predicate IsDialogue(m: Message) {
    m.HumanMessage? || m.AIMessage?
  }

  /** A human message speaks as `user`, an AI message as `model`. */
  function ContentOf(m: Message): Content
    requires IsDialogue(m)
  {
    Content([Part(m.content)], if m.HumanMessage? then "user" else "model")
  }

  /** Gemini has no system role: a system message becomes a `user` entry with a prefix. */
  function InstructionOf(text: string): Content {
    Content([Part(InstructionsPrefix + text)], "user")
  }

  /** The system messages of `ms`, as instructions, in the order they were sent. */
  function Instructions(ms: seq<Message>): seq<Content>
    decreases |ms|
  {
    if ms == [] then []
    else
      var last := ms[|ms| - 1];
      Instructions(ms[..|ms| - 1]) + (if last.SystemMessage? then [InstructionOf(last.content)] else [])
  }

  /** The human and AI messages of `ms`, as contents, in the order they were sent. */
  function Dialogue(ms: seq<Message>): seq<Content>
    decreases |ms|
  {
    if ms == [] then []
    else
      var last := ms[|ms| - 1];
      Dialogue(ms[..|ms| - 1]) + (if IsDialogue(last) then [ContentOf(last)] else [])
  }

  function Reversed<T>(s: seq<T>): seq<T>
    decreases |s|
  {
    if s == [] then [] else [s[|s| - 1]] + Reversed(s[..|s| - 1])
  }

  /**
   * The list `_agenerate` sends: the instructions, latest system message first,
   * followed by the dialogue in order.
   */
  function GeminiContents(ms: seq<Message>): seq<Content> {
    Reversed(Instructions(ms)) + Dialogue(ms)
  }

  lemma {:induction false} ReversedAt<T>(s: seq<T>)
    ensures |Reversed(s)| == |s|
    ensures forall i :: 0 <= i < |s| ==> Reversed(s)[i] == s[|s| - 1 - i]
    decreases |s|
  {
    if s != [] {
      ReversedAt(s[..|s| - 1]);
    }
  }

  /**
   * One turn of the conversion loop: a human or AI message is appended, a system
   * message is inserted at the front as an instruction, and any other message is dropped.
   */
  lemma ConvertStep(ms: seq<Message>, m: Message)
    ensures IsDialogue(m) ==> GeminiContents(ms + [m]) == GeminiContents(ms) + [ContentOf(m)]
    ensures m.SystemMessage? ==>
      GeminiContents(ms + [m]) == [InstructionOf(m.content)] + GeminiContents(ms)
    ensures m.OtherMessage? ==> GeminiContents(ms + [m]) == GeminiContents(ms)
  {
    assert (ms + [m])[..|ms|] == ms;
    if m.SystemMessage? {
      var ins := Instructions(ms) + [InstructionOf(m.content)];
      assert ins[..|ins| - 1] == Instructions(ms);
      assert Dialogue(ms + [m]) == Dialogue(ms) + [];
    } else {
      assert Instructions(ms + [m]) == Instructions(ms) + [] == Instructions(ms);
      if IsDialogue(m) {
        assert Dialogue(ms + [m]) == Dialogue(ms) + [ContentOf(m)];
        assert GeminiContents(ms + [m])
            == Reversed(Instructions(ms)) + (Dialogue(ms) + [ContentOf(m)])
            == GeminiContents(ms) + [ContentOf(m)];
      } else {
        assert Dialogue(ms + [m]) == Dialogue(ms) + [] == Dialogue(ms);
      }
    }
  }

  /** `_agenerate`'s loop over the messages, building `contents` by append and `insert(0, …)`. */
  method ConvertMessages(messages: seq<Message>) returns (contents: seq<Content>)
    ensures contents == GeminiContents(messages)
  {
    contents := [];
    var i := 0;
    while i < |messages|
      invariant 0 <= i <= |messages|
      invariant contents == GeminiContents(messages[..i])
    {
      var msg := messages[i];
      ghost var done := messages[..i];
      ConvertStep(done, msg);
      match msg {
        case HumanMessage(text) =>
          contents := contents + [Content([Part(text)], "user")];
        case SystemMessage(text) =>
          contents := [Content([Part(InstructionsPrefix + text)], "user")] + contents;
        case AIMessage(text) =>
          contents := contents + [Content([Part(text)], "model")];
        case OtherMessage(_) =>
      }
      assert contents == GeminiContents(done + [msg]);
      assert messages[..i + 1] == done + [msg];
      i := i + 1;
    }
    assert messages[..|messages|] == messages;
  }

  /** Only system messages: each becomes an instruction, and they come out in reverse order. */
  lemma SystemMessagesInReverse(ms: seq<Message>)
    requires forall i :: 0 <= i < |ms| ==> ms[i].SystemMessage?
    ensures |GeminiContents(ms)| == |ms|
    ensures forall i :: 0 <= i < |ms| ==> GeminiContents(ms)[i] == InstructionOf(ms[|ms| - 1 - i].content)
  {
    InstructionsOfSystemOnly(ms);
    ReversedAt(Instructions(ms));
  }

  lemma {:induction false} InstructionsOfSystemOnly(ms: seq<Message>)
    requires forall i :: 0 <= i < |ms| ==> ms[i].SystemMessage?
    ensures Dialogue(ms) == []
    ensures |Instructions(ms)| == |ms|
    ensures forall i :: 0 <= i < |ms| ==> Instructions(ms)[i] == InstructionOf(ms[i].content)
    decreases |ms|
  {
    if ms != [] {
      InstructionsOfSystemOnly(ms[..|ms| - 1]);
    }
  }

  /** No system or other messages: the contents are the messages one for one, in order. */
  lemma {:induction false} DialogueKeepsOrder(ms: seq<Message>)
    requires forall i :: 0 <= i < |ms| ==> IsDialogue(ms[i])
    ensures |GeminiContents(ms)| == |ms|
    ensures forall i :: 0 <= i < |ms| ==> GeminiContents(ms)[i] == ContentOf(ms[i])
    decreases |ms|
  {
    if ms != [] {
      var init := ms[..|ms| - 1];
      DialogueKeepsOrder(init);
      ConvertStep(init, ms[|ms| - 1]);
      assert init + [ms[|ms| - 1]] == ms;
    }
  }

  // ---------------------------------------------------------------------------
  // Reading the reply
  // ---------------------------------------------------------------------------

  /** A decoded JSON document, as Python holds it after `response.json()`. */
  datatype Json =
    | JNull
    | JBool(b: bool)
    | JNumber(n: int)
    | JString(s: string)
    | JArray(items: seq<Json>)
    | JObject(fields: map<string, Json>)

  /** One subscript: `[key]` or `[index]`. */
  datatype Step = Key(key: string) | At(index: nat)

  /** The exceptions Python's subscript raises. */
  datatype LookupError = KeyError | IndexError | TypeError

  /**
   * Python's subscript on a decoded JSON value. An integer subscript on a dict looks
   * for an integer key, which JSON objects never have; a string subscripted by an
   * integer yields a one-character string; scalars and `None` are not subscriptable.
   */
  function Subscript(j: Json, step: Step): (r: Result<Json, LookupError>)
    ensures r.Err? && r.error == KeyError ==> j.JObject?
    ensures r.Err? && r.error == IndexError ==> j.JArray? || j.JString?
  {
    match step
    case Key(k) =>
      if !j.JObject? then Err(TypeError)
      else if k in j.fields then Ok(j.fields[k])
      else Err(KeyError)
    case At(n) =>
      match j
      case JArray(items) => if n < |items| then Ok(items[n]) else Err(IndexError)
      case JString(s) => if n < |s| then Ok(JString([s[n]])) else Err(IndexError)
      case JObject(_) => Err(KeyError)
      case _ => Err(TypeError)
  }

  /** A chain of subscripts, stopping at the first that raises. */
  function Walk(j: Json, path: seq<Step>): Result<Json, LookupError>
    decreases |path|
  {
    if path == [] then Ok(j)
    else
      match Subscript(j, path[0])
      case Ok(v) => Walk(v, path[1..])
      case Err(e) => Err(e)
  }

  /** Walking a path in two parts is walking the first part, then the second from where it ended. */
  lemma {:induction false} WalkConcat(j: Json, p: seq<Step>, q: seq<Step>)
    ensures Walk(j, p + q) == match Walk(j, p) case Ok(v) => Walk(v, q) case Err(e) => Err(e)
    decreases |p|
  {
    if p == [] {
      assert p + q == q;
    } else {
      assert (p + q)[0] == p[0];
      assert (p + q)[1..] == p[1..] + q;
      match Subscript(j, p[0])
      case Ok(v) => WalkConcat(v, p[1..], q);
      case Err(_) =>
    }
  }

  /** `result["candidates"][0]["content"]["parts"][0]["text"]`. */
  const ResponsePath: seq<Step> :=
    [Key("candidates"), At(0), Key("content"), Key("parts"), At(0), Key("text")]

  /** What a call to the adapter can raise. */
  datatype LlmError =
    | NotImplementedError(message: string)
    | ValueError(message: string)
    /** The `ValueError` raised for an unexpected reply shape; it carries the whole reply. */
    | UnexpectedResponseFormat(response: Json)
    /** A `TypeError` from a subscript, which the `except (KeyError, IndexError)` does not catch. */
    | SubscriptTypeError
    | HttpStatusError(status: int)
    | JsonDecodeError
    | TransportError(reason: string)
    /** `AIMessage(content=…)` refusing a value that is not a string. */
    | ValidationError

  /** The text of the first part of the first candidate, or the error `_agenerate` raises. */
  function ExtractText(response: Json): Result<string, LlmError> {
    match Walk(response, ResponsePath)
    case Ok(JString(text)) => Ok(text)
    case Ok(_) => Err(ValidationError)
    case Err(TypeError) => Err(SubscriptTypeError)
    case Err(_) => Err(UnexpectedResponseFormat(response))
  }

  /**
   * A reply Gemini gives when it answers `text`: whatever other fields the reply,
   * the first candidate, its content and its first part carry, and whatever further
   * candidates and parts follow the first ones.
   */
  function GeminiReply(text: string, reply: map<string, Json>, candidate: map<string, Json>,
                       content: map<string, Json>, part: map<string, Json>,
                       moreParts: seq<Json>, moreCandidates: seq<Json>): Json {
    var first := JObject(part["text" := JString(text)]);
    var body := JObject(content["parts" := JArray([first] + moreParts)]);
    JObject(reply["candidates" := JArray([JObject(candidate["content" := body])] + moreCandidates)])
  }

  /** The extraction reads back exactly the text a well-formed reply carries at the first part of the first candidate. */
  lemma ExtractReadsReply(text: string, reply: map<string, Json>, candidate: map<string, Json>,
                          content: map<string, Json>, part: map<string, Json>,
                          moreParts: seq<Json>, moreCandidates: seq<Json>)
    ensures ExtractText(GeminiReply(text, reply, candidate, content, part, moreParts, moreCandidates)) == Ok(text)
  {
    var r := GeminiReply(text, reply, candidate, content, part, moreParts, moreCandidates);
    var first := r.fields["candidates"].items[0];
    var body := first.fields["content"];
    var firstPart := body.fields["parts"].items[0];
    assert Walk(firstPart, ResponsePath[5..]) == Ok(JString(text));
    assert Walk(body.fields["parts"], ResponsePath[4..]) == Ok(JString(text));
    assert Walk(body, ResponsePath[3..]) == Ok(JString(text));
    assert Walk(first, ResponsePath[2..]) == Ok(JString(text));
    assert Walk(r.fields["candidates"], ResponsePath[1..]) == Ok(JString(text));
  }

  /** A reply object without `candidates`, or with an empty list of them, is a `ValueError`. */
  lemma MissingCandidatesIsValueError(fields: map<string, Json>)
    requires "candidates" !in fields || fields["candidates"] == JArray([])
    ensures ExtractText(JObject(fields)) == Err(UnexpectedResponseFormat(JObject(fields)))
  {
    if "candidates" in fields {
      assert Walk(fields["candidates"], ResponsePath[1..]) == Err(IndexError);
    }
  }

  /** A reply that is a JSON array or a string raises the `TypeError`, which is not converted. */
  lemma NonObjectReplyEscapes(response: Json)
    requires response.JArray? || response.JString?
    ensures ExtractText(response) == Err(SubscriptTypeError)
  {
  }

  /** Only the first candidate and its first part are read: later ones never change the text. */
  lemma {:induction false} FirstCandidateDecides(fields: map<string, Json>, first: Json, rest: seq<Json>)
    ensures var full := ExtractText(JObject(fields["candidates" := JArray([first] + rest)]));
      var single := ExtractText(JObject(fields["candidates" := JArray([first])]));
      && (full.Ok? <==> single.Ok?)
      && (full.Ok? ==> full.value == single.value)
      && (full.Err? ==> full.error.UnexpectedResponseFormat? == single.error.UnexpectedResponseFormat?)
  {
    var full := JObject(fields["candidates" := JArray([first] + rest)]);
    var single := JObject(fields["candidates" := JArray([first])]);
    var tail := ResponsePath[2..];
    assert ResponsePath == ResponsePath[..2] + tail;
    WalkConcat(full, ResponsePath[..2], tail);
    WalkConcat(single, ResponsePath[..2], tail);
    assert Walk(full, ResponsePath[..2]) == Ok(first) by {
      assert Walk(JArray([first] + rest), ResponsePath[1..2]) == Ok(first);
    }
    assert Walk(single, ResponsePath[..2]) == Ok(first) by {
      assert Walk(JArray([first]), ResponsePath[1..2]) == Ok(first);
    }
  }

  // ---------------------------------------------------------------------------
  // The AIPipe adapter
  // ---------------------------------------------------------------------------

  /** An `AIPipeGemini` chat model: its token, model name and output-token budget. */
  datatype AIPipeClient = AIPipeClient(token: string, model: string, maxTokens: int)

  const DefaultMaxTokens := 4096

  /** The request `_agenerate` sends, without its transport-only fields. */
  datatype GeminiRequest = GeminiRequest(
    url: string, authorization: string, contents: seq<Content>, maxOutputTokens: int)

  /** What the HTTP exchange produced: a response (with a body that may not parse) or a raised error. */
  datatype HttpOutcome = Response(status: int, body: Option<Json>) | TransportFailure(reason: string)

  datatype ChatGeneration = ChatGeneration(message: Message)
  datatype ChatResult = ChatResult(generations: seq<ChatGeneration>)

  function GenerateUrl(model: string): string {
    "https://aipipe.org/geminiv1beta/models/" + model + ":generateContent"
  }

  /** `raise_for_status` lets through 2xx statuses only. */
  predicate IsSuccess(status: int) {
    200 <= status < 300
  }

  /**
   * `AIPipeGemini._agenerate`: convert the messages, post them, and turn the reply
   * into one generation holding an AI message with the extracted text.
   */
  method AGenerate(client: AIPipeClient, messages: seq<Message>, outcome: HttpOutcome)
    returns (r: Result<ChatResult, LlmError>, ghost sent: GeminiRequest)
    ensures sent == GeminiRequest(GenerateUrl(client.model), "Bearer " + client.token,
                                  GeminiContents(messages), client.maxTokens)
    ensures outcome.TransportFailure? ==> r == Err(TransportError(outcome.reason))
    ensures outcome.Response? && !IsSuccess(outcome.status) ==> r == Err(HttpStatusError(outcome.status))
    ensures outcome.Response? && IsSuccess(outcome.status) && outcome.body.None? ==> r == Err(JsonDecodeError)
    ensures outcome.Response? && IsSuccess(outcome.status) && outcome.body.Some? ==>
      var extracted := ExtractText(outcome.body.value);
      && (r.Ok? <==> extracted.Ok?)
      && (r.Ok? ==> r.value == ChatResult([ChatGeneration(AIMessage(extracted.value))]))
      && (r.Err? ==> r.error == extracted.error)
  {
    var contents := ConvertMessages(messages);
    sent := GeminiRequest(GenerateUrl(client.model), "Bearer " + client.token, contents, client.maxTokens);
    match outcome
    case TransportFailure(reason) =>
      r := Err(TransportError(reason));
    case Response(status, body) =>
      if !IsSuccess(status) {
        r := Err(HttpStatusError(status));
      } else if body.None? {
        r := Err(JsonDecodeError);
      } else {
        match ExtractText(body.value)
        case Ok(text) =>
          r := Ok(ChatResult([ChatGeneration(AIMessage(text))]));
        case Err(e) =>
          r := Err(e);
      }
  }

  /** `AIPipeGemini._generate`: the synchronous path is not offered. */
  function Generate(client: AIPipeClient, messages: seq<Message>): (r: Result<ChatResult, LlmError>)
    ensures r.Err? && r.error == NotImplementedError("Use ainvoke() for async calls")
  {
    Err(NotImplementedError("Use ainvoke() for async calls"))
  }

  // ---------------------------------------------------------------------------
  // Choosing a chat model
  // ---------------------------------------------------------------------------

  /**
   * A chat model, as the arguments it was built with. `None` is an argument the
   * factory did not pass, so the library's own default (or environment) applies.
   */
  datatype ChatModel =
    | ChatOpenAI(model: string, apiKey: Option<string>, maxRetries: Option<int>)
    | ChatGoogleGenerativeAI(model: string, googleApiKey: Option<string>,
                             maxOutputTokens: Option<int>, maxRetries: Option<int>)
    | AIPipeGemini(client: AIPipeClient)
    | ChatOllama(model: string, baseUrl: string, numPredict: Option<int>)

  const ModelsPrefix := "models/"

  /** The `models/` prefix rule for Gemini model names. */
  function NormalizeGeminiModel(name: string): (r: string)
    ensures StartsWith(r, ModelsPrefix)
    ensures StartsWith(name, ModelsPrefix) ==> r == name
    ensures !StartsWith(name, ModelsPrefix) ==> r == ModelsPrefix + name
  {
    if StartsWith(name, ModelsPrefix) then name else ModelsPrefix + name
  }

  /** Applying the rule twice is applying it once. */
  lemma NormalizeIdempotent(name: string)
    ensures NormalizeGeminiModel(NormalizeGeminiModel(name)) == NormalizeGeminiModel(name)
  {
  }

  /** The provider a chat model belongs to. */
  function ProviderOf(m: ChatModel): Provider {
    match m
    case ChatOpenAI(_, _, _) => OpenAI
    case ChatGoogleGenerativeAI(_, _, _, _) => Gemini
    case AIPipeGemini(_) => AIPipe
    case ChatOllama(_, _, _) => Ollama
  }

  /** The credential `get_llm` demands for a provider, if any. */
  function CredentialFor(s: Settings): Option<Option<string>> {
    match s.llmProvider
    case OpenAI => Some(s.openaiApiKey)
    case Gemini => Some(s.googleApiKey)
    case AIPipe => Some(s.aipipeToken)
    case _ => None
  }

  /** `get_llm`: the model for the configured provider, or the `ValueError` it raises. */
  function GetLlm(s: Settings): (r: Result<ChatModel, LlmError>)
    ensures r.Ok? <==>
      (!s.llmProvider.Unsupported? && (CredentialFor(s).Some? ==> Present(CredentialFor(s).value)))
    ensures r.Ok? ==> ProviderOf(r.value) == s.llmProvider
    ensures r.Err? ==> r.error.ValueError?
  {
    match s.llmProvider
    case OpenAI =>
      if !Present(s.openaiApiKey) then
        Err(ValueError("OPENAI_API_KEY is required when using OpenAI provider"))
      else
        Ok(ChatOpenAI(s.openaiModel, s.openaiApiKey, None))
    case Gemini =>
      if !Present(s.googleApiKey) then
        Err(ValueError("GOOGLE_API_KEY is required when using Gemini provider"))
      else
        Ok(ChatGoogleGenerativeAI(NormalizeGeminiModel(s.geminiModel), s.googleApiKey,
                                  Some(s.llmMaxTokens), None))
    case AIPipe =>
      if !Present(s.aipipeToken) then
        Err(ValueError("AIPIPE_TOKEN is required when using AIPipe provider"))
      else
        Ok(AIPipeGemini(AIPipeClient(s.aipipeToken.value, s.aipipeGeminiModel, s.llmMaxTokens)))
    case Ollama =>
      Ok(ChatOllama(s.ollamaModel, s.ollamaBaseUrl, Some(s.llmMaxTokens)))
    case Unsupported(name) =>
      Err(ValueError("Unsupported LLM provider: " + name))
  }

  /** The model `get_llm` builds carries the configured credential, model name and token budget. */
  lemma GetLlmUsesSettings(s: Settings)
    requires GetLlm(s).Ok?
    ensures var m := GetLlm(s).value;
      match m
      case ChatOpenAI(model, key, _) => model == s.openaiModel && key == s.openaiApiKey
      case ChatGoogleGenerativeAI(model, key, budget, _) =>
        model == NormalizeGeminiModel(s.geminiModel) && key == s.googleApiKey && budget == Some(s.llmMaxTokens)
      case AIPipeGemini(client) =>
        Some(client.token) == s.aipipeToken && client.model == s.aipipeGeminiModel && client.maxTokens == s.llmMaxTokens
      case ChatOllama(model, url, budget) =>
        model == s.ollamaModel && url == s.ollamaBaseUrl && budget == Some(s.llmMaxTokens)
  {
  }

  /** A primary model, optionally wrapped with the models tried after it fails. */
  datatype Runnable = Model(model: ChatModel) | WithFallbacks(primary: ChatModel, fallbacks: seq<ChatModel>)

  /** Every model a runnable may try, in the order it tries them. */
  function Chain(r: Runnable): seq<ChatModel> {
    match r
    case Model(m) => [m]
    case WithFallbacks(primary, fallbacks) => [primary] + fallbacks
  }

  /** The position of a provider in the fallback order OpenAI, Gemini, AIPipe, Ollama. */
  function Rank(m: ChatModel): nat {
    match m
    case ChatOpenAI(_, _, _) => 0
    case ChatGoogleGenerativeAI(_, _, _, _) => 1
    case AIPipeGemini(_) => 2
    case ChatOllama(_, _, _) => 3
  }

  predicate Includes(llms: seq<ChatModel>, p: Provider) {
    exists i :: 0 <= i < |llms| && ProviderOf(llms[i]) == p
  }

  function OnlyIf(condition: bool, m: ChatModel): seq<ChatModel> {
    if condition then [m] else []
  }

  /** The list `get_llm_with_fallback` builds, one conditional append after another. */
  function FallbackCandidates(s: Settings): seq<ChatModel> {
    var groups := CandidateGroups(s);
    groups[0] + groups[1] + groups[2] + groups[3]
  }

  lemma IncludesConcat(a: seq<ChatModel>, b: seq<ChatModel>, p: Provider)
    ensures Includes(a + b, p) <==> Includes(a, p) || Includes(b, p)
  {
    if Includes(a, p) {
      var i :| 0 <= i < |a| && ProviderOf(a[i]) == p;
      assert (a + b)[i] == a[i];
    }
    if Includes(b, p) {
      var i :| 0 <= i < |b| && ProviderOf(b[i]) == p;
      assert (a + b)[|a| + i] == b[i];
    }
    if Includes(a + b, p) {
      var i :| 0 <= i < |a + b| && ProviderOf((a + b)[i]) == p;
      if i < |a| {
        assert ProviderOf(a[i]) == p;
      } else {
        assert ProviderOf(b[i - |a|]) == p;
      }
    }
  }

  /**
   * The four groups the fallback list is made of, in order: each cloud model whose
   * credential is set, then the local Ollama model, which is always there.
   */
  function CandidateGroups(s: Settings): seq<seq<ChatModel>> {
    [OnlyIf(Present(s.openaiApiKey), ChatOpenAI(s.openaiModel, None, Some(0))),
     OnlyIf(Present(s.googleApiKey),
            ChatGoogleGenerativeAI(NormalizeGeminiModel(s.geminiModel), None, None, Some(0))),
     OnlyIf(Present(s.aipipeToken),
            AIPipeGemini(AIPipeClient(if s.aipipeToken.Some? then s.aipipeToken.value else "",
                                      s.aipipeGeminiModel, DefaultMaxTokens))),
     [ChatOllama(s.ollamaModel, s.ollamaBaseUrl, None)]]
  }

  /**
   * Each cloud provider is tried iff its credential is set, and the local Ollama
   * model is always there, last, and only there; so the list is never empty.
   */
  lemma FallbackMembers(s: Settings)
    ensures var llms := FallbackCandidates(s);
      && |llms| >= 1
      && (Includes(llms, OpenAI) <==> Present(s.openaiApiKey))
      && (Includes(llms, Gemini) <==> Present(s.googleApiKey))
      && (Includes(llms, AIPipe) <==> Present(s.aipipeToken))
      && llms[|llms| - 1] == ChatOllama(s.ollamaModel, s.ollamaBaseUrl, None)
      && !Includes(llms[..|llms| - 1], Ollama)
  {
    var groups := CandidateGroups(s);
    var a, g, p, o := groups[0], groups[1], groups[2], groups[3];
    var llms := FallbackCandidates(s);
    assert llms == a + g + p + o;
    assert llms[..|llms| - 1] == a + g + p;
    IncludesGroups(a, g, p, o, OpenAI);
    IncludesGroups(a, g, p, o, Gemini);
    IncludesGroups(a, g, p, o, AIPipe);
    IncludesGroups(a, g, p, o, Ollama);
    assert ProviderOf(o[0]) == Ollama;
    if Present(s.openaiApiKey) {
      assert ProviderOf(a[0]) == OpenAI;
    }
    if Present(s.googleApiKey) {
      assert ProviderOf(g[0]) == Gemini;
    }
    if Present(s.aipipeToken) {
      assert ProviderOf(p[0]) == AIPipe;
    }
  }

  lemma IncludesGroups(a: seq<ChatModel>, g: seq<ChatModel>, p: seq<ChatModel>, o: seq<ChatModel>,
                       provider: Provider)
    ensures Includes(a + g + p + o, provider) <==>
      (Includes(a, provider) || Includes(g, provider) || Includes(p, provider) || Includes(o, provider))
    ensures Includes(a + g + p, provider) <==>
      (Includes(a, provider) || Includes(g, provider) || Includes(p, provider))
  {
    IncludesConcat(a, g, provider);
    IncludesConcat(a + g, p, provider);
    IncludesConcat(a + g + p, o, provider);
  }

  predicate Ascending(llms: seq<ChatModel>) {
    forall i, j :: 0 <= i < j < |llms| ==> Rank(llms[i]) < Rank(llms[j])
  }

  lemma AscendingConcat(a: seq<ChatModel>, b: seq<ChatModel>)
    requires Ascending(a) && Ascending(b)
    requires forall i, j :: 0 <= i < |a| && 0 <= j < |b| ==> Rank(a[i]) < Rank(b[j])
    ensures Ascending(a + b)
  {
  }

  /** The candidates come in the order OpenAI, Gemini, AIPipe, Ollama, with no provider twice. */
  lemma FallbackRanked(s: Settings)
    ensures Ascending(FallbackCandidates(s))
  {
    var groups := CandidateGroups(s);
    var a, g, p, o := groups[0], groups[1], groups[2], groups[3];
    assert FallbackCandidates(s) == a + g + p + o;
    AscendingConcat(a, g);
    AscendingConcat(a + g, p);
    AscendingConcat(a + g + p, o);
  }

  /**
   * `get_llm_with_fallback`: the candidate list built by conditional appends, the
   * first as primary and the rest as fallbacks.
   */
  method GetLlmWithFallback(s: Settings) returns (r: Result<Runnable, LlmError>)
    ensures r.Ok?
    ensures Chain(r.value) == FallbackCandidates(s)
    ensures r.value.WithFallbacks? <==> |FallbackCandidates(s)| > 1
  {
    ghost var groups := CandidateGroups(s);
    var llms: seq<ChatModel> := [];
    if Present(s.openaiApiKey) {
      llms := llms + [ChatOpenAI(s.openaiModel, None, Some(0))];
    }
    if Present(s.googleApiKey) {
      var geminiModel := s.geminiModel;
      if !StartsWith(geminiModel, ModelsPrefix) {
        geminiModel := ModelsPrefix + geminiModel;
      }
      llms := llms + [ChatGoogleGenerativeAI(geminiModel, None, None, Some(0))];
    }
    assert llms == groups[0] + groups[1];
    if Present(s.aipipeToken) {
      llms := llms + [AIPipeGemini(AIPipeClient(s.aipipeToken.value, s.aipipeGeminiModel, DefaultMaxTokens))];
    }
    assert llms == groups[0] + groups[1] + groups[2];
    llms := llms + [ChatOllama(s.ollamaModel, s.ollamaBaseUrl, None)];
    assert llms == FallbackCandidates(s);
    if llms == [] {
      r := Err(ValueError("No LLM providers configured"));
      return;
    }
    var primary := llms[0];
    if |llms| > 1 {
      r := Ok(WithFallbacks(primary, llms[1..]));
    } else {
      r := Ok(Model(primary));
    }
    assert Chain(r.value) == llms;
  }
}
