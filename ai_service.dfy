/**
 * The AI-provider service: which provider `generate_text` takes and how its
 * failures reach the client, the generation config handed to the Google SDK,
 * the text parts `multi_modal_chat` extracts from a conversation, and the
 * health, model and provider listings. Whether the SDK is installed, the API
 * keys read from the environment and what the SDK answers are parameters.
 */
module AiService {
  import opened Wrappers
  import opened Errors
  import opened Json
  import opened Text
  import opened Infrastructure

  /** An `AIRequest` body; unset optional fields are `None`. */
  datatype AiRequest = AiRequest(
    prompt: string,
    provider: string,
    model: string,
    maxTokens: Option<int>,
    temperature: Option<real>,
    thinkingLevel: Option<string>,
    enableThinking: Option<bool>,
    enableTools: Option<bool>,
    stream: Option<bool>)

  /** A request naming only its prompt: the declared field defaults. */
  function DefaultRequest(prompt: string): (r: AiRequest)
    ensures r.prompt == prompt && r.provider == "google" && r.model == "gemini-3-pro-preview"
    ensures r.maxTokens.None? && r.enableThinking == Some(true) && r.enableTools == Some(false)
  {
    AiRequest(prompt, "google", "gemini-3-pro-preview", None, Some(0.7), Some("medium"), Some(true), Some(false), Some(true))
  }

  /** Python truthiness of an optional flag. */
  predicate IsSet(flag: Option<bool>) {
    flag == Some(true)
  }

  /** Python truthiness of the optional `max_tokens`: `None` and 0 are both false. */
  predicate HasMaxTokens(request: AiRequest) {
    request.maxTokens.Some? && request.maxTokens.value != 0
  }

  /** The SDK's answer to `generate_content`: the response text, or the text of what it raised. */
  type SdkReply = Result<string, string>

  // ---------------------------------------------------------------------------
  // The generation config of `_generate_with_google`.
  // ---------------------------------------------------------------------------

  datatype ConfigValue =
    | Number(value: Option<real>)
    | Count(n: int)
    | SearchTools(count: nat)
    | ToolConfig(mode: string, allowedFunctionNames: seq<string>)

  type Config = seq<(string, ConfigValue)>

  function Keys(config: Config): (r: seq<string>)
    ensures |r| == |config|
    ensures forall i :: 0 <= i < |config| ==> r[i] == config[i].0
  {
    seq(|config|, i requires 0 <= i < |config| => config[i].0)
  }

  /** `config[key] = value`: a present key keeps its place and takes the new value, a new key is appended. */
  function Put(config: Config, key: string, value: ConfigValue): (r: Config)
    ensures key !in Keys(config) ==> r == config + [(key, value)]
    ensures key in Keys(config) ==> |r| == |config|
  {
    if key in Keys(config) then
      seq(|config|, i requires 0 <= i < |config| => if config[i].0 == key then (key, value) else config[i])
    else config + [(key, value)]
  }

  const SearchToolConfig := ToolConfig("ANY", ["google_search"])

  /** The config the Google path builds, key by key, as a function of the request. */
  function GenerationConfig(request: AiRequest): Config {
    var base := [("temperature", Number(request.temperature)), ("top_p", Number(Some(0.8))), ("top_k", Count(40))];
    var withMax := if HasMaxTokens(request) then base + [("max_output_tokens", Count(request.maxTokens.value))] else base;
    if IsSet(request.enableTools) && IsSet(request.enableThinking) then
      withMax + [("tools", SearchTools(1)), ("tool_config", SearchToolConfig)]
    else withMax
  }

  /** The dict updates of `_generate_with_google`, one after another. */
  method BuildGenerationConfig(request: AiRequest) returns (config: Config)
    ensures config == GenerationConfig(request)
  {
    config := [("temperature", Number(request.temperature)), ("top_p", Number(Some(0.8))), ("top_k", Count(40))];
    assert Keys(config) == ["temperature", "top_p", "top_k"];
    if HasMaxTokens(request) {
      config := Put(config, "max_output_tokens", Count(request.maxTokens.value));
    }
    ghost var keys := Keys(config);
    assert "tools" !in keys && "tool_config" !in keys;
    var tools: nat := 0;
    if IsSet(request.enableTools) {
      tools := tools + 1;
      if IsSet(request.enableThinking) {
        config := Put(config, "tools", SearchTools(tools));
        assert Keys(config) == keys + ["tools"];
        config := Put(config, "tool_config", SearchToolConfig);
      }
    }
  }

  /**
   * The config always starts with temperature, top_p and top_k; it holds
   * `max_output_tokens` exactly when `max_tokens` is truthy, and `tools`
   * and `tool_config` exactly when both tools and thinking are enabled.
   */
  lemma GenerationConfigKeys(request: AiRequest)
    ensures var keys := Keys(GenerationConfig(request));
            && keys[..3] == ["temperature", "top_p", "top_k"]
            && ("max_output_tokens" in keys <==> HasMaxTokens(request))
            && ("tools" in keys <==> IsSet(request.enableTools) && IsSet(request.enableThinking))
            && ("tool_config" in keys <==> IsSet(request.enableTools) && IsSet(request.enableThinking))
            && |keys| == 3 + (if HasMaxTokens(request) then 1 else 0)
                           + (if IsSet(request.enableTools) && IsSet(request.enableThinking) then 2 else 0)
  {
    var keys := Keys(GenerationConfig(request));
    var base := ["temperature", "top_p", "top_k"];
    if HasMaxTokens(request) {
      if IsSet(request.enableTools) && IsSet(request.enableThinking) {
        assert keys == base + ["max_output_tokens", "tools", "tool_config"];
      } else {
        assert keys == base + ["max_output_tokens"];
      }
    } else {
      if IsSet(request.enableTools) && IsSet(request.enableThinking) {
        assert keys == base + ["tools", "tool_config"];
      } else {
        assert keys == base;
      }
    }
  }

  // ---------------------------------------------------------------------------
  // `generate_text` and its two providers.
  // ---------------------------------------------------------------------------

  /** The dict `_generate_with_google` returns; usage and safety ratings come from the SDK and are left out. */
  function TextResult(text: string, model: string): Json {
    JObject([("success", JBool(true)), ("text", JString(text)), ("provider", JString("google")), ("model", JString(model))])
  }

  /** `_generate_with_google`: 503 without the SDK, a 500 for anything the SDK raises. */
  function GenerateWithGoogle(request: AiRequest, sdkAvailable: bool, reply: SdkReply): (r: Result<Json, Exc>)
    ensures !sdkAvailable ==> r == Err(HttpException(503, "Google Generative AI SDK not available"))
    ensures sdkAvailable && reply.Err? ==> r == Err(HttpException(500, "Google AI generation failed: " + reply.error))
    ensures r.Ok? <==> sdkAvailable && reply.Ok?
  {
    if !sdkAvailable then Err(HttpException(503, "Google Generative AI SDK not available"))
    else if reply.Err? then Err(HttpException(500, "Google AI generation failed: " + reply.error))
    else Ok(TextResult(reply.value, request.model))
  }

  /** `_generate_with_openai`: not implemented, always a 503. */
  function GenerateWithOpenAi(request: AiRequest): (r: Result<Json, Exc>)
    ensures r == Err(HttpException(503, "OpenAI provider not yet implemented"))
  {
    Err(HttpException(503, "OpenAI provider not yet implemented"))
  }

  /** `generate_text`: dispatch on the provider; whatever is raised comes back as a 500. */
  function GenerateText(request: AiRequest, sdkAvailable: bool, reply: SdkReply): Result<Json, Exc> {
    var outcome :=
      if request.provider == "google" then GenerateWithGoogle(request, sdkAvailable, reply)
      else if request.provider == "openai" then GenerateWithOpenAi(request)
      else Err(ValueError("Unsupported provider: " + request.provider));
    if outcome.Ok? then outcome
    else Err(HttpException(500, "Text generation failed: " + Str(outcome.error)))
  }

  /**
   * Only the Google provider with the SDK installed and answering succeeds;
   * every failure is a 500 whose detail starts with "Text generation failed: ".
   */
  lemma GenerateTextOutcome(request: AiRequest, sdkAvailable: bool, reply: SdkReply)
    ensures var r := GenerateText(request, sdkAvailable, reply);
            && (r.Ok? <==> request.provider == "google" && sdkAvailable && reply.Ok?)
            && (r.Ok? ==> r.value == TextResult(reply.value, request.model))
            && (r.Err? ==> r.error.HttpException? && r.error.status == 500 && StartsWith(r.error.detail, "Text generation failed: "))
  {
    var prefix := "Text generation failed: ";
    var r := GenerateText(request, sdkAvailable, reply);
    if r.Err? {
      assert r.error.detail[..|prefix|] == prefix;
    }
  }

  /** The OpenAI provider always fails: its 503, printed as "503: " and its detail, comes back inside a 500. */
  lemma GenerateTextOpenAi(request: AiRequest, sdkAvailable: bool, reply: SdkReply)
    requires request.provider == "openai"
    ensures GenerateText(request, sdkAvailable, reply)
         == Err(HttpException(500, "Text generation failed: " + ("503: " + "OpenAI provider not yet implemented")))
  {
    Status503();
  }

  /** Without the SDK the Google provider's 503 comes back inside a 500 too. */
  lemma GenerateTextWithoutSdk(request: AiRequest, reply: SdkReply)
    requires request.provider == "google"
    ensures GenerateText(request, false, reply)
         == Err(HttpException(500, "Text generation failed: " + ("503: " + "Google Generative AI SDK not available")))
  {
    Status503();
  }

  /** Any other provider is refused by name. */
  lemma GenerateTextUnsupported(request: AiRequest, sdkAvailable: bool, reply: SdkReply)
    requires request.provider != "google" && request.provider != "openai"
    ensures GenerateText(request, sdkAvailable, reply)
         == Err(HttpException(500, "Text generation failed: " + ("Unsupported provider: " + request.provider)))
  {
  }

  lemma Status503()
    ensures IntToString(503) + ": " == "503: "
  {
    assert NatToString(5) == "5";
    assert NatToString(50) == "50";
  }

  // ---------------------------------------------------------------------------
  // `multi_modal_chat`.
  // ---------------------------------------------------------------------------

  /** What one item of a list content adds: the text of a text part, nothing for any other part. */
  function PartText(part: Json): Result<seq<Json>, Exc> {
    var partType :- Subscript(part, "type");
    if partType == JString("text") then
      var text :- Subscript(part, "text");
      Ok([text])
    else Ok([])
  }

  /** The parts of a list content, in order; the first error stops the loop. */
  function ListParts(parts: seq<Json>): Result<seq<Json>, Exc> {
    if parts == [] then Ok([])
    else
      var head :- PartText(parts[0]);
      PrependOk(head, ListParts(parts[1..]))
  }

  /** What one message adds: only a user message counts; a string content whole, a list content part by part. */
  function MessageParts(message: seq<(string, Json)>): Result<seq<Json>, Exc> {
    var role :- Subscript(JObject(message), "role");
    if role != JString("user") then Ok([])
    else
      var content :- Subscript(JObject(message), "content");
      match content
      case JString(_) => Ok([content])
      case JArray(parts) => ListParts(parts)
      case _ => Ok([])
  }

  /** The `content_parts` the message loop builds. */
  function ContentParts(messages: seq<seq<(string, Json)>>): Result<seq<Json>, Exc> {
    if messages == [] then Ok([])
    else
      var head :- MessageParts(messages[0]);
      PrependOk(head, ContentParts(messages[1..]))
  }

  /** The inner loop over a list content. */
  method CollectListParts(parts: seq<Json>) returns (r: Result<seq<Json>, Exc>)
    ensures r == ListParts(parts)
  {
    var collected: seq<Json> := [];
    var j := 0;
    assert parts[0..] == parts;
    PrependNil(ListParts(parts));
    while j < |parts|
      invariant 0 <= j <= |parts|
      invariant ListParts(parts) == PrependOk(collected, ListParts(parts[j..]))
    {
      assert parts[j..][0] == parts[j] && parts[j..][1..] == parts[j + 1..];
      var part := PartText(parts[j]);
      if part.Err? {
        return Err(part.error);
      }
      PrependAssoc(collected, part.value, ListParts(parts[j + 1..]));
      collected := collected + part.value;
      j := j + 1;
    }
    assert parts[j..] == [] && collected + [] == collected;
    r := Ok(collected);
  }

  /** The outer loop over the messages. */
  method CollectContentParts(messages: seq<seq<(string, Json)>>) returns (r: Result<seq<Json>, Exc>)
    ensures r == ContentParts(messages)
  {
    var collected: seq<Json> := [];
    var i := 0;
    assert messages[0..] == messages;
    PrependNil(ContentParts(messages));
    while i < |messages|
      invariant 0 <= i <= |messages|
      invariant ContentParts(messages) == PrependOk(collected, ContentParts(messages[i..]))
    {
      assert messages[i..][0] == messages[i] && messages[i..][1..] == messages[i + 1..];
      var added: Result<seq<Json>, Exc>;
      var role := Subscript(JObject(messages[i]), "role");
      if role.Err? {
        added := Err(role.error);
      } else if role.value != JString("user") {
        added := Ok([]);
      } else {
        var content := Subscript(JObject(messages[i]), "content");
        if content.Err? {
          added := Err(content.error);
        } else if content.value.JString? {
          added := Ok([content.value]);
        } else if content.value.JArray? {
          added := CollectListParts(content.value.items);
        } else {
          added := Ok([]);
        }
      }
      assert added == MessageParts(messages[i]);
      if added.Err? {
        return Err(added.error);
      }
      PrependAssoc(collected, added.value, ContentParts(messages[i + 1..]));
      collected := collected + added.value;
      i := i + 1;
    }
    assert messages[i..] == [] && collected + [] == collected;
    r := Ok(collected);
  }

  /** A message whose role is not "user" adds nothing. */
  lemma NonUserMessageAddsNothing(message: seq<(string, Json)>)
    requires Get(message, "role").Some? && Get(message, "role").value != JString("user")
    ensures MessageParts(message) == Ok([])
  {
  }

  /** A user message with string content adds exactly that string. */
  lemma StringContentAddedWhole(message: seq<(string, Json)>, text: string)
    requires Get(message, "role") == Some(JString("user")) && Get(message, "content") == Some(JString(text))
    ensures MessageParts(message) == Ok([JString(text)])
  {
  }

  /** A file part adds nothing; a text part adds its text. */
  lemma PartTextOf(partType: string, text: Json)
    ensures PartText(JObject([("type", JString(partType)), ("text", text)]))
         == if partType == "text" then Ok([text]) else Ok([])
  {
    GetAt([("type", JString(partType)), ("text", text)], 1);
  }

  /**
   * The parts of two runs of messages are those of the first, then those of
   * the second; an error in the second run is the error of the whole.
   */
  lemma {:induction false} ContentPartsAppend(a: seq<seq<(string, Json)>>, b: seq<seq<(string, Json)>>)
    requires ContentParts(a).Ok?
    ensures ContentParts(a + b) == PrependOk(ContentParts(a).value, ContentParts(b))
  {
    if a == [] {
      assert a + b == b;
      PrependNil(ContentParts(b));
    } else {
      var ab := a + b;
      assert ab[0] == a[0] && ab[1..] == a[1..] + b;
      var head := MessageParts(a[0]).value;
      var rest := ContentParts(a[1..]).value;
      ContentPartsAppend(a[1..], b);
      PrependAssoc(head, rest, ContentParts(b));
    }
  }

  /** Only user messages contribute: a conversation with no user message yields no parts. */
  lemma {:induction false} NoUserNoParts(messages: seq<seq<(string, Json)>>)
    requires forall i :: 0 <= i < |messages| ==>
               Get(messages[i], "role").Some? && Get(messages[i], "role").value != JString("user")
    ensures ContentParts(messages) == Ok([])
  {
    if messages != [] {
      NonUserMessageAddsNothing(messages[0]);
      NoUserNoParts(messages[1..]);
      var none: seq<Json> := [];
      assert none + none == none;
    }
  }

  /** The dict `multi_modal_chat` returns. */
  function MultiModalResult(text: string, messages: seq<seq<(string, Json)>>): Json {
    JObject([("success", JBool(true)), ("response", JString(text)),
             ("messages", JArray(seq(|messages|, i requires 0 <= i < |messages| => JObject(messages[i])))),
             ("provider", JString("google")), ("model", JString("gemini-3-pro-preview"))])
  }

  const GenaiUndefined := NameError("name 'genai' is not defined")

  /**
   * `multi_modal_chat`: the model is made first (without the SDK the name
   * `genai` is undefined), then the parts are collected and sent. Whatever
   * is raised becomes a 500. `reply` is what the SDK answers for the parts.
   */
  method MultiModalChat(messages: seq<seq<(string, Json)>>, sdkAvailable: bool, reply: SdkReply)
    returns (r: Result<Json, Exc>)
    ensures !sdkAvailable ==> r == Err(HttpException(500, "Multi-modal chat failed: " + Str(GenaiUndefined)))
    ensures sdkAvailable && ContentParts(messages).Err? ==>
              r == Err(HttpException(500, "Multi-modal chat failed: " + Str(ContentParts(messages).error)))
    ensures sdkAvailable && ContentParts(messages).Ok? && reply.Err? ==>
              r == Err(HttpException(500, "Multi-modal chat failed: " + reply.error))
    ensures r.Ok? <==> sdkAvailable && ContentParts(messages).Ok? && reply.Ok?
    ensures r.Ok? ==> r.value == MultiModalResult(reply.value, messages)
  {
    if !sdkAvailable {
      return Err(HttpException(500, "Multi-modal chat failed: " + Str(GenaiUndefined)));
    }
    var parts := CollectContentParts(messages);
    if parts.Err? {
      return Err(HttpException(500, "Multi-modal chat failed: " + Str(parts.error)));
    }
    if reply.Err? {
      return Err(HttpException(500, "Multi-modal chat failed: " + reply.error));
    }
    r := Ok(MultiModalResult(reply.value, messages));
  }

  // ---------------------------------------------------------------------------
  // Health and listings.
  // ---------------------------------------------------------------------------

  /** The keys `SheikhAIService.__init__` reads from the environment. */
  datatype SheikhAiService = SheikhAiService(googleApiKey: Option<string>, openaiApiKey: Option<string>)

  /** `bool(key)`: an absent or empty key is false. */
  predicate HasKey(key: Option<string>) {
    key.Some? && key.value != []
  }

  /**
   * `ai_health_check`: Google is reported up exactly when the SDK is installed
   * and its key is set, OpenAI when its key is set; overall follows the SDK alone.
   */
  function Health(service: SheikhAiService, sdkAvailable: bool): (r: Json)
    ensures r.JObject? && |r.members| == 1 && r.members[0].0 == "status"
    ensures var status := Get(r.members, "status");
            && status.Some? && status.value.JObject?
            && Get(status.value.members, "google") == Some(JBool(sdkAvailable && HasKey(service.googleApiKey)))
            && Get(status.value.members, "openai") == Some(JBool(HasKey(service.openaiApiKey)))
            && Get(status.value.members, "overall") == Some(JBool(sdkAvailable))
  {
    var flags := [("google", JBool(sdkAvailable && HasKey(service.googleApiKey))),
                  ("openai", JBool(HasKey(service.openaiApiKey))),
                  ("overall", JBool(sdkAvailable))];
    GetAt(flags, 1);
    GetAt(flags, 2);
    JObject([("status", JObject(flags))])
  }

  const GoogleModels: seq<string> := ["gemini-3-pro-preview", "gemini-2.5-flash", "gemini-1.5-pro", "imagen-3.0-generate-002"]
  const OpenAiModels: seq<string> := ["gpt-4", "gpt-3.5-turbo", "gpt-4-turbo-preview"]

  function Strings(names: seq<string>): (r: seq<Json>)
    ensures |r| == |names|
  {
    seq(|names|, i requires 0 <= i < |names| => JString(names[i]))
  }

  /** `list_models`. */
  function ListModels(): Json {
    JObject([("models", JObject([("google", JArray(Strings(GoogleModels))), ("openai", JArray(Strings(OpenAiModels)))]))])
  }

  /** `list_providers`. */
  function ListProviders(): Json {
    JObject([("providers", JObject([
      ("google", JObject([("name", JString("Google Generative AI")), ("models", JInt(4)),
                          ("features", JArray(Strings(["text", "image", "multi-modal", "tools", "thinking"])))])),
      ("openai", JObject([("name", JString("OpenAI")), ("models", JInt(3)),
                          ("features", JArray(Strings(["text", "function-calling"])))]))]))])
  }

  /** The model count of each provider agrees with the length of its list of models. */
  lemma ProviderCountsMatchModels()
    ensures var models := ListModels().members[0].1.members;
            var providers := ListProviders().members[0].1.members;
            && |models| == |providers| == 2
            && (forall i :: 0 <= i < 2 ==>
                  && models[i].0 == providers[i].0
                  && providers[i].1.JObject? && providers[i].1.members[1].0 == "models"
                  && providers[i].1.members[1].1 == JInt(|models[i].1.items|))
  {
  }
}
