/** The text-generation gateway of werewolf/apis.py: the model-name router of
    `generate` and, for each backend, the request it would send (response format,
    API key, headers, MIME type). The vendor SDK calls themselves are not modelled:
    a backend is represented by the request value it would be handed. */
module Apis {
  import opened Common
  import opened Strings

  /** The process environment, as `os.environ`. */
  type Env = map<string, string>

  /** `os.environ.get(key)`. */
  function Get(env: Env, key: string): (r: Option<string>)
    ensures r.Some? <==> key in env
  {
    if key in env then Some(env[key]) else None
  }

  const OpenRouterPrefix := "openrouter/"
  const GlmPrefix := "glm/"

  datatype Provider = OpenRouter | Glm | OpenAI | Anthropic | VertexAI

  /** Which backend `generate` calls, and with which model name. */
  datatype Route = Route(provider: Provider, model: string)

  /** The dispatch at the top of `generate`. */
  function RouteModel(model: string): (r: Route)
    ensures StartsWith(model, OpenRouterPrefix) ==> r == Route(OpenRouter, model[|OpenRouterPrefix|..])
    ensures !StartsWith(model, OpenRouterPrefix) && StartsWith(model, GlmPrefix) ==>
              r == Route(Glm, model[|GlmPrefix|..])
    ensures !StartsWith(model, OpenRouterPrefix) && !StartsWith(model, GlmPrefix) ==> r.model == model
  {
    if StartsWith(model, OpenRouterPrefix) then
      StripPrefixOnce(model, OpenRouterPrefix);
      Route(OpenRouter, ReplaceFirst(model, OpenRouterPrefix, ""))
    else if StartsWith(model, GlmPrefix) then
      StripPrefixOnce(model, GlmPrefix);
      Route(Glm, ReplaceFirst(model, GlmPrefix, ""))
    else if Contains(model, "gpt") then Route(OpenAI, model)
    else if Contains(model, "claude") then Route(Anthropic, model)
    else Route(VertexAI, model)
  }

  /** Each backend is chosen exactly under its own condition, the earlier rules
      taking precedence over the later ones. */
  lemma RouteConditions(model: string)
    ensures RouteModel(model).provider == OpenRouter <==> StartsWith(model, OpenRouterPrefix)
    ensures RouteModel(model).provider == Glm <==>
              !StartsWith(model, OpenRouterPrefix) && StartsWith(model, GlmPrefix)
    ensures RouteModel(model).provider == OpenAI <==>
              !StartsWith(model, OpenRouterPrefix) && !StartsWith(model, GlmPrefix) && Contains(model, "gpt")
    ensures RouteModel(model).provider == Anthropic <==>
              !StartsWith(model, OpenRouterPrefix) && !StartsWith(model, GlmPrefix)
              && !Contains(model, "gpt") && Contains(model, "claude")
    ensures RouteModel(model).provider == VertexAI <==>
              !StartsWith(model, OpenRouterPrefix) && !StartsWith(model, GlmPrefix)
              && !Contains(model, "gpt") && !Contains(model, "claude")
  {
  }

  /** Prefixing any slug with "openrouter/" routes that very slug to OpenRouter,
      whatever it contains ("glm/", "gpt", "claude", another "openrouter/"). */
  lemma {:induction false} OpenRouterRoundTrip(slug: string)
    ensures RouteModel(OpenRouterPrefix + slug) == Route(OpenRouter, slug)
  {
    var m := OpenRouterPrefix + slug;
    assert m[..|OpenRouterPrefix|] == OpenRouterPrefix;
    assert m[|OpenRouterPrefix|..] == slug;
  }

  /** Prefixing any name with "glm/" routes that very name to GLM. */
  lemma {:induction false} GlmRoundTrip(name: string)
    ensures RouteModel(GlmPrefix + name) == Route(Glm, name)
  {
    var m := GlmPrefix + name;
    assert m[..|GlmPrefix|] == GlmPrefix;
    assert m[0] == 'g';
    assert !StartsWith(m, OpenRouterPrefix) by {
      assert |m| < |OpenRouterPrefix| || m[..|OpenRouterPrefix|][0] == 'g';
    }
    assert m[|GlmPrefix|..] == name;
  }

  /** A JSON schema handed through to Vertex AI; its content is not inspected. */
  datatype Schema = Schema(json: string)

  /** The keyword arguments `generate` passes through: `prompt` and the optional
      `json_mode` (default True), `json_schema` (default None) and `temperature`
      (default 0.7). */
  datatype CallArgs = CallArgs(prompt: string, jsonMode: Option<bool>, jsonSchema: Option<Schema>,
                               temperature: Option<real>)

  function JsonMode(args: CallArgs): bool {
    args.jsonMode.GetOr(true)
  }

  /** `{"type": "json_object"}` or `{"type": "text"}`. */
  datatype ResponseFormat = JsonObject | Text {
    function TypeName(): string {
      if JsonObject? then "json_object" else "text"
    }
  }

  /** The response-format rule shared by the OpenAI, OpenRouter and GLM backends. */
  function FormatFor(jsonMode: bool): (f: ResponseFormat)
    ensures f.TypeName() == (if jsonMode then "json_object" else "text")
  {
    if jsonMode then JsonObject else Text
  }

  const DefaultOpenRouterBase := "https://openrouter.ai/api/v1"
  const DefaultGlmBase := "https://open.bigmodel.cn/api/paas/v4"
  const DefaultAppTitle := "Werewolf Arena"
  const MissingOpenRouterKey := "Missing OPENROUTER_API_KEY environment variable"
  const MissingGlmKey := "Missing GLM_API_KEY (or ZHIPU_API_KEY) environment variable"

  /** The request a backend would send through its SDK. */
  datatype Request =
    | OpenAIRequest(openAIKey: Option<string>, model: string, prompt: string, format: ResponseFormat)
    | OpenRouterRequest(baseUrl: string, apiKey: string, headers: Option<map<string, string>>,
                        model: string, prompt: string, format: ResponseFormat)
    | GlmRequest(baseUrl: string, apiKey: string, model: string, prompt: string, format: ResponseFormat)
    | AnthropicRequest(region: string, model: string, prompt: string, maxTokens: nat)
    | VertexRequest(location: string, model: string, prompt: string, temperature: real,
                    mimeType: Option<string>, schema: Option<Schema>)

  /** `os.environ.get(key, default)`. */
  function GetOr(env: Env, key: string, default: string): string {
    if key in env then env[key] else default
  }

  /** The optional OpenRouter headers: `HTTP-Referer` when OPENROUTER_REFERRER is
      non-empty, `X-Title` when OPENROUTER_APP_TITLE (default "Werewolf Arena") is
      non-empty; `default_headers or None` turns an empty set into None. */
  function OpenRouterHeaders(env: Env): (h: Option<map<string, string>>)
    ensures h.Some? ==> h.value != map[]
    ensures h.Some? ==> h.value.Keys <= {"HTTP-Referer", "X-Title"}
    ensures (h.Some? && "HTTP-Referer" in h.value) <==> Truthy(Get(env, "OPENROUTER_REFERRER"))
    ensures h.Some? && "HTTP-Referer" in h.value ==> h.value["HTTP-Referer"] == env["OPENROUTER_REFERRER"]
    ensures (h.Some? && "X-Title" in h.value) <==> GetOr(env, "OPENROUTER_APP_TITLE", DefaultAppTitle) != ""
    ensures h.Some? && "X-Title" in h.value ==>
              h.value["X-Title"] == GetOr(env, "OPENROUTER_APP_TITLE", DefaultAppTitle)
  {
    var referer := Get(env, "OPENROUTER_REFERRER");
    var title := GetOr(env, "OPENROUTER_APP_TITLE", DefaultAppTitle);
    var withReferer: map<string, string> := if Truthy(referer) then map["HTTP-Referer" := referer.value] else map[];
    var headers := if title != "" then withReferer["X-Title" := title] else withReferer;
    assert title != "" ==> "X-Title" in headers;
    assert "HTTP-Referer" in headers <==> Truthy(referer);
    assert "HTTP-Referer" in headers ==> headers["HTTP-Referer"] == referer.value;
    if headers == map[] then None else Some(headers)
  }

  /** `os.environ.get("GLM_API_KEY") or os.environ.get("ZHIPU_API_KEY")`. */
  function GlmKey(env: Env): (k: Option<string>)
    ensures Truthy(k) <==> Truthy(Get(env, "GLM_API_KEY")) || Truthy(Get(env, "ZHIPU_API_KEY"))
    ensures Truthy(Get(env, "GLM_API_KEY")) ==> k == Get(env, "GLM_API_KEY")
    ensures !Truthy(Get(env, "GLM_API_KEY")) ==> k == Get(env, "ZHIPU_API_KEY")
  {
    var glm := Get(env, "GLM_API_KEY");
    if Truthy(glm) then glm else Get(env, "ZHIPU_API_KEY")
  }

  function GenerateOpenAI(model: string, args: CallArgs, env: Env): Request {
    OpenAIRequest(Get(env, "OPENAI_API_KEY"), model, args.prompt, FormatFor(JsonMode(args)))
  }

  function GenerateOpenRouter(model: string, args: CallArgs, env: Env): Result<Request, string> {
    var key := Get(env, "OPENROUTER_API_KEY");
    if !Truthy(key) then Err(MissingOpenRouterKey)
    else Ok(OpenRouterRequest(GetOr(env, "OPENROUTER_BASE_URL", DefaultOpenRouterBase), key.value,
                              OpenRouterHeaders(env), model, args.prompt, FormatFor(JsonMode(args))))
  }

  function GenerateGlm(model: string, args: CallArgs, env: Env): Result<Request, string> {
    var key := GlmKey(env);
    if !Truthy(key) then Err(MissingGlmKey)
    else Ok(GlmRequest(GetOr(env, "GLM_BASE_URL", DefaultGlmBase), key.value, model, args.prompt,
                       FormatFor(JsonMode(args))))
  }

  function GenerateAnthropic(model: string, args: CallArgs): Request {
    AnthropicRequest("us-east5", model, args.prompt, 1024)
  }

  /** Vertex AI: a "flash" model drops the schema; the MIME type is JSON when JSON
      mode is on or a schema remains. */
  function GenerateVertex(model: string, args: CallArgs): (r: Request)
    ensures r.VertexRequest? && r.model == model && r.location == "us-central1"
    ensures Contains(model, "flash") ==> r.schema.None?
    ensures !Contains(model, "flash") ==> r.schema == args.jsonSchema
    ensures r.mimeType.Some? <==> JsonMode(args) || r.schema.Some?
    ensures r.mimeType.Some? ==> r.mimeType.value == "application/json"
  {
    var schema := if Contains(model, "flash") then None else args.jsonSchema;
    var mime := if JsonMode(args) || schema.Some? then Some("application/json") else None;
    VertexRequest("us-central1", model, args.prompt, args.temperature.GetOr(0.7), mime, schema)
  }

  /** `generate(model, **kwargs)`: the routed backend's request, or the
      RuntimeError message a backend raises for a missing key. */
  function Generate(model: string, args: CallArgs, env: Env): Result<Request, string> {
    var route := RouteModel(model);
    match route.provider
    case OpenRouter => GenerateOpenRouter(route.model, args, env)
    case Glm => GenerateGlm(route.model, args, env)
    case OpenAI => Ok(GenerateOpenAI(route.model, args, env))
    case Anthropic => Ok(GenerateAnthropic(route.model, args))
    case VertexAI => Ok(GenerateVertex(route.model, args))
  }

  /** `generate` fails only for OpenRouter without OPENROUTER_API_KEY and for GLM
      without either GLM key, and then with the backend's own message. */
  lemma GenerateFailures(model: string, args: CallArgs, env: Env)
    ensures Generate(model, args, env).Err? <==>
              (RouteModel(model).provider == OpenRouter && !Truthy(Get(env, "OPENROUTER_API_KEY")))
              || (RouteModel(model).provider == Glm && !Truthy(Get(env, "GLM_API_KEY"))
                  && !Truthy(Get(env, "ZHIPU_API_KEY")))
    ensures Generate(model, args, env).Err? && RouteModel(model).provider == OpenRouter ==>
              Generate(model, args, env).error == MissingOpenRouterKey
    ensures Generate(model, args, env).Err? && RouteModel(model).provider == Glm ==>
              Generate(model, args, env).error == MissingGlmKey
  {
  }

  /** Every successful request goes to the routed model, and the three
      OpenAI-compatible backends ask for `json_object` exactly in JSON mode. */
  lemma GenerateRequests(model: string, args: CallArgs, env: Env)
    requires Generate(model, args, env).Ok?
    ensures Generate(model, args, env).value.model == RouteModel(model).model
    ensures Generate(model, args, env).value.prompt == args.prompt
    ensures var r := Generate(model, args, env).value;
            (r.OpenAIRequest? || r.OpenRouterRequest? || r.GlmRequest?) ==>
              (r.format.TypeName() == "json_object" <==> JsonMode(args))
    ensures var r := Generate(model, args, env).value;
            r.GlmRequest? ==>
              (r.apiKey == GlmKey(env).value
               && (Truthy(Get(env, "GLM_API_KEY")) ==> r.apiKey == env["GLM_API_KEY"]))
  {
  }
}
