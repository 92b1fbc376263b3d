/**
  How the MLX chat model turns a chat-completion request into the arguments
  of one generation: the request's extra parameters are split into sampler,
  model, template and generate arguments, defaults are merged in, the prompt
  is encoded with the template arguments, and the reasoning decoder learns
  whether the prompt already opened a thinking block. The chat template, the
  sampler and the logits processors are external; the encoder is a parameter.
 */
module MlxParams {
  import opened Wrappers
  import opened Text
  import opened Json
  import ToolCalls

  /** Keyword arguments as a dict from name to (JSON) value. */
  type Kwargs = map<string, Json>

  /** The four dicts `_get_generation_params` fills. */
  datatype Group = SamplerGroup | ModelGroup | TemplateGroup | GenerateGroup

  /** The parameters `make_sampler` declares. */
  const SamplerParams: set<string> :=
    {"top_k", "min_tokens_to_keep", "min_p", "xtc_probability", "xtc_threshold", "xtc_special_tokens"}

  /** The parameters used when loading the model and applying the chat template. */
  const ModelParams: set<string> := {"adapter_path", "chat_template_config"}

  /** Shorthand chat-template parameters of the model families the server knows. */
  const TemplateParams: set<string> :=
    {"enable_thinking", "thinking_budget", "thinking", "thinkingConfig", "reasoning_effort", "reasoning"}

  /** The dict a key goes to: the first of sampler, model and template that declares it, else generate. */
  function GroupOf(key: string): (g: Group)
    ensures g == SamplerGroup <==> key in SamplerParams
    ensures g == ModelGroup <==> key !in SamplerParams && key in ModelParams
    ensures g == TemplateGroup <==> key !in SamplerParams && key !in ModelParams && key in TemplateParams
    ensures g == GenerateGroup <==> key !in SamplerParams + ModelParams + TemplateParams
  {
    if key in SamplerParams then SamplerGroup
    else if key in ModelParams then ModelGroup
    else if key in TemplateParams then TemplateGroup
    else GenerateGroup
  }

  /** The dict of group `g` once the loop has assigned, in order, the items of that group. */
  function Bucket(items: seq<(string, Json)>, g: Group): Kwargs
    decreases |items|
  {
    if items == [] then map[]
    else
      var k := items[|items| - 1].0;
      var b := Bucket(items[..|items| - 1], g);
      if GroupOf(k) == g then b[k := items[|items| - 1].1] else b
  }

  /** A key is in the dict of `g` exactly when it is an extra parameter of that group, with its last value. */
  lemma {:induction false} BucketHolds(items: seq<(string, Json)>, g: Group, k: string)
    ensures k in Bucket(items, g) <==> GroupOf(k) == g && Get(items, k).Some?
    ensures k in Bucket(items, g) ==> Bucket(items, g)[k] == Get(items, k).value
    decreases |items|
  {
    if items != [] {
      BucketHolds(items[..|items| - 1], g, k);
    }
  }

  datatype GenerationParams = GenerationParams(sampler: Kwargs, model: Kwargs, generate: Kwargs, template: Kwargs)

  /** The result `_get_generation_params` returns for the extra parameters `items`. */
  function SplitParams(items: seq<(string, Json)>): GenerationParams {
    GenerationParams(Bucket(items, SamplerGroup), Bucket(items, ModelGroup), Bucket(items, GenerateGroup), Bucket(items, TemplateGroup))
  }

  /** `_get_generation_params`: one pass over the extra parameters, each assigned into the dict of its group. */
  method GetGenerationParams(items: seq<(string, Json)>) returns (p: GenerationParams)
    ensures p == SplitParams(items)
  {
    var sampler: Kwargs, model: Kwargs, generate: Kwargs, template: Kwargs := map[], map[], map[], map[];
    for i := 0 to |items|
      invariant sampler == Bucket(items[..i], SamplerGroup) && model == Bucket(items[..i], ModelGroup)
      invariant generate == Bucket(items[..i], GenerateGroup) && template == Bucket(items[..i], TemplateGroup)
    {
      var (key, value) := items[i];
      assert items[..i + 1][..i] == items[..i];
      if key in SamplerParams {
        sampler := sampler[key := value];
      } else if key in ModelParams {
        model := model[key := value];
      } else if key in TemplateParams {
        template := template[key := value];
      } else {
        generate := generate[key := value];
      }
    }
    assert items[..|items|] == items;
    p := GenerationParams(sampler, model, generate, template);
  }

  /**
    Every extra parameter lands in exactly one of the four dicts, the one of
    its group, with its value; and nothing else is in any of them.
   */
  lemma SplitIsPartition(items: seq<(string, Json)>, k: string)
    ensures var p := SplitParams(items);
      && (k in p.sampler <==> Get(items, k).Some? && GroupOf(k) == SamplerGroup)
      && (k in p.model <==> Get(items, k).Some? && GroupOf(k) == ModelGroup)
      && (k in p.template <==> Get(items, k).Some? && GroupOf(k) == TemplateGroup)
      && (k in p.generate <==> Get(items, k).Some? && GroupOf(k) == GenerateGroup)
    ensures var p := SplitParams(items);
      Get(items, k).Some? <==> k in p.sampler.Keys + p.model.Keys + p.template.Keys + p.generate.Keys
    ensures var p := SplitParams(items);
      k in p.sampler.Keys + p.model.Keys + p.template.Keys + p.generate.Keys ==>
        (p.sampler + p.model + p.template + p.generate)[k] == Get(items, k).value
  {
    BucketHolds(items, SamplerGroup, k);
    BucketHolds(items, ModelGroup, k);
    BucketHolds(items, TemplateGroup, k);
    BucketHolds(items, GenerateGroup, k);
  }

  /** A JSON object's members as a dict; a repeated key keeps its last value, as `json.loads` does. */
  function DictOf(members: seq<(string, Json)>): Kwargs
    decreases |members|
  {
    if members == [] then map[]
    else DictOf(members[..|members| - 1])[members[|members| - 1].0 := members[|members| - 1].1]
  }

  lemma {:induction false} DictOfHolds(members: seq<(string, Json)>, k: string)
    ensures k in DictOf(members) <==> Get(members, k).Some?
    ensures k in DictOf(members) ==> DictOf(members)[k] == Get(members, k).value
    decreases |members|
  {
    if members != [] {
      DictOfHolds(members[..|members| - 1], k);
    }
  }

  /**
    `template_kwargs | model_kwargs.get("chat_template_config", {})`: the
    configuration overrides the shorthand template parameters key by key.
    None when the configuration is not a dict and the `|` raises.
   */
  function TemplateKwargs(p: GenerationParams): (r: Option<Kwargs>)
    ensures r.None? <==> "chat_template_config" in p.model && !p.model["chat_template_config"].JObject?
    ensures r.Some? && "chat_template_config" !in p.model ==> r.value == p.template
    ensures r.Some? && "chat_template_config" in p.model ==> forall k :: k in r.value <==>
      k in p.template || Get(p.model["chat_template_config"].members, k).Some?
    ensures r.Some? && "chat_template_config" in p.model ==> forall k :: k in r.value ==>
      r.value[k] == match Get(p.model["chat_template_config"].members, k)
                    case Some(v) => v
                    case None => p.template[k]
  {
    if "chat_template_config" !in p.model then Some(p.template)
    else
      match p.model["chat_template_config"]
      case JObject(members) =>
        assert forall k :: (k in DictOf(members) <==> Get(members, k).Some?)
                           && (k in DictOf(members) ==> DictOf(members)[k] == Get(members, k).value) by {
          forall k
            ensures k in DictOf(members) <==> Get(members, k).Some?
            ensures k in DictOf(members) ==> DictOf(members)[k] == Get(members, k).value
          {
            DictOfHolds(members, k);
          }
        }
        Some(p.template + DictOf(members))
      case _ => None
  }

  /** The model's own defaults. */
  const DefaultMaxTokens := 2048
  const DefaultTemperature: real := 1.0
  const DefaultTopP: real := 1.0
  const DefaultTopK := -1

  /** The sampler arguments before the sampler parameters of the request are merged in. */
  function SamplerDefaults(temperature: Option<real>, topP: Option<real>): Kwargs {
    map[
      "temp" := JFloat(if temperature.None? then DefaultTemperature else temperature.value),
      "top_p" := JFloat(if topP.None? then DefaultTopP else topP.value),
      "min_p" := JFloat(0.0),
      "min_tokens_to_keep" := JInt(1),
      "top_k" := JInt(DefaultTopK)]
  }

  /** The arguments `make_sampler` is called with: the defaults, overridden key by key by the request's sampler parameters. */
  function SamplerKwargs(temperature: Option<real>, topP: Option<real>, sampler: Kwargs): Kwargs {
    SamplerDefaults(temperature, topP) + sampler
  }

  /**
    The sampler gets the request's temperature and top-p, or 1.0 each: no
    extra parameter can override them, since neither is a sampler parameter.
   */
  lemma TemperatureAndTopP(temperature: Option<real>, topP: Option<real>, items: seq<(string, Json)>)
    ensures var s := SamplerKwargs(temperature, topP, SplitParams(items).sampler);
      && s["temp"] == JFloat(if temperature.Some? then temperature.value else 1.0)
      && s["top_p"] == JFloat(if topP.Some? then topP.value else 1.0)
  {
    BucketHolds(items, SamplerGroup, "temp");
    BucketHolds(items, SamplerGroup, "top_p");
  }

  /**
    Every sampler parameter of the request reaches the sampler with its value,
    and a default key the request does not set keeps its default: min-p 0.0,
    at least one token kept, no top-k cut.
   */
  lemma SamplerParamsOverride(temperature: Option<real>, topP: Option<real>, items: seq<(string, Json)>, k: string)
    requires k in SamplerParams
    ensures var s := SamplerKwargs(temperature, topP, SplitParams(items).sampler);
      && (Get(items, k).Some? ==> k in s && s[k] == Get(items, k).value)
      && (Get(items, k).None? && k in SamplerDefaults(temperature, topP) ==> k in s && s[k] == SamplerDefaults(temperature, topP)[k])
    ensures SamplerDefaults(temperature, topP)["min_p"] == JFloat(0.0)
    ensures SamplerDefaults(temperature, topP)["min_tokens_to_keep"] == JInt(1)
    ensures SamplerDefaults(temperature, topP)["top_k"] == JInt(-1)
  {
    BucketHolds(items, SamplerGroup, k);
  }

  /** `template_kwargs.get("enable_thinking", True)`, read for its truth value. */
  function EnableThinking(template: Kwargs): bool {
    "enable_thinking" !in template || Truthy(template["enable_thinking"])
  }

  /** The opening tag of a thinking block. */
  function OpenTag(thinkingTag: string): string {
    "<" + thinkingTag + ">"
  }

  /** The logits processors handed to the generator. */
  datatype LogitsProcessors =
    | SchemaProcessor(schema: Json) // constrained decoding to a JSON schema
    | TopLogprobs(count: int)       // processors that report this many alternatives
    | NoProcessors

  /**
    A response format with a JSON schema wins over log-probabilities; the
    number of alternatives is `top_logprobs or 5`.
   */
  function LogitsChoice(jsonSchema: Option<Json>, logprobs: bool, topLogprobs: Option<int>): (r: LogitsProcessors)
    ensures r.SchemaProcessor? <==> jsonSchema.Some? && Truthy(jsonSchema.value)
    ensures r.TopLogprobs? <==> !(jsonSchema.Some? && Truthy(jsonSchema.value)) && logprobs
    ensures r.TopLogprobs? ==> r.count == if topLogprobs.Some? && topLogprobs.value != 0 then topLogprobs.value else 5
  {
    if jsonSchema.Some? && Truthy(jsonSchema.value) then SchemaProcessor(jsonSchema.value)
    else if logprobs then TopLogprobs(if topLogprobs.None? || topLogprobs.value == 0 then 5 else topLogprobs.value)
    else NoProcessors
  }

  /** A value in the generate arguments: a request extra, or one the model sets itself. */
  datatype GenerateArg =
    | ExtraArg(value: Json)
    | SamplerArg(kwargs: Kwargs)
    | PromptCacheArg
    | ProcessorsArg(processors: LogitsProcessors)
    | MaxTokensArg(count: int)

  /**
    The generate arguments: the request's other extras, then the sampler, the
    prompt cache, the logits processors when there are any and the token
    limit written over them.
   */
  function GenerateKwargs(extras: Kwargs, sampler: Kwargs, processors: LogitsProcessors, maxTokens: Option<int>)
    : map<string, GenerateArg>
  {
    var base := map k | k in extras :: ExtraArg(extras[k]);
    var withSampler := base["sampler" := SamplerArg(sampler)]["prompt_cache" := PromptCacheArg];
    var withProcessors := if processors.NoProcessors? then withSampler else withSampler["logits_processors" := ProcessorsArg(processors)];
    withProcessors["max_tokens" := MaxTokensArg(if maxTokens.None? then DefaultMaxTokens else maxTokens.value)]
  }

  /** The fields of a chat-completion request the model reads. */
  datatype ChatRequest = ChatRequest(
    model: string,
    temperature: Option<real>,
    topP: Option<real>,
    maxTokens: Option<int>,
    stop: seq<string>,            // `request.stop`; empty when absent
    logprobs: bool,
    topLogprobs: Option<int>,
    jsonSchema: Option<Json>,     // `request.response_format.json_schema`, None without a response format
    tools: seq<ToolCalls.Tool>,   // `request.tools`; empty when absent
    includeUsage: bool,           // `request.stream_options.include_usage`
    extra: seq<(string, Json)>)   // `request.get_extra_params()`, as its items

  /** Everything `_prepare_generation` works out. */
  datatype Prepared = Prepared(
    template: Kwargs,
    prompt: string,
    enableThinking: bool,
    thinkingPrefix: bool,         // meaningful only with thinking enabled
    generate: map<string, GenerateArg>,
    hasStopChecker: bool)

  /**
    `_prepare_generation` as a value: split the extras, merge the template
    arguments, encode the prompt with them (`encode`, the chat template),
    and decide the thinking prefix. None when the template configuration is
    not a dict.
   */
  function Prepare(request: ChatRequest, encode: Kwargs -> string, thinkingTag: string): (r: Option<Prepared>)
    ensures r.None? <==> TemplateKwargs(SplitParams(request.extra)).None?
    ensures r.Some? ==>
      && r.value.prompt == encode(r.value.template)
      && (r.value.enableThinking ==> (r.value.thinkingPrefix <==> EndsWith(r.value.prompt, OpenTag(thinkingTag))))
      && (r.value.hasStopChecker <==> request.stop != [])
      && "max_tokens" in r.value.generate
      && r.value.generate["max_tokens"] == MaxTokensArg(if request.maxTokens.Some? then request.maxTokens.value else 2048)
  {
    var p := SplitParams(request.extra);
    match TemplateKwargs(p)
    case None => None
    case Some(template) =>
      var prompt := encode(template);
      var enable := EnableThinking(template);
      var sampler := SamplerKwargs(request.temperature, request.topP, p.sampler);
      var processors := LogitsChoice(request.jsonSchema, request.logprobs, request.topLogprobs);
      Some(Prepared(template, prompt, enable, enable && EndsWith(prompt, OpenTag(thinkingTag)),
                    GenerateKwargs(p.generate, sampler, processors, request.maxTokens), request.stop != []))
  }

  /**
    The generate arguments keep every extra of the generate group except
    sampler, prompt_cache and max_tokens, which always carry the model's
    values. An extra named logits_processors is replaced only when a JSON
    schema or logprobs make the model choose processors; otherwise it passes
    through.
   */
  lemma GenerateArgsOwnership(request: ChatRequest, encode: Kwargs -> string, thinkingTag: string, k: string)
    requires Prepare(request, encode, thinkingTag).Some?
    ensures var g := Prepare(request, encode, thinkingTag).value.generate;
      && g["sampler"] == SamplerArg(SamplerKwargs(request.temperature, request.topP, SplitParams(request.extra).sampler))
      && g["prompt_cache"] == PromptCacheArg
      && (k !in {"sampler", "prompt_cache", "logits_processors", "max_tokens"} ==>
            (k in g <==> Get(request.extra, k).Some? && GroupOf(k) == GenerateGroup)
            && (k in g ==> g[k] == ExtraArg(Get(request.extra, k).value)))
      && g["max_tokens"] == MaxTokensArg(if request.maxTokens.None? then DefaultMaxTokens else request.maxTokens.value)
      && ("logits_processors" in g && g["logits_processors"].ProcessorsArg? <==>
            !LogitsChoice(request.jsonSchema, request.logprobs, request.topLogprobs).NoProcessors?)
      && (LogitsChoice(request.jsonSchema, request.logprobs, request.topLogprobs).NoProcessors? ==>
            ("logits_processors" in g <==> Get(request.extra, "logits_processors").Some? && GroupOf("logits_processors") == GenerateGroup)
            && ("logits_processors" in g ==> g["logits_processors"] == ExtraArg(Get(request.extra, "logits_processors").value)))
  {
    BucketHolds(request.extra, GenerateGroup, k);
    BucketHolds(request.extra, GenerateGroup, "logits_processors");
  }
}
