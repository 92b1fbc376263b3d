/**
  The chat message and tool-call records the tool-call parsers produce, and the
  per-call conversion both parsers perform on a decoded JSON object: pick the
  arguments and turn them into a JSON string.
 */
module ToolCalls {
  import opened Wrappers
  import opened Json

  datatype FunctionCall = FunctionCall(name: string, arguments: string)

  datatype ToolCall = ToolCall(id: string, call: FunctionCall)

  /** An assistant message: content, optional reasoning, optional tool calls. */
  datatype ChatMessage = ChatMessage(content: Option<string>, reasoning: Option<string>, toolCalls: Option<seq<ToolCall>>)

  /** A tool offered in the request; only its function name matters here. */
  datatype Tool = Tool(functionName: string)

  /** The message a parser returns when it finds no tool call: the text as content. */
  function PlainMessage(text: string): ChatMessage {
    ChatMessage(Some(text), None, None)
  }

  /** Python's truthiness of `message.tool_calls`: present and non-empty. */
  predicate HasToolCalls(m: ChatMessage) {
    m.toolCalls.Some? && m.toolCalls.value != []
  }

  /** `call.get("arguments", call.get("parameters", {}))`. */
  function ArgumentsOf(members: seq<(string, Json)>): Json {
    GetOr(members, "arguments", GetOr(members, "parameters", JObject([])))
  }

  /**
    The arguments string of a call: `None` and the string "null" become "{}",
    a string is kept when it is valid JSON and replaced by "{}" otherwise, and
    any other value is serialised.
   */
  function NormalizeArguments(c: Codec, args: Json): string {
    if args == JNull || args == JString("null") then "{}"
    else if args.JString? then (if c.parse(args.s).Some? then args.s else "{}")
    else c.dumps(args)
  }

  /** The value the arguments string is meant to decode to. */
  function IntendedArguments(c: Codec, args: Json): Json {
    if args == JNull || args == JString("null") then JObject([])
    else if args.JString? then (if c.parse(args.s).Some? then c.parse(args.s).value else JObject([]))
    else args
  }

  /** Every arguments string is valid JSON and decodes to the intended value. */
  lemma ArgumentsRoundTrip(c: Codec, args: Json)
    requires Conforms(c)
    requires !args.JString? && args != JNull ==> RoundTrips(c, args)
    ensures c.parse(NormalizeArguments(c, args)) == Some(IntendedArguments(c, args))
  {
  }

  /**
    One decoded element turned into a call: `Ok(None)` when it is skipped (not
    an object, or no "name"), `Err` when the name is not a string (the message
    model's validation raises a `ValueError`, which both parsers catch).
   */
  function ToFunctionCall(c: Codec, call: Json): (r: Result<Option<FunctionCall>, string>)
    ensures r == Ok(None) <==> !call.JObject? || !HasKey(call.members, "name")
    ensures r.Ok? && r.value.Some? ==>
      && call.JObject?
      && Get(call.members, "name") == Some(JString(r.value.value.name))
      && r.value.value.arguments == NormalizeArguments(c, ArgumentsOf(call.members))
  {
    if !call.JObject? || !HasKey(call.members, "name") then Ok(None)
    else
      match Get(call.members, "name")
      case Some(JString(name)) => Ok(Some(FunctionCall(name, NormalizeArguments(c, ArgumentsOf(call.members)))))
      case _ => Err("name is not a string")
  }

  /**
    A call taken from decoded JSON carries arguments that decode again:
    object arguments come back as the same object, string arguments as some
    value, and absent arguments as the empty object.
   */
  lemma DecodedCallArguments(c: Codec, call: Json)
    requires Conforms(c) && ToFunctionCall(c, call).Ok? && ToFunctionCall(c, call).value.Some?
    requires ArgumentsOf(call.members).JObject? ==> RoundTrips(c, ArgumentsOf(call.members))
    ensures var f := ToFunctionCall(c, call).value.value;
      && (ArgumentsOf(call.members).JObject? ==> c.parse(f.arguments) == Some(ArgumentsOf(call.members)))
      && (ArgumentsOf(call.members).JString? ==> c.parse(f.arguments).Some?)
      && (!HasKey(call.members, "arguments") && !HasKey(call.members, "parameters") ==>
            f.arguments == "{}" && c.parse(f.arguments) == Some(JObject([])))
  {
    var args := ArgumentsOf(call.members);
    if args.JObject? || args.JString? || args == JNull {
      ArgumentsRoundTrip(c, args);
    }
  }

  /** Attaches the generated identifiers: the k-th call gets `ids(k)`. */
  function WithIds(fs: seq<FunctionCall>, ids: nat -> string): (r: seq<ToolCall>)
    ensures |r| == |fs|
    ensures forall k :: 0 <= k < |fs| ==> r[k] == ToolCall(ids(k), fs[k])
  {
    seq(|fs|, k requires 0 <= k < |fs| => ToolCall(ids(k), fs[k]))
  }
}
