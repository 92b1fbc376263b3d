/**
  The Mistral tool-call grammar: `[TOOL_CALLS] [{"name": ..., "arguments": ...}, ...]`.
  Decoding never raises: every failure gives back the original text as content.
 */
module MistralTools {
  import opened Wrappers
  import opened Text
  import opened Json
  import opened ToolCalls

  const StartToolCalls := "[TOOL_CALLS]"
  const Brackets: set<char> := {'[', ']'}

  /**
    The JSON value found after the marker, or None when the remainder is not
    bracketed or neither reading of it decodes. The remainder is stripped, all
    outer brackets are removed and one pair is put back; if that does not
    decode, the unbracketed text is decoded on its own.
   */
  function Payload(c: Codec, text: string): Option<Json>
    requires StartsWith(text, StartToolCalls)
  {
    BracketedPayload(c, Strip(text[|StartToolCalls|..]))
  }

  /** The payload of the stripped remainder `jsonStr`. */
  function BracketedPayload(c: Codec, jsonStr: string): Option<Json> {
    if !(StartsWith(jsonStr, "[") && EndsWith(jsonStr, "]")) then None
    else ParseListOrValue(c, Strip(StripChars(jsonStr, Brackets)))
  }

  /** `inner` read as the elements of a list, or failing that as a value on its own. */
  function ParseListOrValue(c: Codec, inner: string): Option<Json> {
    match c.parse("[" + inner + "]")
    case Some(v) => Some(v)
    case None => c.parse(inner)
  }

  /** A single object stands for a one-element list; anything but an object or array is rejected. */
  function CallItems(v: Json): Option<seq<Json>> {
    match v
    case JObject(_) => Some([v])
    case JArray(items) => Some(items)
    case _ => None
  }

  /** The calls made from `items`, in order, or the error that aborts the whole decode. */
  function ParseCalls(c: Codec, items: seq<Json>): Result<seq<FunctionCall>, string>
    decreases |items|
  {
    if items == [] then Ok([])
    else
      match ParseCalls(c, items[..|items| - 1])
      case Err(e) => Err(e)
      case Ok(fs) =>
        match ToFunctionCall(c, items[|items| - 1])
        case Err(e) => Err(e)
        case Ok(None) => Ok(fs)
        case Ok(Some(f)) => Ok(fs + [f])
  }

  /** An error anywhere in a prefix aborts the parse of the whole list. */
  lemma {:induction false} ParseCallsErrPropagates(c: Codec, items: seq<Json>, n: nat)
    requires n <= |items| && ParseCalls(c, items[..n]).Err?
    ensures ParseCalls(c, items).Err?
    decreases |items| - n
  {
    if n < |items| {
      var p := items[..n + 1];
      assert p[..|p| - 1] == items[..n];
      ParseCallsErrPropagates(c, items, n + 1);
    } else {
      assert items[..n] == items;
    }
  }

  /** The calls of `items` with their identifiers, or None when one element aborts the parse. */
  function CallsWithIds(c: Codec, items: seq<Json>, ids: nat -> string): Option<seq<ToolCall>> {
    match ParseCalls(c, items)
    case Err(_) => None
    case Ok(fs) => Some(WithIds(fs, ids))
  }

  /** What `MistralChatTokenizer.decode` returns for `text`. */
  function DecodeSpec(c: Codec, text: string, ids: nat -> string): (m: ChatMessage)
    ensures m.content.None? <==> HasToolCalls(m)
    ensures m.toolCalls.None? ==> m == PlainMessage(text)
    ensures m.reasoning.None?
  {
    if !StartsWith(text, StartToolCalls) then PlainMessage(text)
    else
      match Payload(c, text)
      case None => PlainMessage(text)
      case Some(v) =>
        match CallItems(v)
        case None => PlainMessage(text)
        case Some(items) =>
          match CallsWithIds(c, items, ids)
          case None => PlainMessage(text)
          case Some(calls) => if calls == [] then PlainMessage(text) else ChatMessage(None, None, Some(calls))
  }

  /** The loop of `decode` over the decoded elements, building the tool calls one by one. */
  method CollectCalls(c: Codec, items: seq<Json>, ids: nat -> string) returns (r: Option<seq<ToolCall>>)
    ensures r == CallsWithIds(c, items, ids)
  {
    var toolCalls: seq<ToolCall> := [];
    var i := 0;
    while i < |items|
      invariant 0 <= i <= |items|
      invariant ParseCalls(c, items[..i]).Ok?
      invariant |toolCalls| == |ParseCalls(c, items[..i]).value|
      invariant forall k :: 0 <= k < |toolCalls| ==> toolCalls[k] == ToolCall(ids(k), ParseCalls(c, items[..i]).value[k])
    {
      var p := items[..i + 1];
      assert p[..|p| - 1] == items[..i];
      var call := ToFunctionCall(c, items[i]);
      if call.Err? {
        ParseCallsErrPropagates(c, items, i + 1);
        return None;
      }
      if call.value.Some? {
        toolCalls := toolCalls + [ToolCall(ids(|toolCalls|), call.value.value)];
      }
      i := i + 1;
    }
    assert items[..i] == items;
    assert toolCalls == WithIds(ParseCalls(c, items).value, ids);
    return Some(toolCalls);
  }

  /** `MistralChatTokenizer.decode`: every failure falls back to the text as content. */
  method Decode(c: Codec, text: string, ids: nat -> string) returns (msg: ChatMessage)
    ensures msg == DecodeSpec(c, text, ids)
  {
    if !StartsWith(text, StartToolCalls) {
      return PlainMessage(text);
    }
    var payload := Payload(c, text);
    if payload.None? || CallItems(payload.value).None? {
      return PlainMessage(text);
    }
    var calls := CollectCalls(c, CallItems(payload.value).value, ids);
    if calls.None? || calls.value == [] {
      return PlainMessage(text);
    }
    return ChatMessage(None, None, calls);
  }

  /** The elements that become calls: objects that have a "name". */
  function Named(items: seq<Json>): (r: seq<Json>)
    ensures forall k :: 0 <= k < |r| ==> r[k].JObject? && HasKey(r[k].members, "name")
    decreases |items|
  {
    if items == [] then []
    else
      var last := items[|items| - 1];
      Named(items[..|items| - 1]) + (if last.JObject? && HasKey(last.members, "name") then [last] else [])
  }

  /**
    The calls keep the order of the named elements, each with its literal name
    and its normalised arguments; every other element is skipped.
   */
  lemma {:induction false} ParseCallsFollowNamed(c: Codec, items: seq<Json>)
    requires ParseCalls(c, items).Ok?
    ensures var fs := ParseCalls(c, items).value;
      && |fs| == |Named(items)|
      && forall k :: 0 <= k < |fs| ==>
          && Get(Named(items)[k].members, "name") == Some(JString(fs[k].name))
          && fs[k].arguments == NormalizeArguments(c, ArgumentsOf(Named(items)[k].members))
    decreases |items|
  {
    if items != [] {
      ParseCallsFollowNamed(c, items[..|items| - 1]);
    }
  }

  /** Every call's arguments string decodes, to the value the model meant. */
  lemma {:induction false} ParsedArgumentsDecode(c: Codec, items: seq<Json>, k: nat)
    requires Conforms(c)
    requires ParseCalls(c, items).Ok? && k < |ParseCalls(c, items).value|
    requires forall j :: 0 <= j < |items| && items[j].JObject? ==> RoundTrips(c, ArgumentsOf(items[j].members))
    ensures var fs := ParseCalls(c, items).value;
      exists j :: 0 <= j < |items| && items[j].JObject? &&
        c.parse(fs[k].arguments) == Some(IntendedArguments(c, ArgumentsOf(items[j].members)))
    decreases |items|
  {
    var n := |items| - 1;
    var init := items[..n];
    var fs0 := ParseCalls(c, init).value;
    if k < |fs0| {
      ParsedArgumentsDecode(c, init, k);
      var j :| 0 <= j < |init| && init[j].JObject? &&
        c.parse(fs0[k].arguments) == Some(IntendedArguments(c, ArgumentsOf(init[j].members)));
      assert items[j] == init[j];
    } else {
      ArgumentsRoundTrip(c, ArgumentsOf(items[n].members));
    }
  }

  /** A text without the marker is returned untouched as content. */
  lemma UnmarkedTextIsContent(c: Codec, text: string, ids: nat -> string)
    requires !StartsWith(text, StartToolCalls)
    ensures DecodeSpec(c, text, ids) == PlainMessage(text)
  {
  }

  /**
    A bracketed list after the marker (one space, then `[...]` whose inside
    neither starts nor ends with a bracket or whitespace) is read first as a
    list around its inside, and only if that fails as the inside alone.
   */
  lemma PayloadOfBracketedList(c: Codec, inner: string)
    requires inner != []
    requires inner[0] !in Brackets && inner[0] !in Whitespace
    requires inner[|inner| - 1] !in Brackets && inner[|inner| - 1] !in Whitespace
    ensures var text := StartToolCalls + " [" + inner + "]";
      && StartsWith(text, StartToolCalls)
      && Payload(c, text) == (if c.parse("[" + inner + "]").Some? then c.parse("[" + inner + "]") else c.parse(inner))
  {
    var text := StartToolCalls + " [" + inner + "]";
    var jsonStr := MarkedListStrips(inner);
    InnerStrips(inner);
    PayloadOf(c, text, jsonStr, inner);
  }

  /** Unfolds `Payload` once its intermediate strings are known. */
  lemma PayloadOf(c: Codec, text: string, jsonStr: string, inner: string)
    requires StartsWith(text, StartToolCalls)
    requires jsonStr == Strip(text[|StartToolCalls|..])
    requires StartsWith(jsonStr, "[") && EndsWith(jsonStr, "]")
    requires Strip(StripChars(jsonStr, Brackets)) == inner
    ensures Payload(c, text) == ParseListOrValue(c, inner)
  {
    assert Payload(c, text) == BracketedPayload(c, jsonStr);
  }

  lemma InnerStrips(inner: string)
    requires inner != []
    requires inner[0] !in Brackets && inner[0] !in Whitespace
    requires inner[|inner| - 1] !in Brackets && inner[|inner| - 1] !in Whitespace
    ensures Strip(StripChars("[" + inner + "]", Brackets)) == inner
  {
    BracketsStrip(inner);
    StripCharsOfPadded("", inner, "", Whitespace);
    assert "" + inner + "" == inner;
  }

  /** The stripped remainder after the marker is the bracketed list itself. */
  lemma MarkedListStrips(inner: string) returns (jsonStr: string)
    ensures var text := StartToolCalls + " [" + inner + "]";
      && StartsWith(text, StartToolCalls)
      && jsonStr == Strip(text[|StartToolCalls|..]) == "[" + inner + "]"
      && StartsWith(jsonStr, "[") && EndsWith(jsonStr, "]")
  {
    var text := StartToolCalls + " [" + inner + "]";
    var listed := "[" + inner + "]";
    assert text[..|StartToolCalls|] == StartToolCalls;
    assert text[|StartToolCalls|..] == " " + listed + "";
    SpacedListStrips(listed);
    jsonStr := listed;
  }

  lemma SpacedListStrips(listed: string)
    requires |listed| >= 2 && listed[0] == '[' && listed[|listed| - 1] == ']'
    ensures Strip(" " + listed + "") == listed
  {
    assert '[' !in Whitespace && ']' !in Whitespace;
    StripCharsOfPadded(" ", listed, "", Whitespace);
  }

  lemma BracketsStrip(inner: string)
    requires inner != [] && inner[0] !in Brackets && inner[|inner| - 1] !in Brackets
    ensures StripChars("[" + inner + "]", Brackets) == inner
  {
    StripCharsOfPadded("[", inner, "]", Brackets);
  }
}
