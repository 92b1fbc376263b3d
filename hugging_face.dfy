/**
  The Hugging Face tool-call grammar: `<tool_call>\n{"name": ..., "arguments": ...}</tool_call>`.
  The tokenizer object keeps a prefill string that `Encode` appends to the
  prompt and that `Decode` puts back in front of the generated text.
 */
module HuggingFaceTools {
  import opened Wrappers
  import opened Text
  import opened Json
  import opened ToolCalls

  const StartToolCalls := "<tool_call>\n"
  const EndToolCalls := "</tool_call>"

  /** The `tool_choice` of a request: absent, one of the named modes, or one specific function. */
  datatype ToolChoice = NoChoice | Mode(mode: string) | Specific(functionName: string)

  /** The text that forces the model to continue a call of function `name`. */
  function PreFill(name: string): string {
    StartToolCalls + "{\"name\": \"" + name + "\", \"arguments\":"
  }

  /** The prefill one `encode` call adds: only for a non-empty tool list and a specific choice. */
  function PreFillFor(tools: seq<Tool>, toolChoice: ToolChoice): string {
    if tools != [] && toolChoice.Specific? then PreFill(toolChoice.functionName) else ""
  }

  /** The stripped JSON text between the start tag (counted from the very beginning) and the first end tag. */
  function StrictPayload(text: string): string
    requires Contains(text, EndToolCalls)
  {
    Strip(Slice(text, |StartToolCalls|, Find(text, EndToolCalls)))
  }

  /** The guard of `_parse_strict_tools`: the stripped text starts with the start tag and the end tag occurs. */
  predicate StrictGuard(text: string) {
    StartsWith(Strip(text), StartToolCalls) && Contains(text, EndToolCalls)
  }

  /** The single call a decoded value yields, `Some([])` when it is not a named object, None on a bad name. */
  function StrictCalls(c: Codec, v: Json, ids: nat -> string): Option<seq<ToolCall>> {
    match ToFunctionCall(c, v)
    case Err(_) => None
    case Ok(None) => Some([])
    case Ok(Some(f)) => Some([ToolCall(ids(0), f)])
  }

  /**
    `_parse_strict_tools`: at most one call, and only for a decoded object
    with a "name"; None whenever there is no call or the JSON is invalid.
   */
  function ParseStrictTools(c: Codec, text: string, ids: nat -> string): (r: Option<seq<ToolCall>>)
    ensures !StrictGuard(text) ==> r.None?
    ensures r.Some? ==>
      && StrictGuard(text)
      && |r.value| == 1
      && r.value[0].id == ids(0)
      && var v := c.parse(StrictPayload(text));
      && v.Some? && v.value.JObject?
      && Get(v.value.members, "name") == Some(JString(r.value[0].call.name))
      && r.value[0].call.arguments == NormalizeArguments(c, ArgumentsOf(v.value.members))
    ensures StrictGuard(text) && c.parse(StrictPayload(text)).None? ==> r.None?
  {
    if !StrictGuard(text) then None
    else
      match c.parse(StrictPayload(text))
      case None => None
      case Some(v) =>
        match StrictCalls(c, v, ids)
        case None => None
        case Some(calls) => if calls == [] then None else Some(calls)
  }

  /**
    The tokenizer of a loaded model. The router keeps the loaded model, and
    with it this object, for every request to the same model id.
   */
  class HuggingFaceChatTokenizer {
    var preFillToolsPrompt: string
    var strictMode: bool

    constructor ()
      ensures preFillToolsPrompt == "" && !strictMode
    {
      preFillToolsPrompt := "";
      strictMode := false;
    }

    /**
      `encode`: `basePrompt` is what the chat template renders. The prefill
      grows by this call's contribution and is never reset here.
     */
    method Encode(basePrompt: string, tools: seq<Tool>, toolChoice: ToolChoice) returns (prompt: string)
      modifies this
      ensures preFillToolsPrompt == old(preFillToolsPrompt) + PreFillFor(tools, toolChoice)
      ensures strictMode == old(strictMode)
      ensures prompt == basePrompt + preFillToolsPrompt
    {
      if tools != [] {
        if toolChoice.Specific? {
          preFillToolsPrompt := preFillToolsPrompt + StartToolCalls;
          preFillToolsPrompt := preFillToolsPrompt + "{\"name\": \"" + toolChoice.functionName + "\", \"arguments\":";
        }
      }
      prompt := basePrompt + preFillToolsPrompt;
    }

    /**
      The intended `encode`: the prefill describes the current request only,
      so a request never inherits the forced call of an earlier one.
     */
    method EncodeFixed(basePrompt: string, tools: seq<Tool>, toolChoice: ToolChoice) returns (prompt: string)
      modifies this
      ensures preFillToolsPrompt == PreFillFor(tools, toolChoice)
      ensures strictMode == old(strictMode)
      ensures prompt == basePrompt + PreFillFor(tools, toolChoice)
    {
      preFillToolsPrompt := PreFillFor(tools, toolChoice);
      prompt := basePrompt + preFillToolsPrompt;
    }

    /**
      `decode`: the prefill is put back in front of `text` before parsing
      (strictly, or by `parseToolCalls` otherwise), but the content returned
      when there are no calls is `text` alone. The strict parse used is the
      one that drops leading whitespace before locating the tags.
     */
    function Decode(c: Codec, text: string, parseToolCalls: string -> Option<seq<ToolCall>>, ids: nat -> string): (m: ChatMessage)
      reads this
      ensures m.content.None? <==> HasToolCalls(m)
      ensures m.content.Some? ==> m.content.value == text
      ensures m.reasoning.None?
      ensures m.toolCalls == if strictMode then ParseStrictToolsFixed(c, preFillToolsPrompt + text, ids)
                             else parseToolCalls(preFillToolsPrompt + text)
    {
      var response := preFillToolsPrompt + text;
      var toolCalls := if strictMode then ParseStrictToolsFixed(c, response, ids) else parseToolCalls(response);
      ChatMessage(if toolCalls.Some? && toolCalls.value != [] then None else Some(text), None, toolCalls)
    }
  }

  /**
    Two requests on the same tokenizer, both forcing a call: the second prompt
    ends with both prefills, so the model is asked to continue the first call
    inside the second one's tag.
   */
  method StalePreFill(first: string, second: string, basePrompt: string) returns (prompt: string)
    ensures prompt == basePrompt + PreFill(first) + PreFill(second)
  {
    var tokenizer := new HuggingFaceChatTokenizer();
    var tools := [Tool(first), Tool(second)];
    var _ := tokenizer.Encode(basePrompt, tools, Specific(first));
    prompt := tokenizer.Encode(basePrompt, tools, Specific(second));
    assert PreFillFor(tools, Specific(first)) == PreFill(first);
  }

  /** With the intended `encode`, the second prompt carries only its own prefill. */
  method FreshPreFill(first: string, second: string, basePrompt: string) returns (prompt: string)
    ensures prompt == basePrompt + PreFill(second)
  {
    var tokenizer := new HuggingFaceChatTokenizer();
    var tools := [Tool(first), Tool(second)];
    var _ := tokenizer.EncodeFixed(basePrompt, tools, Specific(first));
    prompt := tokenizer.EncodeFixed(basePrompt, tools, Specific(second));
  }

  /** A call body wrapped in the two tags. */
  function Tagged(body: string): string {
    StartToolCalls + body + EndToolCalls
  }

  /** The end tag is found where it was put when nothing before it holds a '/'. */
  lemma FindEndTag(pre: string, body: string)
    requires '/' !in pre + body
    ensures Contains(pre + body + EndToolCalls, EndToolCalls)
    ensures Find(pre + body + EndToolCalls, EndToolCalls) == |pre + body|
  {
    var text := pre + body + EndToolCalls;
    var n := |pre + body|;
    assert text[n..n + |EndToolCalls|] == EndToolCalls;
    assert OccursAt(text, EndToolCalls, n);
    forall j | 0 <= j < n
      ensures !OccursAt(text, EndToolCalls, j)
    {
      if j + 1 < n {
        assert text[j + 1] == (pre + body)[j + 1];
      } else {
        assert text[j + 1] == '<';
      }
      assert text[j..j + |EndToolCalls|][1] == text[j + 1];
    }
  }

  /** Whitespace in front of a tagged call is what `strip()` removes. */
  lemma StripIndentedTagged(pre: string, body: string)
    requires AllIn(pre, Whitespace)
    ensures Strip(pre + Tagged(body)) == Tagged(body)
    ensures StartsWith(Tagged(body), StartToolCalls)
  {
    var t := Tagged(body);
    assert t[0] == '<' && t[|t| - 1] == '>';
    assert !IsSpace('<') && !IsSpace('>');
    StripCharsOfPadded(pre, t, "", Whitespace);
    assert pre + t + "" == pre + t;
    assert t[..|StartToolCalls|] == StartToolCalls;
  }

  /** The payload of a call wrapped in exactly the tags, with nothing in front. */
  lemma StrictPayloadOfTagged(body: string)
    requires '/' !in body && body != []
    requires body[0] !in Whitespace && body[|body| - 1] !in Whitespace
    ensures Contains(Tagged(body), EndToolCalls)
    ensures StrictPayload(Tagged(body)) == body
    ensures StrictGuard(Tagged(body))
  {
    var text := Tagged(body);
    FindEndTag(StartToolCalls, body);
    assert Slice(text, |StartToolCalls|, |StartToolCalls + body|) == "" + body + "";
    StripCharsOfPadded("", body, "", Whitespace);
    StripIndentedTagged("", body);
    assert "" + text == text;
  }

  /**
    Two spaces in front of the start tag still pass the guard, but the slice
    then begins inside the tag, at its `>`: a text no JSON value starts with.
   */
  lemma StrictPayloadOfIndented(body: string)
    requires '/' !in body && body != []
    requires body[|body| - 1] !in Whitespace
    ensures Contains("  " + Tagged(body), EndToolCalls)
    ensures StrictPayload("  " + Tagged(body)) == ">\n" + body
    ensures StrictGuard("  " + Tagged(body))
  {
    IndentedSlice(body);
    IndentedPayloadStrips(body);
    IndentedGuard(body);
  }

  lemma IndentedSlice(body: string)
    requires '/' !in body
    ensures Contains("  " + Tagged(body), EndToolCalls)
    ensures Slice("  " + Tagged(body), |StartToolCalls|, Find("  " + Tagged(body), EndToolCalls)) == ">\n" + body
  {
    var text := "  " + Tagged(body);
    var pre := "  " + StartToolCalls;
    assert text == pre + body + EndToolCalls;
    FindEndTag(pre, body);
    assert text[|StartToolCalls|..|pre + body|] == ">\n" + body;
  }

  lemma IndentedGuard(body: string)
    ensures StartsWith(Strip("  " + Tagged(body)), StartToolCalls)
  {
    TwoSpaces();
    StripIndentedTagged("  ", body);
  }

  lemma TwoSpaces()
    ensures AllIn("  ", Whitespace)
  {
    assert IsSpace(' ');
  }

  lemma IndentedPayloadStrips(body: string)
    requires body != [] && body[|body| - 1] !in Whitespace
    ensures Strip(">\n" + body) == ">\n" + body
  {
    var p := ">\n" + body;
    assert p[0] == '>' && !IsSpace('>');
    assert p[|p| - 1] == body[|body| - 1];
    StripCharsOfPadded("", p, "", Whitespace);
    assert "" + p + "" == p;
  }

  /**
    The mismatch between the stripped guard and the unstripped slice: a call
    the parser accepts is rejected once the text is indented by two spaces.
   */
  lemma IndentedCallIsLost(c: Codec, body: string, ids: nat -> string)
    requires Conforms(c)
    requires '/' !in body && body != []
    requires body[0] !in Whitespace && body[|body| - 1] !in Whitespace
    requires c.parse(body).Some? && c.parse(body).value.JObject?
    requires Get(c.parse(body).value.members, "name").Some? && Get(c.parse(body).value.members, "name").value.JString?
    ensures ParseStrictTools(c, Tagged(body), ids).Some?
    ensures ParseStrictTools(c, "  " + Tagged(body), ids).None?
  {
    TaggedCallParses(c, body, ids);
    StrictPayloadOfIndented(body);
    NotAValue(c, body);
  }

  lemma TaggedCallParses(c: Codec, body: string, ids: nat -> string)
    requires '/' !in body && body != []
    requires body[0] !in Whitespace && body[|body| - 1] !in Whitespace
    requires c.parse(body).Some? && c.parse(body).value.JObject?
    requires Get(c.parse(body).value.members, "name").Some? && Get(c.parse(body).value.members, "name").value.JString?
    ensures ParseStrictTools(c, Tagged(body), ids).Some?
  {
    StrictPayloadOfTagged(body);
    var v := c.parse(body).value;
    assert HasKey(v.members, "name");
    assert ToFunctionCall(c, v).Ok? && ToFunctionCall(c, v).value.Some?;
    assert StrictCalls(c, v, ids).Some? && StrictCalls(c, v, ids).value != [];
  }

  /** A text that starts with `>` is not JSON. */
  lemma NotAValue(c: Codec, body: string)
    requires Conforms(c)
    ensures c.parse(">\n" + body).None?
  {
    var p := ">\n" + body;
    assert p[0] == '>';
    assert '>' !in JsonWhitespace && !ValueStart('>');
  }

  /** The intended strict parse: leading whitespace is removed before the tags are located. */
  function ParseStrictToolsFixed(c: Codec, text: string, ids: nat -> string): Option<seq<ToolCall>> {
    ParseStrictTools(c, LStrip(text, Whitespace), ids)
  }

  /** The intended parse does not depend on indentation, and agrees with the code on unindented text. */
  lemma ParseStrictToolsFixedIgnoresIndent(c: Codec, w: string, t: string, ids: nat -> string)
    requires AllIn(w, Whitespace)
    ensures ParseStrictToolsFixed(c, w + t, ids) == ParseStrictToolsFixed(c, t, ids)
    ensures t == [] || t[0] !in Whitespace ==> ParseStrictToolsFixed(c, t, ids) == ParseStrictTools(c, t, ids)
  {
    LStripOfPadding(w, t, Whitespace);
  }

  /** The indented call of `IndentedCallIsLost` is found by the intended parse. */
  lemma IndentedCallIsFound(c: Codec, body: string, ids: nat -> string)
    requires Conforms(c)
    requires '/' !in body && body != []
    requires body[0] !in Whitespace && body[|body| - 1] !in Whitespace
    requires c.parse(body).Some? && c.parse(body).value.JObject?
    requires Get(c.parse(body).value.members, "name").Some? && Get(c.parse(body).value.members, "name").value.JString?
    ensures ParseStrictToolsFixed(c, "  " + Tagged(body), ids) == ParseStrictTools(c, Tagged(body), ids)
    ensures ParseStrictToolsFixed(c, "  " + Tagged(body), ids).Some?
  {
    var tagged := Tagged(body);
    assert AllIn("  ", Whitespace);
    ParseStrictToolsFixedIgnoresIndent(c, "  ", tagged, ids);
    assert tagged[0] == '<' && !IsSpace('<');
    IndentedCallIsLost(c, body, ids);
  }
}
