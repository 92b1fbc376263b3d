/**
  The MLX chat model's generation loop and the two ways a completion is
  finished: `generate` buffers the whole completion into one response,
  `stream_generate` turns it into chunks. The generator, the tokenizer, the
  stop-word checker, the reasoning decoder and the chat tokenizer's decoder
  are external: they are the fields of an `Engine`, and the generator's
  responses are a sequence given in advance.
 */
module MlxModel {
  import opened Wrappers
  import opened Text
  import opened Json
  import opened ToolCalls
  import opened MlxParams

  /** One response of the generator: the sampled token, the reason it stopped if it did, and its running token counts. */
  datatype GenResponse = GenResponse(token: nat, finishReason: Option<string>, promptTokens: nat, generationTokens: nat)

  /** What the stop-word checker reports for the tokens so far. */
  datatype StopCondition = StopCondition(stopMet: bool, trimLength: nat)

  /** One step the loop yields: the new text, the token behind it, and the counts of the response. */
  datatype GenerateResult = GenerateResult(text: string, token: nat, finishReason: Option<string>, promptTokens: nat, generationTokens: nat)

  /** A non-empty result of the reasoning decoder: the answer and the reasoning it split off. */
  datatype Reasoning = Reasoning(content: Option<string>, reasoning: Option<string>)

  /** The external pieces one generation uses. */
  datatype Engine = Engine(
    decode: seq<nat> -> string,                              // `tokenizer.decode`
    checkStop: seq<nat> -> StopCondition,                    // `StopTokensChecker.check_stop_condition`
    reasoningDecode: (bool, string) -> Option<Reasoning>,    // `ReasoningDecoder.decode` under the thinking-prefix setting; None for a falsy result
    chatDecode: Option<string> -> Result<ChatMessage, string>, // `ChatTokenizer.decode`, or the error it raises
    encode: Kwargs -> string,                                // `ChatTokenizer.encode` of the request's messages and tools
    thinkingTag: string)                                     // `reasoning_decoder.thinking_tag`

  /** Python's `tokens[:-n]` for a positive `n`: all but the last `n`, or nothing when there are fewer. */
  function DropLast(tokens: seq<nat>, n: nat): (r: seq<nat>)
    requires n > 0
    ensures |r| == if n <= |tokens| then |tokens| - n else 0
    ensures r == tokens[..|r|]
  {
    if n <= |tokens| then tokens[..|tokens| - n] else []
  }

  /** The variables of the loop in `_stream_generate`, and whether it has left the loop. */
  datatype LoopState = LoopState(tokens: seq<nat>, lastText: string, results: seq<GenerateResult>, done: bool)

  const Initial := LoopState([], "", [], false)

  /**
    One turn of the loop. A response carrying a finish reason ends it before
    its token is kept. Otherwise the token is appended; when the stop checker
    (present only for a request with stop words) reports a stop, the reason
    becomes "stop" and a positive trim length drops that many tokens and ends
    the loop. The new text is the decoded tokens past the length of the text
    last yielded, and a result is yielded when that is non-empty or tokens
    were dropped.
   */
  function Step(s: LoopState, r: GenResponse, e: Engine, hasStop: bool): LoopState {
    if s.done then s
    else if r.finishReason.Some? then s.(done := true)
    else
      var appended := s.tokens + [r.token];
      var cond := if hasStop then e.checkStop(appended) else StopCondition(false, 0);
      var trim := cond.stopMet && cond.trimLength > 0;
      var tokens := if trim then DropLast(appended, cond.trimLength) else appended;
      var text := e.decode(tokens);
      var delta := Drop(text, |s.lastText|);
      if delta != "" || trim then
        var result := GenerateResult(delta, r.token, if cond.stopMet then Some("stop") else None, r.promptTokens, r.generationTokens);
        LoopState(tokens, text, s.results + [result], trim)
      else
        LoopState(tokens, s.lastText, s.results, false)
  }

  /** The loop over the responses `rs`. */
  function Run(rs: seq<GenResponse>, e: Engine, hasStop: bool): LoopState
    decreases |rs|
  {
    if rs == [] then Initial else Step(Run(rs[..|rs| - 1], e, hasStop), rs[|rs| - 1], e, hasStop)
  }

  /** Once the loop is left, later responses change nothing. */
  lemma {:induction false} DoneStays(rs: seq<GenResponse>, e: Engine, hasStop: bool, i: nat)
    requires i <= |rs| && Run(rs[..i], e, hasStop).done
    ensures Run(rs, e, hasStop) == Run(rs[..i], e, hasStop)
    decreases |rs| - i
  {
    if i < |rs| {
      assert rs[..i + 1][..i] == rs[..i];
      DoneStays(rs, e, hasStop, i + 1);
    } else {
      assert rs[..i] == rs;
    }
  }

  /**
    A response with a finish reason ends the loop: its token is never kept and
    nothing after it is looked at.
   */
  lemma FinishReasonEndsLoop(rs: seq<GenResponse>, e: Engine, hasStop: bool, j: nat)
    requires j < |rs| && rs[j].finishReason.Some?
    ensures Run(rs, e, hasStop) == Run(rs[..j], e, hasStop).(done := true)
  {
    assert rs[..j + 1][..j] == rs[..j];
    DoneStays(rs, e, hasStop, j + 1);
  }

  /** The loop yields no finish reason but "stop", and "stop" only when the stop checker reported one. */
  lemma {:induction false} OnlyStopIsYielded(rs: seq<GenResponse>, e: Engine, hasStop: bool)
    ensures forall r :: r in Run(rs, e, hasStop).results ==> r.finishReason == None || r.finishReason == Some("stop")
    ensures !hasStop ==> forall r :: r in Run(rs, e, hasStop).results ==> r.finishReason == None
    decreases |rs|
  {
    if rs != [] {
      OnlyStopIsYielded(rs[..|rs| - 1], e, hasStop);
    }
  }

  /**
    Every text of `s` is non-empty except possibly the last one, which then
    comes from a trim: it says "stop" and the loop has ended.
   */
  ghost predicate EmptyTextOnlyLast(s: LoopState) {
    forall i :: 0 <= i < |s.results| && s.results[i].text == "" ==>
      i == |s.results| - 1 && s.done && s.results[i].finishReason == Some("stop")
  }

  /** The loop yields an empty text only when a trim ends it, and then as its last result. */
  lemma {:induction false} EmptyTextOnlyOnTrim(rs: seq<GenResponse>, e: Engine, hasStop: bool)
    ensures EmptyTextOnlyLast(Run(rs, e, hasStop))
    decreases |rs|
  {
    if rs != [] {
      var prev := Run(rs[..|rs| - 1], e, hasStop);
      EmptyTextOnlyOnTrim(rs[..|rs| - 1], e, hasStop);
      var r := rs[|rs| - 1];
      if !prev.done && r.finishReason.None? {
        assert forall i :: 0 <= i < |prev.results| ==> prev.results[i].text != "";
      }
    }
  }

  /** Decoding one more token only ever adds text at the end. */
  ghost predicate PrefixStable(decode: seq<nat> -> string) {
    && decode([]) == ""
    && forall t: seq<nat>, x: nat {:trigger decode(t + [x])} :: StartsWith(decode(t + [x]), decode(t))
  }

  function Texts(results: seq<GenerateResult>): seq<string> {
    seq(|results|, i requires 0 <= i < |results| => results[i].text)
  }

  lemma TextsSnoc(results: seq<GenerateResult>, r: GenerateResult)
    ensures Concat(Texts(results + [r])) == Concat(Texts(results)) + r.text
  {
    assert Texts(results + [r])[..|results|] == Texts(results);
  }

  /**
    Without stop words and with a tokenizer whose text only grows, the
    yielded texts put together are exactly the decoded kept tokens, and the
    loop's last text is that text too.
   */
  lemma {:induction false} DeltasReassemble(rs: seq<GenResponse>, e: Engine)
    requires PrefixStable(e.decode)
    ensures var s := Run(rs, e, false);
      && s.lastText == e.decode(s.tokens)
      && Concat(Texts(s.results)) == s.lastText
    decreases |rs|
  {
    if rs != [] {
      var prev := Run(rs[..|rs| - 1], e, false);
      DeltasReassemble(rs[..|rs| - 1], e);
      var r := rs[|rs| - 1];
      if !prev.done && r.finishReason.None? {
        var tokens := prev.tokens + [r.token];
        var text := e.decode(tokens);
        assert StartsWith(text, prev.lastText);
        var delta := Drop(text, |prev.lastText|);
        assert text == prev.lastText + delta by {
          assert text == text[..|prev.lastText|] + text[|prev.lastText|..];
        }
        if delta != "" {
          TextsSnoc(prev.results, GenerateResult(delta, r.token, None, r.promptTokens, r.generationTokens));
        }
      }
    }
  }

  /** The tokens of the results, in order. */
  function TokensOf(results: seq<GenerateResult>): seq<nat> {
    seq(|results|, i requires 0 <= i < |results| => results[i].token)
  }

  /** The last truthy finish reason of the results, "stop" when there is none. */
  function LastFinish(results: seq<GenerateResult>): string
    decreases |results|
  {
    if results == [] then "stop"
    else
      var r := results[|results| - 1];
      if r.finishReason.Some? && r.finishReason.value != "" then r.finishReason.value else LastFinish(results[..|results| - 1])
  }

  /** The buffered path only ever ends with "stop" as the loop's finish reason. */
  lemma {:induction false} LastFinishIsStop(results: seq<GenerateResult>)
    requires forall r :: r in results ==> r.finishReason == None || r.finishReason == Some("stop")
    ensures LastFinish(results) == "stop"
    decreases |results|
  {
    if results != [] {
      assert results[|results| - 1] in results;
      LastFinishIsStop(results[..|results| - 1]);
    }
  }

  /**
    The text `generate` finalises, as written: the decoding of the token of
    every yielded result. This keeps a stop word's last token, which the loop
    dropped, and loses the tokens of steps that yielded nothing.
   */
  function BufferedText(results: seq<GenerateResult>, decode: seq<nat> -> string): string {
    if results == [] then "" else decode(TokensOf(results))
  }

  /** The text the loop kept: the decoding of its final token list, the one the prompt cache is extended with. */
  function KeptText(rs: seq<GenResponse>, e: Engine, hasStop: bool): string {
    e.decode(Run(rs, e, hasStop).tokens)
  }

  /** A tokenizer where every token is one character "x". */
  function OneCharPerToken(tokens: seq<nat>): string {
    seq(|tokens|, i requires 0 <= i < |tokens| => 'x')
  }

  /** A stop checker for the stop word made of token 9 alone. */
  function StopOnNine(tokens: seq<nat>): StopCondition {
    if tokens != [] && tokens[|tokens| - 1] == 9 then StopCondition(true, 1) else StopCondition(false, 0)
  }

  /**
    The buffered text keeps the stop word: generating token 1 then the stop
    token 9 makes the loop keep [1] ("x"), and the stream's chunks say "x",
    yet the buffered completion decodes [1, 9] to "xx".
   */
  lemma BufferedTextKeepsStopWord(reasoningDecode: (bool, string) -> Option<Reasoning>, chatDecode: Option<string> -> Result<ChatMessage, string>,
                                  encode: Kwargs -> string, tag: string)
    ensures var e := Engine(OneCharPerToken, StopOnNine, reasoningDecode, chatDecode, encode, tag);
      var rs := [GenResponse(1, None, 3, 1), GenResponse(9, None, 3, 2)];
      && KeptText(rs, e, true) == "x"
      && Concat(Texts(Run(rs, e, true).results)) == "x"
      && BufferedText(Run(rs, e, true).results, e.decode) == "xx"
  {
    var e := Engine(OneCharPerToken, StopOnNine, reasoningDecode, chatDecode, encode, tag);
    var rs := [GenResponse(1, None, 3, 1), GenResponse(9, None, 3, 2)];
    assert rs[..1] == [rs[0]] && rs[..1][..0] == [];
    var s1 := Run(rs[..1], e, true);
    assert OneCharPerToken([1]) == "x";
    assert Run(rs[..1][..0], e, true) == Initial;
    assert [] + [1] == [1];
    assert StopOnNine([1]) == StopCondition(false, 0);
    assert Drop("x", 0) == "x";
    assert s1 == LoopState([1], "x", [GenerateResult("x", 1, None, 3, 1)], false);
    assert DropLast([1, 9], 1) == [1];
    assert Run(rs, e, true) == LoopState([1], "x", [GenerateResult("x", 1, None, 3, 1), GenerateResult("", 9, Some("stop"), 3, 2)], true);
    var results := Run(rs, e, true).results;
    assert Texts(results) == ["x", ""];
    assert Concat(["x", ""]) == Concat(["x"]) + "";
    assert Concat(["x"]) == Concat([]) + "x";
    assert TokensOf(results) == [1, 9];
    assert OneCharPerToken([1, 9]) == "xx";
  }

  /** A stop checker that never trims more than the last token. */
  ghost predicate TrimsAtMostOne(e: Engine, hasStop: bool) {
    hasStop ==> forall t :: e.checkStop(t).trimLength <= 1
  }

  /**
    How the stream relates to the loop's state: the last text is the
    decoding of the kept tokens, and the yielded texts put together start
    with it; they are equal while the loop runs, and still at its end when
    no trim dropped more than the last token.
   */
  ghost predicate StreamAgrees(s: LoopState, e: Engine, hasStop: bool) {
    && s.lastText == e.decode(s.tokens)
    && StartsWith(Concat(Texts(s.results)), s.lastText)
    && (!s.done || TrimsAtMostOne(e, hasStop) ==> Concat(Texts(s.results)) == s.lastText)
  }

  lemma StartsWithTrans(a: string, b: string, c: string)
    requires StartsWith(a, b) && StartsWith(b, c)
    ensures StartsWith(a, c)
  {
    assert a[..|c|] == a[..|b|][..|c|];
  }

  /** With a tokenizer whose text only grows, the text of a prefix of the tokens is a prefix of their text. */
  lemma {:induction false} DecodePrefix(decode: seq<nat> -> string, t: seq<nat>, k: nat)
    requires PrefixStable(decode) && k <= |t|
    ensures StartsWith(decode(t), decode(t[..k]))
    decreases |t|
  {
    if k == |t| {
      assert t[..k] == t;
    } else {
      var init := t[..|t| - 1];
      assert t == init + [t[|t| - 1]];
      assert init[..k] == t[..k];
      DecodePrefix(decode, init, k);
      StartsWithTrans(decode(t), decode(init), decode(t[..k]));
    }
  }

  /** One step of the loop keeps the stream in agreement with its state. */
  lemma StepAgrees(prev: LoopState, r: GenResponse, e: Engine, hasStop: bool)
    requires PrefixStable(e.decode) && StreamAgrees(prev, e, hasStop)
    ensures StreamAgrees(Step(prev, r, e, hasStop), e, hasStop)
  {
    if !prev.done && r.finishReason.None? {
      var appended := prev.tokens + [r.token];
      var cond := if hasStop then e.checkStop(appended) else StopCondition(false, 0);
      var trim := cond.stopMet && cond.trimLength > 0;
      var streamed := Concat(Texts(prev.results));
      if trim {
        var tokens := DropLast(appended, cond.trimLength);
        assert tokens == prev.tokens[..|tokens|];
        DecodePrefix(e.decode, prev.tokens, |tokens|);
        var text := e.decode(tokens);
        StartsWithTrans(streamed, prev.lastText, text);
        TextsSnoc(prev.results, GenerateResult("", r.token, Some("stop"), r.promptTokens, r.generationTokens));
        if TrimsAtMostOne(e, hasStop) {
          assert tokens == prev.tokens;
        }
      } else {
        var text := e.decode(appended);
        assert StartsWith(text, prev.lastText);
        var delta := Drop(text, |prev.lastText|);
        assert text == prev.lastText + delta by {
          assert text == text[..|prev.lastText|] + text[|prev.lastText|..];
        }
        if delta != "" {
          TextsSnoc(prev.results, GenerateResult(delta, r.token, if cond.stopMet then Some("stop") else None,
                                                 r.promptTokens, r.generationTokens));
        }
      }
    }
  }

  lemma {:induction false} StreamAgreesAlways(rs: seq<GenResponse>, e: Engine, hasStop: bool)
    requires PrefixStable(e.decode)
    ensures StreamAgrees(Run(rs, e, hasStop), e, hasStop)
    decreases |rs|
  {
    if rs != [] {
      StreamAgreesAlways(rs[..|rs| - 1], e, hasStop);
      StepAgrees(Run(rs[..|rs| - 1], e, hasStop), rs[|rs| - 1], e, hasStop);
    }
  }

  /**
    With a tokenizer whose text only grows, the kept text (the text of the
    tokens the prompt cache is extended with) is a prefix of what the
    stream's chunks add up to, and the two are equal when no stop word is
    trimmed by more than its last token.
   */
  lemma KeptTextIsStreamedText(rs: seq<GenResponse>, e: Engine, hasStop: bool)
    requires PrefixStable(e.decode)
    ensures StartsWith(Concat(Texts(Run(rs, e, hasStop).results)), KeptText(rs, e, hasStop))
    ensures TrimsAtMostOne(e, hasStop) ==> KeptText(rs, e, hasStop) == Concat(Texts(Run(rs, e, hasStop).results))
  {
    StreamAgreesAlways(rs, e, hasStop);
  }

  /** A stop checker for the stop word made of tokens 8 then 9. */
  function StopOnEightNine(tokens: seq<nat>): StopCondition {
    if |tokens| >= 2 && tokens[|tokens| - 2] == 8 && tokens[|tokens| - 1] == 9 then StopCondition(true, 2)
    else StopCondition(false, 0)
  }

  /** Tokens 1 then 8 with no stop word met stream "x" twice. */
  lemma StreamOneEight(rs: seq<GenResponse>, e: Engine)
    requires |rs| >= 2 && rs[0] == GenResponse(1, None, 3, 1) && rs[1] == GenResponse(8, None, 3, 2)
    requires e.decode == OneCharPerToken && e.checkStop == StopOnEightNine
    ensures Run(rs[..2], e, true) == LoopState([1, 8], "xx", [GenerateResult("x", 1, None, 3, 1), GenerateResult("x", 8, None, 3, 2)], false)
  {
    assert rs[..2][..1] == rs[..1] && rs[..1][..0] == [];
    assert Run(rs[..1][..0], e, true) == Initial;
    assert [] + [1] == [1] && [1] + [8] == [1, 8];
    assert OneCharPerToken([1]) == "x" && OneCharPerToken([1, 8]) == "xx";
    assert StopOnEightNine([1]) == StopCondition(false, 0);
    assert StopOnEightNine([1, 8]) == StopCondition(false, 0);
    assert Drop("x", 0) == "x" && Drop("xx", 1) == "x";
    assert Run(rs[..1], e, true) == LoopState([1], "x", [GenerateResult("x", 1, None, 3, 1)], false);
  }

  /**
    A stop word of two tokens: generating 1, 8, 9 streams "x" then "x" for
    the token 8 before the stop word is recognised, while the loop keeps [1]
    alone, whose text is "x".
   */
  lemma StreamSendsEarlierStopTokens(reasoningDecode: (bool, string) -> Option<Reasoning>,
                                     chatDecode: Option<string> -> Result<ChatMessage, string>,
                                     encode: Kwargs -> string, tag: string)
    ensures var e := Engine(OneCharPerToken, StopOnEightNine, reasoningDecode, chatDecode, encode, tag);
      var rs := [GenResponse(1, None, 3, 1), GenResponse(8, None, 3, 2), GenResponse(9, None, 3, 3)];
      && KeptText(rs, e, true) == "x"
      && Concat(Texts(Run(rs, e, true).results)) == "xx"
  {
    var e := Engine(OneCharPerToken, StopOnEightNine, reasoningDecode, chatDecode, encode, tag);
    var rs := [GenResponse(1, None, 3, 1), GenResponse(8, None, 3, 2), GenResponse(9, None, 3, 3)];
    StreamOneEight(rs, e);
    var g1 := GenerateResult("x", 1, None, 3, 1);
    var g2 := GenerateResult("x", 8, None, 3, 2);
    var g3 := GenerateResult("", 9, Some("stop"), 3, 3);
    assert [1, 8] + [9] == [1, 8, 9];
    assert StopOnEightNine([1, 8, 9]) == StopCondition(true, 2);
    assert DropLast([1, 8, 9], 2) == [1];
    assert OneCharPerToken([1]) == "x" && Drop("x", 2) == "";
    assert rs[..3] == rs;
    assert Run(rs, e, true) == LoopState([1], "x", [g1, g2, g3], true);
    assert Texts([g1, g2, g3]) == ["x", "x", ""];
    assert Concat(["x", "x", ""]) == Concat(["x", "x"]) + "";
    assert Concat(["x", "x"]) == Concat(["x"]) + "x";
    assert Concat(["x"]) == Concat([]) + "x";
  }

  /** The token counts of a response. */
  datatype Usage = Usage(promptTokens: nat, completionTokens: nat, totalTokens: nat, cachedTokens: Option<nat>)

  /**
    The usage of a completion from its last result and the prompt tokens
    served from the cache: the cached tokens count as prompt tokens, and the
    details report them only when there are some.
   */
  function UsageOf(last: GenerateResult, cached: nat): (u: Usage)
    ensures u.totalTokens == u.promptTokens + u.completionTokens
    ensures u.promptTokens == last.promptTokens + cached && u.completionTokens == last.generationTokens
    ensures u.cachedTokens.Some? <==> cached > 0
    ensures u.cachedTokens.Some? ==> u.cachedTokens.value == cached
  {
    Usage(last.promptTokens + cached, last.generationTokens, last.promptTokens + last.generationTokens + cached,
          if cached > 0 then Some(cached) else None)
  }

  /** The one choice of a buffered response. */
  datatype ChatCompletion = ChatCompletion(model: string, message: ChatMessage, finishReason: string, usage: Usage)

  /** The error `generate` raises, wrapping the message of the one it caught. */
  function GenerateFailure(message: string): string {
    "Failed to generate completion: " + message
  }

  /**
    Stands for the `TypeError` the template merge raises when the
    configuration is not a dict; Python's own wording is not modelled.
   */
  const TemplateConfigError := "chat_template_config is not a dict"

  /**
    The content and reasoning the buffered path finalises: with thinking
    enabled and a non-empty reasoning result (the decoder told whether the
    prompt already opened the thinking block), the result's content (which
    may be None) and its reasoning unless empty; otherwise the text itself.
   */
  function BufferedContent(completion: string, enableThinking: bool, thinkingPrefix: bool,
                           reasoningDecode: (bool, string) -> Option<Reasoning>): (Option<string>, Option<string>)
  {
    if enableThinking && reasoningDecode(thinkingPrefix, completion).Some? then
      var rr := reasoningDecode(thinkingPrefix, completion).value;
      (rr.content, if rr.reasoning.Some? && rr.reasoning.value != "" then rr.reasoning else None)
    else (Some(completion), None)
  }

  /**
    The end of `generate`: no result is an error; otherwise the message is
    the tool parser's when the request offers tools and a plain message
    otherwise, and the finish reason is "tool_calls" when the message has
    tool calls and the loop's reason otherwise.
   */
  function FinishBuffered(request: ChatRequest, e: Engine, results: seq<GenerateResult>, completion: string,
                          finishReason: string, enableThinking: bool, thinkingPrefix: bool, cached: nat): (r: Result<ChatCompletion, string>)
    ensures results == [] ==> r == Err(GenerateFailure("No tokens generated"))
    ensures r.Ok? ==> results != [] && r.value.usage == UsageOf(results[|results| - 1], cached) && r.value.model == request.model
    ensures r.Ok? ==> (r.value.finishReason == "tool_calls" <==> HasToolCalls(r.value.message) || finishReason == "tool_calls")
    ensures r.Ok? && !HasToolCalls(r.value.message) ==> r.value.finishReason == finishReason
    ensures r.Ok? && request.tools == [] ==>
      r.value.message == ChatMessage(BufferedContent(completion, enableThinking, thinkingPrefix, e.reasoningDecode).0,
                                     BufferedContent(completion, enableThinking, thinkingPrefix, e.reasoningDecode).1, None)
    ensures results != [] && request.tools != [] ==>
      match e.chatDecode(BufferedContent(completion, enableThinking, thinkingPrefix, e.reasoningDecode).0)
      case Ok(m) => r.Ok? && r.value.message == m
      case Err(msg) => r == Err(GenerateFailure(msg))
  {
    if results == [] then Err(GenerateFailure("No tokens generated"))
    else
      var (content, reasoning) := BufferedContent(completion, enableThinking, thinkingPrefix, e.reasoningDecode);
      var message := if request.tools != [] then e.chatDecode(content) else Ok(ChatMessage(content, reasoning, None));
      match message
      case Err(msg) => Err(GenerateFailure(msg))
      case Ok(m) =>
        Ok(ChatCompletion(request.model, m, if HasToolCalls(m) then "tool_calls" else finishReason,
                          UsageOf(results[|results| - 1], cached)))
  }

  /** A tool call as a stream chunk carries it, with its position. */
  datatype DeltaToolCall = DeltaToolCall(index: nat, call: ToolCall)

  /** The delta of a chunk. */
  datatype Delta =
    | ContentDelta(content: string)
    | EmptyDelta
    | ToolCallsDelta(calls: seq<DeltaToolCall>)

  /** One streamed chunk's single choice, and the usage when it is the usage chunk. */
  datatype Chunk = Chunk(model: string, delta: Delta, finishReason: Option<string>, usage: Option<Usage>)

  /**
    The text the stream finalises: with thinking enabled and a non-empty
    reasoning result, its content unless that is None or empty, in which
    case the streamed text stays.
   */
  function StreamedText(full: string, enableThinking: bool, thinkingPrefix: bool, reasoningDecode: (bool, string) -> Option<Reasoning>): string {
    if enableThinking && reasoningDecode(thinkingPrefix, full).Some? then
      var content := reasoningDecode(thinkingPrefix, full).value.content;
      if content.Some? && content.value != "" then content.value else full
    else full
  }

  /** The tool calls numbered 0, 1, ... in the order the parser returned them. */
  function Indexed(calls: seq<ToolCall>): (r: seq<DeltaToolCall>)
    ensures |r| == |calls|
    ensures forall i :: 0 <= i < |calls| ==> r[i] == DeltaToolCall(i, calls[i])
  {
    seq(|calls|, i requires 0 <= i < |calls| => DeltaToolCall(i, calls[i]))
  }

  /**
    The chunk that ends the choice: the tool calls and "tool_calls" when the
    request offers tools and the parser finds some; an empty delta and
    "stop" otherwise, a parser error included.
   */
  function FinalChunk(request: ChatRequest, e: Engine, text: string): (c: Chunk)
    ensures c.finishReason == Some("tool_calls") <==>
      request.tools != [] && e.chatDecode(Some(text)).Ok? && HasToolCalls(e.chatDecode(Some(text)).value)
    ensures c.finishReason != Some("tool_calls") ==> c == Chunk(request.model, EmptyDelta, Some("stop"), None)
    ensures c.finishReason == Some("tool_calls") ==>
      c == Chunk(request.model, ToolCallsDelta(Indexed(e.chatDecode(Some(text)).value.toolCalls.value)), Some("tool_calls"), None)
  {
    if request.tools != [] && e.chatDecode(Some(text)).Ok? && HasToolCalls(e.chatDecode(Some(text)).value) then
      Chunk(request.model, ToolCallsDelta(Indexed(e.chatDecode(Some(text)).value.toolCalls.value)), Some("tool_calls"), None)
    else Chunk(request.model, EmptyDelta, Some("stop"), None)
  }

  /** A content chunk for each result. */
  function ContentChunks(model: string, results: seq<GenerateResult>): (r: seq<Chunk>)
    ensures |r| == |results|
    ensures forall i :: 0 <= i < |results| ==> r[i] == Chunk(model, ContentDelta(results[i].text), None, None)
  {
    seq(|results|, i requires 0 <= i < |results| => Chunk(model, ContentDelta(results[i].text), None, None))
  }

  /**
    Stands for the `UnboundLocalError` the usage chunk raises when the loop
    yielded nothing: it reads the last result, which was never bound.
   */
  const UnboundResultError := "cannot access local variable 'result' where it is not associated with a value"

  /**
    The chunks `stream_generate` yields and the error it ends with, if any:
    a content chunk per result, the final chunk, and, when usage is asked
    for, the usage chunk of the last result, or an error when there is none.
   */
  function StreamChunks(request: ChatRequest, e: Engine, results: seq<GenerateResult>, full: string,
                        enableThinking: bool, thinkingPrefix: bool, cached: nat): (seq<Chunk>, Option<string>)
  {
    var chunks := ContentChunks(request.model, results) + [FinalChunk(request, e, StreamedText(full, enableThinking, thinkingPrefix, e.reasoningDecode))];
    if !request.includeUsage then (chunks, None)
    else if results == [] then (chunks, Some(UnboundResultError))
    else (chunks + [Chunk(request.model, EmptyDelta, None, Some(UsageOf(results[|results| - 1], cached)))], None)
  }

  /**
    The stream: one content chunk per result with no finish reason, exactly
    one final chunk with "stop" or "tool_calls", and a usage chunk only when
    asked for, which fails when nothing was generated.
   */
  lemma StreamShape(request: ChatRequest, e: Engine, results: seq<GenerateResult>, full: string, enableThinking: bool,
                    thinkingPrefix: bool, cached: nat)
    ensures var (chunks, failure) := StreamChunks(request, e, results, full, enableThinking, thinkingPrefix, cached);
      && |chunks| == |results| + 1 + (if request.includeUsage && results != [] then 1 else 0)
      && (forall i :: 0 <= i < |results| ==> chunks[i].delta == ContentDelta(results[i].text) && chunks[i].finishReason == None)
      && chunks[|results|].finishReason in {Some("stop"), Some("tool_calls")}
      && (forall i :: 0 <= i < |chunks| && i != |results| ==> chunks[i].finishReason == None)
      && (failure.Some? <==> request.includeUsage && results == [])
      && (request.includeUsage && results != [] ==>
            chunks[|results| + 1].usage == Some(UsageOf(results[|results| - 1], cached)))
  {
  }

  /**
    Both paths agree on the tool calls: when the request offers tools, thinking
    is off, and the buffered path finalises the same text the stream does
    and the parser accepts it, the response has tool calls exactly when the
    final chunk has, they are the same calls, and the finish reasons match.
   */
  lemma ToolCallsAgree(request: ChatRequest, e: Engine, results: seq<GenerateResult>, text: string, cached: nat)
    requires request.tools != [] && results != [] && e.chatDecode(Some(text)).Ok?
    requires forall r :: r in results ==> r.finishReason == None || r.finishReason == Some("stop")
    ensures var buffered := FinishBuffered(request, e, results, text, LastFinish(results), false, false, cached);
      var final := FinalChunk(request, e, StreamedText(text, false, false, e.reasoningDecode));
      && buffered.Ok?
      && (buffered.value.finishReason == "tool_calls" <==> final.finishReason == Some("tool_calls"))
      && (buffered.value.finishReason != "tool_calls" ==> buffered.value.finishReason == "stop" && final.finishReason == Some("stop"))
      && (final.delta.ToolCallsDelta? ==>
            |final.delta.calls| == |buffered.value.message.toolCalls.value|
            && forall i :: 0 <= i < |final.delta.calls| ==>
                 final.delta.calls[i] == DeltaToolCall(i, buffered.value.message.toolCalls.value[i]))
  {
    LastFinishIsStop(results);
  }

  /**
    What the two paths hand the tool parser once reasoning is decoded:
    `generate` passes the reasoning result's content, `stream_generate` that
    content only when it is non-empty and the whole text otherwise. They
    differ when the content is None or empty and the text is not.
   */
  lemma ThinkingPathsFeedParser(text: string, enableThinking: bool, thinkingPrefix: bool,
                                reasoningDecode: (bool, string) -> Option<Reasoning>)
    ensures var buffered := BufferedContent(text, enableThinking, thinkingPrefix, reasoningDecode).0;
      var streamed := StreamedText(text, enableThinking, thinkingPrefix, reasoningDecode);
      var rr := reasoningDecode(thinkingPrefix, text);
      && (!enableThinking || rr.None? ==> buffered == Some(text) && streamed == text)
      && (enableThinking && rr.Some? && rr.value.content.Some? && rr.value.content.value != "" ==>
            buffered == Some(streamed) && streamed == rr.value.content.value)
      && (enableThinking && rr.Some? && rr.value.content.None? ==> buffered == None && streamed == text)
      && (enableThinking && rr.Some? && rr.value.content == Some("") ==> buffered == Some("") && streamed == text)
  {
  }

  /**
    One turn of the loop of `_stream_generate` for a response without a
    finish reason: append its token, consult the stop checker, trim, and
    yield the new text when there is some or tokens were dropped. `trimmed`
    tells the loop to break.
   */
  method Turn(tokens: seq<nat>, lastText: string, results: seq<GenerateResult>, response: GenResponse, e: Engine, hasStop: bool)
    returns (tokens': seq<nat>, lastText': string, results': seq<GenerateResult>, trimmed: bool)
    requires response.finishReason.None?
    ensures Step(LoopState(tokens, lastText, results, false), response, e, hasStop) == LoopState(tokens', lastText', results', trimmed)
  {
    tokens' := tokens + [response.token];
    var finishReason: Option<string> := None;
    trimmed := false;
    if hasStop {
      var cond := e.checkStop(tokens');
      if cond.stopMet {
        finishReason := Some("stop");
        if cond.trimLength > 0 {
          tokens' := DropLast(tokens', cond.trimLength);
          trimmed := true;
        }
      }
    }
    var text := e.decode(tokens');
    var delta := Drop(text, |lastText|);
    lastText' := lastText;
    results' := results;
    if delta != "" || trimmed {
      results' := results + [GenerateResult(delta, response.token, finishReason, response.promptTokens, response.generationTokens)];
      lastText' := text;
    }
  }

  /**
    The loop of `_stream_generate` over the generator's responses: it stops
    at the first response with a finish reason or at the first trim, and
    returns what it yielded and the tokens it kept.
   */
  method RunLoop(rs: seq<GenResponse>, e: Engine, hasStop: bool) returns (results: seq<GenerateResult>, kept: seq<nat>)
    ensures results == Run(rs, e, hasStop).results && kept == Run(rs, e, hasStop).tokens
  {
    var lastText := "";
    kept, results := [], [];
    var i := 0;
    while i < |rs|
      invariant 0 <= i <= |rs|
      invariant Run(rs[..i], e, hasStop) == LoopState(kept, lastText, results, false)
    {
      var response := rs[i];
      assert rs[..i + 1][..i] == rs[..i];
      if response.finishReason.Some? {
        DoneStays(rs, e, hasStop, i + 1);
        return;
      }
      var trimmed;
      kept, lastText, results, trimmed := Turn(kept, lastText, results, response, e, hasStop);
      if trimmed {
        DoneStays(rs, e, hasStop, i + 1);
        return;
      }
      i := i + 1;
    }
    assert rs[..i] == rs;
  }

  /**
    The state the model keeps per request: the prompt cache's token count
    and the token lists the cache was extended with (the cache itself is
    external), and the reasoning decoder's two settings.
   */
  class RequestContext {
    var promptCacheTokensCount: nat
    var cacheExtensions: seq<seq<nat>>
    var enableThinking: bool
    var thinkingPrefix: bool

    /** A new context: no cached tokens; the decoder starts with the settings it is given. */
    constructor(enableThinking0: bool, thinkingPrefix0: bool)
      ensures promptCacheTokensCount == 0 && cacheExtensions == []
      ensures enableThinking == enableThinking0 && thinkingPrefix == thinkingPrefix0
    {
      promptCacheTokensCount := 0;
      cacheExtensions := [];
      enableThinking := enableThinking0;
      thinkingPrefix := thinkingPrefix0;
    }

    /**
      `_prepare_generation`: work out the generation's arguments and tell the
      reasoning decoder whether thinking is enabled and, if so, whether the
      prompt ends with the opening thinking tag. Nothing changes when the
      template merge fails.
     */
    method PrepareGeneration(request: ChatRequest, e: Engine) returns (p: Option<Prepared>)
      modifies this
      ensures p == Prepare(request, e.encode, e.thinkingTag)
      ensures p.Some? ==> enableThinking == p.value.enableThinking
      ensures p.Some? && p.value.enableThinking ==> thinkingPrefix == p.value.thinkingPrefix
      ensures p.None? || !p.value.enableThinking ==> thinkingPrefix == old(thinkingPrefix)
      ensures p.None? ==> enableThinking == old(enableThinking)
      ensures promptCacheTokensCount == old(promptCacheTokensCount) && cacheExtensions == old(cacheExtensions)
    {
      var params := GetGenerationParams(request.extra);
      var template := TemplateKwargs(params);
      if template.None? {
        return None;
      }
      var sampler := SamplerKwargs(request.temperature, request.topP, params.sampler);
      var prompt := e.encode(template.value);
      var enable := EnableThinking(template.value);
      enableThinking := enable;
      if enable {
        thinkingPrefix := true;
        if EndsWith(prompt, OpenTag(e.thinkingTag)) {
          thinkingPrefix := true;
        } else {
          thinkingPrefix := false;
        }
      }
      var processors := LogitsChoice(request.jsonSchema, request.logprobs, request.topLogprobs);
      var generate := GenerateKwargs(params.generate, sampler, processors, request.maxTokens);
      p := Some(Prepared(template.value, prompt, enable, enable && EndsWith(prompt, OpenTag(e.thinkingTag)), generate, request.stop != []));
    }

    /**
      The bookkeeping after the loop of `_stream_generate`: the context takes
      the prompt cache's count (`cachedCount`) and the cache is extended with
      the kept tokens, which are returned with the loop's results.
     */
    method TokenLoop(rs: seq<GenResponse>, e: Engine, hasStop: bool, cachedCount: nat)
      returns (results: seq<GenerateResult>, kept: seq<nat>)
      modifies this
      ensures results == Run(rs, e, hasStop).results && kept == Run(rs, e, hasStop).tokens
      ensures promptCacheTokensCount == cachedCount
      ensures cacheExtensions == old(cacheExtensions) + [kept]
      ensures enableThinking == old(enableThinking) && thinkingPrefix == old(thinkingPrefix)
    {
      results, kept := RunLoop(rs, e, hasStop);
      promptCacheTokensCount := cachedCount;
      cacheExtensions := cacheExtensions + [kept];
    }

    /** `_stream_generate`: prepare, then run the loop; the template error ends it before the loop. */
    method StreamGenerate(request: ChatRequest, e: Engine, rs: seq<GenResponse>, cachedCount: nat)
      returns (r: Result<(seq<GenerateResult>, seq<nat>), string>)
      modifies this
      ensures r.Err? <==> Prepare(request, e.encode, e.thinkingTag).None?
      ensures r.Err? ==> r.error == TemplateConfigError
      ensures r.Err? ==> enableThinking == old(enableThinking) && thinkingPrefix == old(thinkingPrefix)
      ensures r.Err? ==> promptCacheTokensCount == old(promptCacheTokensCount) && cacheExtensions == old(cacheExtensions)
      ensures r.Ok? ==>
        && r.value.0 == Run(rs, e, request.stop != []).results
        && r.value.1 == Run(rs, e, request.stop != []).tokens
        && enableThinking == Prepare(request, e.encode, e.thinkingTag).value.enableThinking
        && (enableThinking ==> thinkingPrefix == Prepare(request, e.encode, e.thinkingTag).value.thinkingPrefix)
        && promptCacheTokensCount == cachedCount
        && cacheExtensions == old(cacheExtensions) + [r.value.1]
    {
      var prepared := PrepareGeneration(request, e);
      if prepared.None? {
        return Err(TemplateConfigError);
      }
      var results, kept := TokenLoop(rs, e, request.stop != [], cachedCount);
      r := Ok((results, kept));
    }

    /**
      The tokens and finish reason `generate` collects from the results, as
      written: the token of each result, and the last truthy finish reason,
      "stop" by default.
     */
    method CollectBuffered(results: seq<GenerateResult>) returns (tokens: seq<nat>, finishReason: string)
      ensures tokens == TokensOf(results)
      ensures finishReason == LastFinish(results)
    {
      tokens := [];
      finishReason := "stop";
      for i := 0 to |results|
        invariant tokens == TokensOf(results[..i])
        invariant finishReason == LastFinish(results[..i])
      {
        assert results[..i + 1][..i] == results[..i];
        tokens := tokens + [results[i].token];
        if results[i].finishReason.Some? && results[i].finishReason.value != "" {
          finishReason := results[i].finishReason.value;
        }
      }
      assert results[..|results|] == results;
    }

    /**
      `generate`, as written: run the loop to the end and finalise one
      response from the decoding of the token of every yielded result, which
      decodes a trimmed stop token again. Every error comes back wrapped.
     */
    method Generate(request: ChatRequest, e: Engine, rs: seq<GenResponse>, cachedCount: nat)
      returns (r: Result<ChatCompletion, string>)
      modifies this
      ensures Prepare(request, e.encode, e.thinkingTag).None? ==> r == Err(GenerateFailure(TemplateConfigError))
      ensures Prepare(request, e.encode, e.thinkingTag).Some? ==>
        var s := Run(rs, e, request.stop != []);
        var p := Prepare(request, e.encode, e.thinkingTag).value;
        r == FinishBuffered(request, e, s.results, BufferedText(s.results, e.decode), LastFinish(s.results),
                            p.enableThinking, p.thinkingPrefix, cachedCount)
      ensures Prepare(request, e.encode, e.thinkingTag).None? ==>
        && enableThinking == old(enableThinking) && thinkingPrefix == old(thinkingPrefix)
        && promptCacheTokensCount == old(promptCacheTokensCount) && cacheExtensions == old(cacheExtensions)
      ensures Prepare(request, e.encode, e.thinkingTag).Some? ==>
        && enableThinking == Prepare(request, e.encode, e.thinkingTag).value.enableThinking
        && (enableThinking ==> thinkingPrefix == Prepare(request, e.encode, e.thinkingTag).value.thinkingPrefix)
        && promptCacheTokensCount == cachedCount
        && cacheExtensions == old(cacheExtensions) + [Run(rs, e, request.stop != []).tokens]
    {
      var streamed := StreamGenerate(request, e, rs, cachedCount);
      if streamed.Err? {
        return Err(GenerateFailure(streamed.error));
      }
      var results := streamed.value.0;
      var tokens, finishReason := CollectBuffered(results);
      var completion := "";
      if results != [] {
        completion := e.decode(tokens);
      }
      r := FinishBuffered(request, e, results, completion, finishReason, enableThinking, thinkingPrefix, promptCacheTokensCount);
    }

    /**
      `generate` as evidently intended: the same finalisation of the text of
      the tokens the loop kept, the ones the prompt cache is extended with.
     */
    method GenerateFixed(request: ChatRequest, e: Engine, rs: seq<GenResponse>, cachedCount: nat)
      returns (r: Result<ChatCompletion, string>)
      modifies this
      ensures Prepare(request, e.encode, e.thinkingTag).None? ==> r == Err(GenerateFailure(TemplateConfigError))
      ensures Prepare(request, e.encode, e.thinkingTag).Some? ==>
        var s := Run(rs, e, request.stop != []);
        var p := Prepare(request, e.encode, e.thinkingTag).value;
        r == FinishBuffered(request, e, s.results, if s.results == [] then "" else KeptText(rs, e, request.stop != []),
                            LastFinish(s.results), p.enableThinking, p.thinkingPrefix, cachedCount)
      ensures Prepare(request, e.encode, e.thinkingTag).None? ==>
        && enableThinking == old(enableThinking) && thinkingPrefix == old(thinkingPrefix)
        && promptCacheTokensCount == old(promptCacheTokensCount) && cacheExtensions == old(cacheExtensions)
      ensures Prepare(request, e.encode, e.thinkingTag).Some? ==>
        && enableThinking == Prepare(request, e.encode, e.thinkingTag).value.enableThinking
        && (enableThinking ==> thinkingPrefix == Prepare(request, e.encode, e.thinkingTag).value.thinkingPrefix)
        && promptCacheTokensCount == cachedCount
        && cacheExtensions == old(cacheExtensions) + [Run(rs, e, request.stop != []).tokens]
    {
      var streamed := StreamGenerate(request, e, rs, cachedCount);
      if streamed.Err? {
        return Err(GenerateFailure(streamed.error));
      }
      var (results, kept) := streamed.value;
      var _, finishReason := CollectBuffered(results);
      var completion := "";
      if results != [] {
        completion := e.decode(kept);
      }
      r := FinishBuffered(request, e, results, completion, finishReason, enableThinking, thinkingPrefix, promptCacheTokensCount);
    }

    /** The loop of `stream_generate`: a content chunk per result as it comes, and the text accumulated. */
    method ContentLoop(model: string, results: seq<GenerateResult>) returns (chunks: seq<Chunk>, full: string)
      ensures chunks == ContentChunks(model, results)
      ensures full == Concat(Texts(results))
    {
      full := "";
      chunks := [];
      for i := 0 to |results|
        invariant full == Concat(Texts(results[..i]))
        invariant chunks == ContentChunks(model, results[..i])
      {
        assert results[..i + 1] == results[..i] + [results[i]];
        TextsSnoc(results[..i], results[i]);
        full := full + results[i].text;
        chunks := chunks + [Chunk(model, ContentDelta(results[i].text), None, None)];
      }
      assert results[..|results|] == results;
    }

    /**
      `stream_generate`: a content chunk for each result as it comes, with the
      text accumulated, then the final chunk and the usage chunk. A template
      error ends the stream before any chunk.
     */
    method StreamChat(request: ChatRequest, e: Engine, rs: seq<GenResponse>, cachedCount: nat)
      returns (chunks: seq<Chunk>, failure: Option<string>)
      modifies this
      ensures Prepare(request, e.encode, e.thinkingTag).None? ==> chunks == [] && failure == Some(TemplateConfigError)
      ensures Prepare(request, e.encode, e.thinkingTag).Some? ==>
        var results := Run(rs, e, request.stop != []).results;
        (chunks, failure) == StreamChunks(request, e, results, Concat(Texts(results)),
                                          Prepare(request, e.encode, e.thinkingTag).value.enableThinking,
                                          Prepare(request, e.encode, e.thinkingTag).value.thinkingPrefix, cachedCount)
      ensures Prepare(request, e.encode, e.thinkingTag).None? ==>
        && enableThinking == old(enableThinking) && thinkingPrefix == old(thinkingPrefix)
        && promptCacheTokensCount == old(promptCacheTokensCount) && cacheExtensions == old(cacheExtensions)
      ensures Prepare(request, e.encode, e.thinkingTag).Some? ==>
        && enableThinking == Prepare(request, e.encode, e.thinkingTag).value.enableThinking
        && (enableThinking ==> thinkingPrefix == Prepare(request, e.encode, e.thinkingTag).value.thinkingPrefix)
        && promptCacheTokensCount == cachedCount
        && cacheExtensions == old(cacheExtensions) + [Run(rs, e, request.stop != []).tokens]
    {
      var streamed := StreamGenerate(request, e, rs, cachedCount);
      if streamed.Err? {
        return [], Some(streamed.error);
      }
      var results := streamed.value.0;
      var full;
      chunks, full := ContentLoop(request.model, results);
      var text := StreamedText(full, enableThinking, thinkingPrefix, e.reasoningDecode);
      chunks := chunks + [FinalChunk(request, e, text)];
      failure := None;
      if request.includeUsage {
        if results == [] {
          failure := Some(UnboundResultError);
        } else {
          chunks := chunks + [Chunk(request.model, EmptyDelta, None, Some(UsageOf(results[|results| - 1], promptCacheTokensCount)))];
        }
      }
    }
  }
}
