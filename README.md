# MLX Omni Server: a verified model of its request-handling core

MLX Omni Server is an OpenAI-compatible HTTP server. It answers chat
completions with MLX language models and transcriptions with whisper.cpp or
MLX Whisper. This project models in Dafny the logic the server wraps around
those engines, and proves properties of the model:

- **Chat generation** (`MlxParams`, `MlxModel`):
  - how a request's extra parameters are split into sampler, model, template
    and generate arguments, and how defaults are merged in;
  - whether the reasoning decoder expects an already-open thinking tag;
  - the token loop that trims stop words and yields text deltas;
  - the two ways a completion is finished: one buffered response, or a
    stream of chunks. Both include finish reasons, tool calls and token usage.
- **Tool-call parsers** (`MistralTools`, `HuggingFaceTools`, over
  `ToolCalls` and `Json`):
  - Mistral's `[TOOL_CALLS] [...]` format;
  - the Hugging Face `<tool_call>` format and the prefill it keeps between
    requests;
  - argument normalisation over JSON values (RFC 8259).
- **whisper.cpp handling** (`WhisperCpp`):
  - the command line;
  - choosing the output the process left behind;
  - the two transcript parsers;
  - SRT and WebVTT files (W3C WebVTT, section 4.1 "WebVTT file structure");
  - the response formats.
- **Speech service bookkeeping** (`WhisperModel`): the last-in-first-out
  worker pool of each whisper.cpp configuration, its bounded semaphore, and
  the lazily created MLX Whisper model.
- **Routes** (`Router`, `Models`, `ModelLoader`):
  - the single-entry model cache;
  - Server-Sent-Events framing (WHATWG HTML Living Standard, section 9.2
    "Server-sent events"), always ending with `[DONE]`;
  - model-id extraction from a path;
  - mapping errors to HTTP status codes;
  - the table of background downloads.

Everything external is a parameter:
- tokenizers, chat templates, the stop-word checker, the reasoning decoder and
  the non-strict tool parser;
- the generator's responses, and the prompt cache's count;
- `json.loads`/`json.dumps`, as a `Codec` with the properties RFC 8259 gives it;
- file and process results, and uuids.

Code that updates state in place is a class:
- the request context;
- the Hugging Face tokenizer's prefill;
- the speech service's pools;
- the model cache;
- the download table.

Each method is proved against a specification function, and the properties
are lemmas about those functions. Times are integer milliseconds.

## Model

| member | source | states |
|---|---|---|
| MlxParams.GroupOf | src/mlx_omni_server/chat/mlx/mlx_model.py:78-121 | a key is a sampler, model or template parameter exactly when it is in that list, checked in that order; every other key goes to the generate arguments |
| MlxParams.BucketHolds | src/mlx_omni_server/chat/mlx/mlx_model.py:113-121 | a key is in a group's dict exactly when it is an extra of that group, and it carries the extra's value (the last binding) |
| MlxParams.GetGenerationParams | src/mlx_omni_server/chat/mlx/mlx_model.py:73-128 | the loop fills the four dicts exactly as the split specification does |
| MlxParams.SplitIsPartition | src/mlx_omni_server/chat/mlx/mlx_model.py:113-128 | every extra lands in exactly one of the four dicts, with its value, and the dicts hold nothing else |
| MlxParams.DictOfHolds | src/mlx_omni_server/chat/mlx/mlx_model.py:193-195 | a decoded configuration object read as a dict holds exactly its keys, with the last binding of each |
| MlxParams.TemplateKwargs | src/mlx_omni_server/chat/mlx/mlx_model.py:193-195 | the template arguments are the template group merged with `chat_template_config`, whose keys win; a configuration that is not an object is the merge's error |
| MlxParams.TemperatureAndTopP | src/mlx_omni_server/chat/mlx/mlx_model.py:201-212 | temperature and top_p default to 1.0 when the request leaves them unset, and are the request's values otherwise |
| MlxParams.SamplerParamsOverride | src/mlx_omni_server/chat/mlx/mlx_model.py:201-212 | the defaults are min_p 0.0, min_tokens_to_keep 1 and top_k -1 besides temperature and top_p; an extra sampler parameter overrides the default of the same name, key by key |
| MlxParams.LogitsChoice | src/mlx_omni_server/chat/mlx/mlx_model.py:257-268 | a JSON schema wins over logprobs; logprobs use top_logprobs or 5; otherwise there are no processors |
| MlxParams.Prepare | src/mlx_omni_server/chat/mlx/mlx_model.py:169-277 | preparation fails exactly when the template merge does; the prompt encodes the template arguments; with thinking enabled the prefix flag holds iff the prompt ends with `<tag>`; a stop checker exists iff stop words are given; max_tokens defaults to 2048 |
| MlxParams.GenerateArgsOwnership | src/mlx_omni_server/chat/mlx/mlx_model.py:199-275 | the generate arguments keep every generate-group extra except sampler, prompt_cache and max_tokens, which always carry the model's values; an extra named logits_processors is kept unless a JSON schema or logprobs is given, in which case the model's processors replace it |
| MlxModel.DropLast | src/mlx_omni_server/chat/mlx/mlx_model.py:319-321 | `tokens[:-n]` keeps a prefix of length max(len - n, 0) |
| MlxModel.DoneStays | src/mlx_omni_server/chat/mlx/mlx_model.py:301-339 | once the loop has broken out, later responses change nothing |
| MlxModel.FinishReasonEndsLoop | src/mlx_omni_server/chat/mlx/mlx_model.py:301-302 | a response with a finish reason ends the loop, and its token is never appended |
| MlxModel.OnlyStopIsYielded | src/mlx_omni_server/chat/mlx/mlx_model.py:312-317 | every yielded finish reason is None or "stop", and without stop words always None |
| MlxModel.EmptyTextOnlyOnTrim | src/mlx_omni_server/chat/mlx/mlx_model.py:318-339 | an empty text is yielded only by a trim: it is the last result, says "stop", and the loop has ended |
| MlxModel.DeltasReassemble | src/mlx_omni_server/chat/mlx/mlx_model.py:324-336 | with a tokenizer whose text only grows and no stop words, the yielded deltas add up to the decoded kept tokens, which is also the last text |
| MlxModel.LastFinishIsStop | src/mlx_omni_server/chat/mlx/mlx_model.py:359-370 | with only None or "stop" yielded, the buffered finish reason is "stop" |
| MlxModel.BufferedTextKeepsStopWord | src/mlx_omni_server/chat/mlx/mlx_model.py:319-364 | as written, a trimmed stop token reappears in the buffered completion ("xx") while the kept tokens and the stream say "x" |
| MlxModel.DecodePrefix | src/mlx_omni_server/chat/mlx/mlx_model.py:319-324 | with a tokenizer whose text only grows, the text of a prefix of the tokens is a prefix of their text, so a trim never adds text |
| MlxModel.StepAgrees | src/mlx_omni_server/chat/mlx/mlx_model.py:304-338 | one loop step keeps the last text equal to the decoded kept tokens and the streamed text starting with it, equal while the loop runs and after a trim of at most one token |
| MlxModel.StreamAgreesAlways | src/mlx_omni_server/chat/mlx/mlx_model.py:292-339 | that agreement holds after any sequence of responses, with or without stop words |
| MlxModel.KeptTextIsStreamedText | src/mlx_omni_server/chat/mlx/mlx_model.py:324-346 | the kept tokens (those the prompt cache is extended with) decode to a prefix of the streamed text, and to exactly the streamed text when no stop word is trimmed by more than one token |
| MlxModel.StreamSendsEarlierStopTokens | src/mlx_omni_server/chat/mlx/mlx_model.py:318-336 | with the two-token stop word 8 9, tokens 1 8 9 stream "xx" while the kept text is "x": the stream already sent the stop word's first token |
| MlxModel.UsageOf | src/mlx_omni_server/chat/mlx/mlx_model.py:394-429 | prompt tokens include the cached ones; total = prompt + generation + cached; cached-token details present iff cached > 0 |
| MlxModel.FinishBuffered | src/mlx_omni_server/chat/mlx/mlx_model.py:372-433 | no result is the "No tokens generated" error; with tools the parser's message (its error wrapped), otherwise a plain message; finish reason "tool_calls" iff the message has tool calls, otherwise the loop's reason; usage of the last result |
| MlxModel.Indexed | src/mlx_omni_server/chat/mlx/mlx_model.py:489-498 | the streamed tool calls are numbered 0..n-1 in parse order |
| MlxModel.FinalChunk | src/mlx_omni_server/chat/mlx/mlx_model.py:471-502 | the final chunk says "tool_calls" with the indexed calls iff tools are offered and the parser finds calls; otherwise an empty delta with "stop", parser errors included |
| MlxModel.ContentChunks | src/mlx_omni_server/chat/mlx/mlx_model.py:453-469 | one chunk per result, carrying its text and no finish reason |
| MlxModel.StreamShape | src/mlx_omni_server/chat/mlx/mlx_model.py:446-556 | content chunks in order, then exactly one final chunk with "stop" or "tool_calls", then the usage chunk only when asked for; asking for usage with nothing generated fails |
| MlxModel.ToolCallsAgree | src/mlx_omni_server/chat/mlx/mlx_model.py:385-414 | with thinking off, on the same text both paths report "tool_calls" together, with the same calls in the same order, and "stop" otherwise |
| MlxModel.ThinkingPathsFeedParser | src/mlx_omni_server/chat/mlx/mlx_model.py:377-482 | with thinking on, `generate` hands on the reasoning result's content (None or empty included) while `stream_generate` keeps the whole text unless that content is non-empty; they agree otherwise |
| MlxModel.RequestContext.constructor | src/mlx_omni_server/chat/mlx/mlx_model.py:36-41 | a new context has no cached tokens |
| MlxModel.RequestContext.PrepareGeneration | src/mlx_omni_server/chat/mlx/mlx_model.py:169-277 | the arguments are those of `Prepare`; the decoder's thinking flag, and its prefix flag when thinking is on, are set from them; a failed merge changes nothing |
| MlxModel.Turn | src/mlx_omni_server/chat/mlx/mlx_model.py:304-338 | one pass of the loop body for a response without a finish reason is exactly one `Step` of the loop specification, and reports whether it trimmed |
| MlxModel.RunLoop | src/mlx_omni_server/chat/mlx/mlx_model.py:292-339 | the loop, which leaves at the first finish reason or the first trim, yields the results of the loop specification and keeps its tokens |
| MlxModel.RequestContext.TokenLoop | src/mlx_omni_server/chat/mlx/mlx_model.py:292-346 | after the loop the context takes the cache's count and the cache is extended with the kept tokens, which are returned with the loop's results |
| MlxModel.RequestContext.StreamGenerate | src/mlx_omni_server/chat/mlx/mlx_model.py:279-349 | a template error ends it before the loop and changes nothing; otherwise the loop's results, with the thinking flag and, when thinking is on, the thinking-prefix flag from preparation |
| MlxModel.RequestContext.CollectBuffered | src/mlx_omni_server/chat/mlx/mlx_model.py:356-370 | the loop collects the token of every result and the last truthy finish reason, "stop" by default |
| MlxModel.RequestContext.Generate | src/mlx_omni_server/chat/mlx/mlx_model.py:351-433 | as written: the buffered response is `FinishBuffered` of the loop's results over the decoding of every yielded result's token, with the reasoning decoder told the thinking-prefix flag; every error comes back as "Failed to generate completion: ..."; the context keeps the thinking flags, cache count and cache extension that `_stream_generate` leaves, and a template error changes nothing |
| MlxModel.RequestContext.GenerateFixed | src/mlx_omni_server/chat/mlx/mlx_model.py:351-433 | corrected: the same response over the text of the kept tokens, the ones the prompt cache is extended with; the context ends as after `_stream_generate` |
| MlxModel.RequestContext.ContentLoop | src/mlx_omni_server/chat/mlx/mlx_model.py:442-469 | the loop emits one content chunk per result and accumulates their texts |
| MlxModel.RequestContext.StreamChat | src/mlx_omni_server/chat/mlx/mlx_model.py:435-560 | the chunks and final error are `StreamChunks` of the loop's results and their concatenated text; a template error gives no chunk and changes nothing; otherwise the context ends with the thinking flags, cache count and cache extension of `_stream_generate` |
| ToolCalls.ArgumentsRoundTrip | src/mlx_omni_server/chat/mlx/tools/mistral.py:64-78 | the arguments string always parses: None and "null" give {}, a valid JSON string is kept, an invalid one gives {}, any other value is serialised |
| ToolCalls.DecodedCallArguments | src/mlx_omni_server/chat/mlx/tools/mistral.py:64-78 | a call read from decoded JSON has arguments that parse again: an object as the same object, a string as some value, absent arguments as {} |
| ToolCalls.ToFunctionCall | src/mlx_omni_server/chat/mlx/tools/mistral.py:59-88 | only an object with "name" becomes a call, named by its literal name and carrying the normalised arguments |
| ToolCalls.WithIds | src/mlx_omni_server/chat/mlx/tools/mistral.py:80-88 | the k-th call gets the k-th generated id, in order |
| MistralTools.DecodeSpec | src/mlx_omni_server/chat/mlx/tools/mistral.py:22-108 | content is None exactly when tool calls were found; without calls the message is the text unchanged |
| MistralTools.CollectCalls | src/mlx_omni_server/chat/mlx/tools/mistral.py:59-88 | the loop builds the calls of the named elements in order, or aborts |
| MistralTools.Decode | src/mlx_omni_server/chat/mlx/tools/mistral.py:22-108 | `decode` returns `DecodeSpec`: every error falls back to the text as content and no exception escapes |
| MistralTools.ParseCallsErrPropagates | src/mlx_omni_server/chat/mlx/tools/mistral.py:96-102 | an error in any element aborts the whole parse |
| MistralTools.Named | src/mlx_omni_server/chat/mlx/tools/mistral.py:59-61 | only objects with "name" are kept |
| MistralTools.ParseCallsFollowNamed | src/mlx_omni_server/chat/mlx/tools/mistral.py:59-88 | the calls are the named elements, in array order, with their literal names |
| MistralTools.ParsedArgumentsDecode | src/mlx_omni_server/chat/mlx/tools/mistral.py:64-78 | every call's arguments string decodes to the value the model meant |
| MistralTools.UnmarkedTextIsContent | src/mlx_omni_server/chat/mlx/tools/mistral.py:104-108 | text without the `[TOOL_CALLS]` marker is returned untouched as content |
| MistralTools.PayloadOfBracketedList | src/mlx_omni_server/chat/mlx/tools/mistral.py:41-49 | a marked, bracketed list is parsed as the list of its inner text |
| HuggingFaceTools.ParseStrictTools | src/mlx_omni_server/chat/mlx/tools/hugging_face.py:56-102 | None unless the stripped text starts with the start tag and the end tag occurs; at most one call, from an object with "name"; a JSON error gives None |
| HuggingFaceTools.HuggingFaceChatTokenizer.constructor | src/mlx_omni_server/chat/mlx/tools/hugging_face.py:26-31 | the prefill starts empty and strict mode off |
| HuggingFaceTools.HuggingFaceChatTokenizer.Encode | src/mlx_omni_server/chat/mlx/tools/hugging_face.py:33-51 | as written: the prefill grows by the start tag and the forced call's head only for tools with a specific choice, is never reset, and the prompt ends with it |
| HuggingFaceTools.HuggingFaceChatTokenizer.EncodeFixed | src/mlx_omni_server/chat/mlx/tools/hugging_face.py:33-51 | corrected: the prefill is this request's only |
| HuggingFaceTools.HuggingFaceChatTokenizer.Decode | src/mlx_omni_server/chat/mlx/tools/hugging_face.py:104-117 | the prefill plus the text is parsed, content is the text alone and None exactly when there are tool calls |
| HuggingFaceTools.StalePreFill | src/mlx_omni_server/chat/mlx/tools/hugging_face.py:42-51 | as written, a second forced-call request's prompt ends with both prefills |
| HuggingFaceTools.FreshPreFill | src/mlx_omni_server/chat/mlx/tools/hugging_face.py:42-51 | corrected, the second prompt carries only its own prefill |
| HuggingFaceTools.StrictPayloadOfIndented | src/mlx_omni_server/chat/mlx/tools/hugging_face.py:66-68 | for indented text the slice starts inside the tag, at ">\n" |
| HuggingFaceTools.IndentedCallIsLost | src/mlx_omni_server/chat/mlx/tools/hugging_face.py:60-69 | as written, a call found without indentation is lost when preceded by two spaces |
| HuggingFaceTools.TaggedCallParses | src/mlx_omni_server/chat/mlx/tools/hugging_face.py:60-97 | a tagged named object parses to a call |
| HuggingFaceTools.ParseStrictToolsFixedIgnoresIndent | src/mlx_omni_server/chat/mlx/tools/hugging_face.py:60-68 | the corrected parse ignores leading whitespace and agrees with the code on unindented text |
| HuggingFaceTools.IndentedCallIsFound | src/mlx_omni_server/chat/mlx/tools/hugging_face.py:60-69 | the corrected parse finds the indented call |
| WhisperCpp.VttTimeRoundTrip | src/mlx_omni_server/stt/whisper_cpp.py:182-188 | a printed time is a well-formed `HH:MM:SS.mmm` that reads back as the same milliseconds |
| WhisperCpp.SrtTimeIsVttTime | src/mlx_omni_server/stt/whisper_cpp.py:291-303 | SRT and WebVTT times differ only in the comma before the milliseconds |
| WhisperCpp.SegmentLineRoundTrip | src/mlx_omni_server/stt/whisper_cpp.py:157-166 | every printed segment line is recognised with its times and stripped text |
| WhisperCpp.StdoutSegmentsComplete | src/mlx_omni_server/stt/whisper_cpp.py:161-177 | every matching line becomes a segment whose id is its line index |
| WhisperCpp.ParseStdoutOutput | src/mlx_omni_server/stt/whisper_cpp.py:149-180 | the loop produces the segments of the matching lines, the texts joined by spaces, and language "ru" |
| WhisperCpp.FullTextPartsSelect | src/mlx_omni_server/stt/whisper_cpp.py:198 | the parts are, in order, exactly the stripped texts of the segments whose text is present and non-empty |
| WhisperCpp.ParseWhisperOutput | src/mlx_omni_server/stt/whisper_cpp.py:195-221 | segments get ids 0..n-1 and offsets (0 when missing); the text joins the non-empty stripped texts; language from result.language or "" |
| WhisperCpp.SrtLinesShape | src/mlx_omni_server/stt/whisper_cpp.py:270-277 | segment k is lines 4k..4k+3: its number k+1, its times, its stripped text, a blank line |
| WhisperCpp.VttCuesShape | src/mlx_omni_server/stt/whisper_cpp.py:282-287 | segment k is cue lines 3k..3k+2 |
| WhisperCpp.SrtContent | src/mlx_omni_server/stt/whisper_cpp.py:270-277 | the SRT loop writes exactly the SRT lines |
| WhisperCpp.VttContent | src/mlx_omni_server/stt/whisper_cpp.py:279-287 | the WebVTT loop writes the header then the cues |
| WhisperCpp.GenerateSubtitleFile | src/mlx_omni_server/stt/whisper_cpp.py:266-289 | the file is the chosen format's lines joined with newlines |
| WhisperCpp.VttHeader | src/mlx_omni_server/stt/whisper_cpp.py:280-281 | a WebVTT file starts with "WEBVTT" and a blank line |
| WhisperCpp.OtherFormatIsEmpty | src/mlx_omni_server/stt/whisper_cpp.py:270-289 | any format but "srt" and "vtt" gives the empty file |
| WhisperCpp.BuildWhisperCommand | src/mlx_omni_server/stt/whisper_cpp.py:68-147 | the command is the executable followed by the rendering of the option groups in the source's order |
| WhisperCpp.BaseCommand | src/mlx_omni_server/stt/whisper_cpp.py:84-104 | the list starts with the executable and the fixed options |
| WhisperCpp.CommandNames | src/mlx_omni_server/stt/whisper_cpp.py:84-145 | the command's option names are its groups' names, in order |
| WhisperCpp.SearchWidthFollowsDuration | src/mlx_omni_server/stt/whisper_cpp.py:126-137 | best-of and beam size are 5 below five minutes and 3 from five minutes on |
| WhisperCpp.LongAudioOptions | src/mlx_omni_server/stt/whisper_cpp.py:131-137 | `--max-context 0` and `--entropy-thold 2.5` appear exactly for audio of five minutes or more |
| WhisperCpp.VadFollowsModelFile | src/mlx_omni_server/stt/whisper_cpp.py:106-115 | the VAD options, with the configured model, appear exactly when that model file exists |
| WhisperCpp.LanguageAndPromptWhenSet | src/mlx_omni_server/stt/whisper_cpp.py:117-123 | `--language` and `--prompt` appear exactly when the request sets them |
| WhisperCpp.WordTimestampsWhenAsked | src/mlx_omni_server/stt/whisper_cpp.py:139-145 | word timestamps and full JSON are asked for exactly with "word" granularity |
| WhisperCpp.ModelChoice | src/mlx_omni_server/stt/whisper_cpp.py:75-88 | the model passed is the request's `.bin` file, otherwise the configured one |
| WhisperCpp.TemperatureChoice | src/mlx_omni_server/stt/whisper_cpp.py:82-91 | temperature is the request's when set and non-zero, else "0.2"; output goes to `<temp>/output` |
| WhisperCpp.JsonFilesSelect | src/mlx_omni_server/stt/whisper_cpp.py:248 | the list holds, in listing order, exactly the files whose name ends in ".json" |
| WhisperCpp.PickOutputOrder | src/mlx_omni_server/stt/whisper_cpp.py:240-257 | output.json first; otherwise, only on exit code 0, the first file of the listing whose name ends in ".json", then stdout; otherwise an error with the code and stderr |
| WhisperCpp.Generate | src/mlx_omni_server/stt/whisper_cpp.py:224-264 | the transcript comes from the picked output, and a load error or the failure message is returned as the error |
| WhisperCpp.MaxEndIsMaximum | src/mlx_omni_server/stt/whisper_cpp.py:328-332 | the duration bounds every segment end and equals one of them, or is 0 |
| WhisperCpp.FormatResponse | src/mlx_omni_server/stt/whisper_cpp.py:305-352 | text, srt, vtt, verbose_json and json give their forms; any other gives the transcription with the maximum end and the words when asked for |
| WhisperCpp.LongestEnd | src/mlx_omni_server/stt/whisper_cpp.py:328-332 | the loop computes the maximum segment end, starting from 0 |
| WhisperCpp.CollectWords | src/mlx_omni_server/stt/whisper_cpp.py:338-345 | the nested loop collects every word of every segment in order |
| WhisperModel.NewWorkers | src/mlx_omni_server/stt/whisper_model.py:25-33 | a set-up creates exactly `max_workers` workers for the configuration |
| WhisperModel.UpdateMatches | src/mlx_omni_server/stt/whisper_model.py:65-71 | replacing one configuration's entries by matching ones keeps the pool invariant |
| WhisperModel.SttService.constructor | src/mlx_omni_server/stt/whisper_model.py:12-16 | the class starts without pools, semaphores or model |
| WhisperModel.SttService.EnsurePool | src/mlx_omni_server/stt/whisper_model.py:50-63 | a configuration without a semaphore gets `max_workers` permits and workers; one that has it is left alone; permits equal idle workers |
| WhisperModel.SttService.TakeWorker | src/mlx_omni_server/stt/whisper_model.py:65-66 | a worker is returned iff the pool is non-empty: the last one, with one permit fewer and one more checked out |
| WhisperModel.SttService.Acquire | src/mlx_omni_server/stt/whisper_model.py:48-66 | set up if needed, then take a permit and pop the last worker (LIFO) |
| WhisperModel.SttService.Release | src/mlx_omni_server/stt/whisper_model.py:68-71 | the worker is appended, then a permit returned; errors for a missing semaphore or one at its bound; a checked-out worker's release restores the invariant |
| WhisperModel.SttService.GetWhisperModel | src/mlx_omni_server/stt/whisper_model.py:35-38 | the MLX model is created once, on first use |
| WhisperModel.SttService.RunWorker | src/mlx_omni_server/stt/whisper_model.py:80-88 | the upload is deleted and the worker given back on every path, error or not |
| WhisperModel.SttService.TranscribeCpp | src/mlx_omni_server/stt/whisper_model.py:78-96 | corrected: with the worker's `generate` result (`WhisperCpp.Generate`), pools and permits end as the set-up left them; the upload error, generation error or formatted response is returned |
| WhisperModel.SttService.TranscribeCppAsWritten | src/mlx_omni_server/stt/whisper_model.py:78-88 | as written: the call to the undefined `generate_async` always raises, so the branch ends in an error; the upload is still deleted and the worker given back |
| WhisperModel.SttService.TranscribeMlx | src/mlx_omni_server/stt/whisper_model.py:89-96 | the MLX path creates its model at most once and deletes the upload |
| WhisperModel.SttService.Transcribe | src/mlx_omni_server/stt/whisper_model.py:73-101 | corrected: whisper.cpp models use a pooled worker, others the MLX model; a response means the upload and generation succeeded |
| WhisperModel.SttService.TranscribeAsWritten | src/mlx_omni_server/stt/whisper_model.py:73-101 | as written: a whisper.cpp model never yields a response, and the pools end as the set-up left them; the MLX path is unchanged |
| Router.CacheHit | src/mlx_omni_server/chat/router.py:82-83 | the same id returns the cached model without loading |
| Router.CacheMiss | src/mlx_omni_server/chat/router.py:85-88 | a new id is loaded with its adapter and becomes the single cached entry |
| Router.SecondCallReuses | src/mlx_omni_server/chat/router.py:80-88 | the adapter path is not part of the key: a second call with another adapter gets the first model |
| Router.ModelCache.constructor | src/mlx_omni_server/chat/router.py:76-77 | both globals start as None |
| Router.ModelCache.CreateTextModel | src/mlx_omni_server/chat/router.py:80-88 | the cache and result follow `CreateSpec`; a load is recorded only on a miss |
| Router.EventPayload | src/mlx_omni_server/chat/router.py:44 | a recognised frame is exactly one event around its payload |
| Router.EventRoundTrip | src/mlx_omni_server/chat/router.py:44 | the payload read back from an event is the one put in |
| Router.EventFrames | src/mlx_omni_server/chat/router.py:41-58 | there are more frames than chunks, and `[DONE]` is last |
| Router.EventFramesShape | src/mlx_omni_server/chat/router.py:41-58 | one event per chunk in order, exactly one error event (server_error, 500, the message) iff the generator raised, `[DONE]` last |
| Router.FramesAreEvents | src/mlx_omni_server/chat/router.py:44-58 | every frame is a well-formed `data:` event |
| Router.ClientRecoversChunks | src/mlx_omni_server/chat/router.py:43-45 | decoding the i-th event's payload gives back the i-th chunk |
| Router.ChatCompletion | src/mlx_omni_server/chat/router.py:37-73 | a non-streaming request gets the one completion; a streaming one an event stream ending with `[DONE]` |
| Models.ExtractModelId | src/mlx_omni_server/chat/models/models.py:19-23 | the prefix is "/v1/models/" when it occurs anywhere, else "/models/"; the id is what follows the prefix's length |
| Models.V1RouteRoundTrip | src/mlx_omni_server/chat/models/models.py:21-23 | "/v1/models/" + id gives id back |
| Models.BareRouteRoundTrip | src/mlx_omni_server/chat/models/models.py:21-23 | "/models/" + id gives id back when the path lacks "/v1/models/" |
| Models.BareRouteWithV1Segment | src/mlx_omni_server/chat/models/models.py:21-23 | because the test is for "/v1/models/" anywhere in the path, a "/models/" route whose id holds it loses the id's first three characters |
| Models.BareRouteWithV1SegmentExample | src/mlx_omni_server/chat/models/models.py:21-23 | "/models/org/v1/models/x" gives the id "/v1/models/x" |
| Models.HandleModelError | src/mlx_omni_server/chat/models/models.py:26-31 | a ValueError is a 404, anything else a 500, the detail is the message |
| Models.GetModel | src/mlx_omni_server/chat/models/models.py:60-72 | a missing model is a 404 "Model '<id>' not found"; a found model is returned; service errors are mapped |
| Models.ServiceCall | src/mlx_omni_server/chat/models/models.py:36-56 | the service's answer, or its error mapped to 404 or 500 |
| ModelLoader.Lookup | src/mlx_omni_server/chat/models/model_loader.py:30-31 | an unknown id reports "not_found"; a known one its record |
| ModelLoader.StartThenLookup | src/mlx_omni_server/chat/models/model_loader.py:23-28 | a started task reports "in_progress" with its model; other tasks are unchanged |
| ModelLoader.FinishTouchesOnlyItsTask | src/mlx_omni_server/chat/models/model_loader.py:15-21 | a finished download reports "completed", or "failed" with the error, keeps its model and touches no other task |
| ModelLoader.DownloadLifecycle | src/mlx_omni_server/chat/models/model_loader.py:15-28 | start then finish reports the outcome with the model |
| ModelLoader.Loader.constructor | src/mlx_omni_server/chat/models/model_loader.py:11-13 | empty status and task tables |
| ModelLoader.Loader.StartDownload | src/mlx_omni_server/chat/models/model_loader.py:23-28 | records the download as in progress and returns its id |
| ModelLoader.Loader.GetStatus | src/mlx_omni_server/chat/models/model_loader.py:30-31 | reports `Lookup` of the table, "not_found" iff the id is unknown, changing nothing |
| ModelLoader.Loader.FinishDownload | src/mlx_omni_server/chat/models/model_loader.py:15-21 | the table after the download's outcome, as `Finish` gives it |

## Left out

- Log probabilities (`_process_logprobs` and the `logprobs` of results and chunks) are left out: they are float arrays over the model's vocabulary.
- The generator, sampler, logits processors, tokenizers, chat templates, stop-word checker, prompt cache and reasoning decoder are parameters. Their internals are not modelled.
- These external calls are assumed not to raise: mlx_lm's `stream_generate`, the tokenizer's `decode`, the stop-word checker and the reasoning decoder's `decode`. An exception in the middle of the token loop is therefore not modelled. The source re-raises it from `_stream_generate`, wraps it as "Failed to generate completion: ..." in `generate`, and re-raises it from `stream_generate` after the chunks already yielded, which the router then frames as an error event. `MlxModel.StreamShape`'s single final chunk holds only under this assumption.
- `WhisperCpp.IsTimestamp` accepts only ASCII digits. Python's `\d` and `int()` also accept other Unicode decimal digits, so a whisper.cpp line or time written with them is not recognised by the model.
- The per-task context variable that holds the request context is not modelled. The context is passed explicitly.
- Floating point is not modelled: times are integer milliseconds, and sampler values are `real`. Python's `str` of a float is a parameter.
- Identifiers from `uuid4` and timestamps from `time.time()` are parameters or left out.
- Subprocess runs, `ffprobe`, file reads and writes, temporary directories and upload saving are inputs. Their outcomes are parameters. The outcome of a whisper.cpp worker's `generate` is `WhisperCpp.Generate`'s result on the run's outcome.
- The asyncio semaphore's waiting is not modelled. A sequential acquire that finds no permit reports `NoWorkerFree` instead.
- Background download tasks and `snapshot_download` are not modelled. A download's outcome is a parameter.
- FastAPI routing, the OPTIONS/CORS response headers and the pydantic schema classes are left out.
- Python's exception texts are not modelled exactly. `TemplateConfigError` and `UnboundResultError` stand for the `TypeError` and the `UnboundLocalError` that the source raises.
- `HuggingFaceTools.HuggingFaceChatTokenizer.Decode`: uses the corrected strict parse (see Findings).
- `WhisperModel.SttService.Transcribe`: runs the worker's `generate`, as the corrected whisper.cpp branch does (see Findings). `WhisperModel.SttService.TranscribeAsWritten` is the branch as written, which always fails.
- Request dicts are modelled as sequences of pairs where the last binding wins, as `json.loads` builds them.
- The non-strict Hugging Face tool parser (`parse_tool_calls`) is a parameter. Its source is not part of this model.
- The MLX Whisper model's own transcription is a parameter.

## Findings

| source | as written | input that shows it | evidently intended | confidence | as-written member | corrected member |
|---|---|---|---|---|---|---|
| src/mlx_omni_server/chat/mlx/mlx_model.py:328-330, 362-364 | `generate` decodes the token of every yielded result. The result that reports a trimmed stop word carries the stop token, so the dropped token comes back. | The tokenizer prints "x" per token and the stop word is token 9. Responses are tokens 1 then 9. The stream yields "x" and the cache keeps [1], but `generate` returns "xx". | The buffered completion is the text of the kept tokens (`MlxModel.RequestContext.GenerateFixed`). That text is a prefix of the streamed text, and equal to it unless a stop word of several tokens is trimmed: the stream has already sent that word's earlier tokens (`MlxModel.StreamSendsEarlierStopTokens`). | not executed | MlxModel.BufferedTextKeepsStopWord | MlxModel.KeptTextIsStreamedText |
| src/mlx_omni_server/chat/mlx/tools/hugging_face.py:42-51 | `encode` appends each forced call's prefill to `pre_fill_tools_prompt`, which only `__init__` resets. The tokenizer lives as long as the cached model. The defect is latent: it needs a caller that passes a specific `tool_choice`, and the only call to `encode` in this core (mlx_model.py:220-224) passes none. | Two requests force calls of "a" then "b". The second prompt ends with both prefills. | Each prompt carries only its own request's prefill. | not executed | HuggingFaceTools.StalePreFill | HuggingFaceTools.FreshPreFill |
| src/mlx_omni_server/chat/mlx/tools/hugging_face.py:60-68 | The guard strips the text before testing the start tag, but the slice counts from the unstripped start. The defect is latent: the strict parse runs only in strict mode, and `strict_mode` is only ever set to False (hugging_face.py:30). | `"  <tool_call>\n{...}</tool_call>"`: the guard passes, the slice begins with ">\n", JSON parsing fails, and the call is lost. | Leading whitespace is removed before the tags are located. | not executed | HuggingFaceTools.IndentedCallIsLost | HuggingFaceTools.IndentedCallIsFound |
| src/mlx_omni_server/stt/whisper_model.py:82 | The whisper.cpp branch awaits `model.generate_async(...)`, but `WhisperCppModel` (whisper_cpp.py:18-353) defines only the synchronous `generate` (whisper_cpp.py:224), so the lookup raises `AttributeError`. The `finally` block deletes the upload and releases the worker, and the error is re-raised. | Any request whose model name contains "whisper.cpp" and whose upload is saved. | The worker runs its `generate` on the saved upload and the result is formatted. | not executed | WhisperModel.SttService.TranscribeCppAsWritten | WhisperModel.SttService.TranscribeCpp |
