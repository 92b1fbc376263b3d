/**
  The chat-completions route: a cache holding the one text model used last,
  and the Server-Sent-Events stream a streaming request is answered with
  (WHATWG HTML Living Standard, section 9.2 "Server-sent events": every event
  is a `data:` field line followed by a blank line). Loading a model,
  generating and serialising a response are external; they are parameters.
 */
module Router {
  import opened Wrappers
  import opened Text
  import opened Json

  /** The two module globals `_last_model_id` and `_last_text_model`, as one value. */
  datatype CacheState<M> = CacheState(lastModelId: Option<string>, lastModel: Option<M>)

  /** What `_create_text_model` does to the cache, and the model it returns. */
  function CreateSpec<M>(s: CacheState<M>, modelId: string, adapterPath: Option<string>,
                         load: (string, Option<string>) -> M): (CacheState<M>, M)
    requires s.lastModelId.Some? ==> s.lastModel.Some?
  {
    if s.lastModelId == Some(modelId) then (s, s.lastModel.value)
    else
      var model := load(modelId, adapterPath);
      (CacheState(Some(modelId), Some(model)), model)
  }

  /** A repeated id is served from the cache: the result is the cached model, whatever the adapter. */
  lemma CacheHit<M>(s: CacheState<M>, modelId: string, adapterPath: Option<string>, load: (string, Option<string>) -> M)
    requires s.lastModelId == Some(modelId) && s.lastModel.Some?
    ensures CreateSpec(s, modelId, adapterPath, load) == (s, s.lastModel.value)
  {
  }

  /** A new id loads the model with the adapter given and makes it the only cached entry. */
  lemma CacheMiss<M>(s: CacheState<M>, modelId: string, adapterPath: Option<string>, load: (string, Option<string>) -> M)
    requires s.lastModelId != Some(modelId) && (s.lastModelId.Some? ==> s.lastModel.Some?)
    ensures var (s', m) := CreateSpec(s, modelId, adapterPath, load);
      && m == load(modelId, adapterPath)
      && s' == CacheState(Some(modelId), Some(m))
  {
  }

  /**
    Two requests in a row for the same id give the same model, loaded once
    with the first request's adapter: the adapter path is not part of the key.
   */
  lemma SecondCallReuses<M>(s: CacheState<M>, modelId: string, a1: Option<string>, a2: Option<string>,
                            load: (string, Option<string>) -> M)
    requires s.lastModelId.Some? ==> s.lastModel.Some?
    ensures var (s1, m1) := CreateSpec(s, modelId, a1, load);
      && s1.lastModelId == Some(modelId) && s1.lastModel == Some(m1)
      && CreateSpec(s1, modelId, a2, load) == (s1, m1)
  {
  }

  /** The globals `_last_model_id` and `_last_text_model`. */
  class ModelCache<M> {
    var lastModelId: Option<string>
    var lastModel: Option<M>

    /** The ids passed to `load_model`, in order. */
    ghost var loads: seq<string>

    ghost predicate Valid()
      reads this
    {
      lastModelId.Some? <==> lastModel.Some?
    }

    function State(): CacheState<M>
      reads this
    {
      CacheState(lastModelId, lastModel)
    }

    /** Both globals start as `None`. */
    constructor()
      ensures Valid() && lastModelId == None && lastModel == None && loads == []
    {
      lastModelId := None;
      lastModel := None;
      loads := [];
    }

    /**
      `_create_text_model`: the model of the last id is returned as is;
      any other id is loaded with `load_model(model_id, adapter_path)` and
      replaces the cached pair.
     */
    method CreateTextModel(modelId: string, adapterPath: Option<string>, load: (string, Option<string>) -> M)
      returns (model: M)
      requires Valid()
      modifies this
      ensures Valid()
      ensures (State(), model) == CreateSpec(old(State()), modelId, adapterPath, load)
      ensures loads == old(loads) + (if old(lastModelId) == Some(modelId) then [] else [modelId])
    {
      if lastModelId == Some(modelId) {
        return lastModel.value;
      }
      model := load(modelId, adapterPath);
      lastModel := Some(model);
      lastModelId := Some(modelId);
      loads := loads + [modelId];
    }
  }

  /** The field name that starts every event the route sends. */
  const DataField := "data: "

  /** The blank line that ends an event. */
  const EventEnd := "\n\n"

  /** One event carrying `payload`. */
  function Event(payload: string): string {
    DataField + payload + EventEnd
  }

  /** The payload of an event, or None for text that is not one event. */
  function EventPayload(frame: string): (r: Option<string>)
    ensures r.Some? ==> frame == Event(r.value)
  {
    if |frame| >= |DataField| + |EventEnd| && StartsWith(frame, DataField) && EndsWith(frame, EventEnd)
    then
      assert frame == frame[..|DataField|] + frame[|DataField|..|frame| - |EventEnd|] + frame[|frame| - |EventEnd|..];
      Some(frame[|DataField|..|frame| - |EventEnd|])
    else None
  }

  /** Reading the payload back out of an event gives the payload put in. */
  lemma EventRoundTrip(payload: string)
    ensures EventPayload(Event(payload)) == Some(payload)
  {
    var f := Event(payload);
    assert f[..|DataField|] == DataField;
    assert f[|f| - |EventEnd|..] == EventEnd;
    assert f[|DataField|..|f| - |EventEnd|] == payload;
  }

  /** The body of the error event: `{"error": {"message": str(e), "type": "server_error", "code": 500}}`. */
  function ErrorBody(message: string): Json {
    JObject([("error", JObject([("message", JString(message)), ("type", JString("server_error")), ("code", JInt(500))]))])
  }

  /** The event that closes every stream. */
  const DoneEvent := Event("[DONE]")

  /**
    `event_generator`: the chunks `stream_generate` produced before it
    stopped, each serialised into an event in order; if it stopped by raising
    (`failure` holds `str(e)`), one error event; and always the `[DONE]` event.
   */
  function EventFrames(chunks: seq<Json>, failure: Option<string>, c: Codec): (frames: seq<string>)
    ensures |frames| > |chunks| && frames[|frames| - 1] == DoneEvent
  {
    seq(|chunks|, i requires 0 <= i < |chunks| => Event(c.dumps(chunks[i])))
    + (if failure.Some? then [Event(c.dumps(ErrorBody(failure.value)))] else [])
    + [DoneEvent]
  }

  /**
    The shape of the stream: one event per chunk in order, then exactly one
    error event if and only if the generator raised, and `[DONE]` last on
    both paths.
   */
  lemma EventFramesShape(chunks: seq<Json>, failure: Option<string>, c: Codec)
    ensures var frames := EventFrames(chunks, failure, c);
      && |frames| == |chunks| + (if failure.Some? then 1 else 0) + 1
      && (forall i :: 0 <= i < |chunks| ==> frames[i] == Event(c.dumps(chunks[i])))
      && (failure.Some? ==> frames[|chunks|] == Event(c.dumps(ErrorBody(failure.value))))
      && frames[|frames| - 1] == DoneEvent
  {
  }

  /** Every frame is a well-formed event: it starts with `data: ` and ends with a blank line. */
  lemma FramesAreEvents(chunks: seq<Json>, failure: Option<string>, c: Codec)
    ensures var frames := EventFrames(chunks, failure, c);
      forall i :: 0 <= i < |frames| ==> EventPayload(frames[i]).Some?
  {
    var frames := EventFrames(chunks, failure, c);
    forall i | 0 <= i < |frames|
      ensures EventPayload(frames[i]).Some?
    {
      if i < |chunks| {
        EventRoundTrip(c.dumps(chunks[i]));
      } else if failure.Some? && i == |chunks| {
        EventRoundTrip(c.dumps(ErrorBody(failure.value)));
      } else {
        EventRoundTrip("[DONE]");
      }
    }
  }

  /**
    A client that decodes the payload of the i-th event gets the i-th chunk
    back, for every chunk the codec round-trips.
   */
  lemma ClientRecoversChunks(chunks: seq<Json>, failure: Option<string>, c: Codec, i: nat)
    requires i < |chunks| && RoundTrips(c, chunks[i])
    ensures var frames := EventFrames(chunks, failure, c);
      && EventPayload(frames[i]).Some?
      && c.parse(EventPayload(frames[i]).value) == Some(chunks[i])
  {
    EventRoundTrip(c.dumps(chunks[i]));
  }

  /** What the route answers a chat-completion request with. */
  datatype ChatResponse =
    | Completion(body: Json)          // a JSON response holding the single completion
    | EventStream(frames: seq<string>) // a `text/event-stream` response

  /**
    `create_chat_completion` once the model is chosen: a non-streaming request
    gets the one completion `generate` returns, a streaming one gets the
    event frames of the chunks `streamed` yields (and the error it may raise).
   */
  function ChatCompletion(stream: bool, completion: Json, streamed: (seq<Json>, Option<string>), c: Codec): (r: ChatResponse)
    ensures !stream <==> r == Completion(completion)
    ensures stream ==> r.EventStream? && r.frames != [] && r.frames[|r.frames| - 1] == DoneEvent
  {
    if !stream then Completion(completion) else EventStream(EventFrames(streamed.0, streamed.1, c))
  }
}
