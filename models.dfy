/**
  The model-management routes: taking the model id out of a request path, and
  turning the errors the model service raises into HTTP errors. The model
  service itself is external; its answers are parameters.
 */
module Models {
  import opened Wrappers
  import opened Text

  const V1Prefix := "/v1/models/"
  const BarePrefix := "/models/"

  /**
    `extract_model_id_from_path`: the route prefix is "/v1/models/" when that
    text occurs anywhere in the path and "/models/" otherwise; the id is what
    follows the prefix's length.
   */
  function ExtractModelId(path: string): (id: string)
    ensures |id| == if Contains(path, V1Prefix) then Max0(|path| - |V1Prefix|) else Max0(|path| - |BarePrefix|)
    ensures Contains(path, V1Prefix) && |path| >= |V1Prefix| ==> path == path[..|V1Prefix|] + id
    ensures !Contains(path, V1Prefix) && |path| >= |BarePrefix| ==> path == path[..|BarePrefix|] + id
  {
    var prefix := if Contains(path, V1Prefix) then V1Prefix else BarePrefix;
    Drop(path, |prefix|)
  }

  function Max0(n: int): nat {
    if n < 0 then 0 else n
  }

  /** A "/v1/models/" route gives back the id it was built from. */
  lemma V1RouteRoundTrip(id: string)
    ensures ExtractModelId(V1Prefix + id) == id
  {
    var path := V1Prefix + id;
    assert OccursAt(path, V1Prefix, 0);
    assert path[|V1Prefix|..] == id;
  }

  /** A "/models/" route gives back its id when the id does not bring "/v1/models/" into the path. */
  lemma BareRouteRoundTrip(id: string)
    requires !Contains(BarePrefix + id, V1Prefix)
    ensures ExtractModelId(BarePrefix + id) == id
  {
    var path := BarePrefix + id;
    assert path[|BarePrefix|..] == id;
  }

  /**
    A "/models/" route whose id itself holds "/v1/models/" loses the id's
    first three characters: the test is for the text anywhere in the path,
    not at its start, so the longer prefix's length is cut off.
   */
  lemma BareRouteWithV1Segment(id: string)
    requires Contains(id, V1Prefix)
    ensures ExtractModelId(BarePrefix + id) == id[|V1Prefix| - |BarePrefix|..]
    ensures ExtractModelId(BarePrefix + id) != id
  {
    var path := BarePrefix + id;
    var i :| 0 <= i <= |id| && OccursAt(id, V1Prefix, i);
    assert path[|BarePrefix| + i..|BarePrefix| + i + |V1Prefix|] == id[i..i + |V1Prefix|];
    assert OccursAt(path, V1Prefix, |BarePrefix| + i);
    assert path[|V1Prefix|..] == id[|V1Prefix| - |BarePrefix|..];
  }

  /** The route "/models/org/v1/models/x" gives the id "/v1/models/x", not "org/v1/models/x". */
  lemma BareRouteWithV1SegmentExample()
    ensures ExtractModelId("/models/org/v1/models/x") == "/v1/models/x"
  {
    var id := "org/v1/models/x";
    assert OccursAt(id, V1Prefix, 3);
    BareRouteWithV1Segment(id);
    assert BarePrefix + id == "/models/org/v1/models/x";
    assert id[3..] == "/v1/models/x";
  }

  /** The exceptions the service raises, told apart the way the handler does: `ValueError` or anything else. */
  datatype ServiceError =
    | ValueError(message: string)
    | OtherError(message: string)

  /** The `HTTPException` the handler raises. */
  datatype HttpError = HttpError(statusCode: nat, detail: string)

  /** `handle_model_error`: a `ValueError` is a 404, anything else a 500; the detail is `str(e)` either way. */
  function HandleModelError(e: ServiceError): (r: HttpError)
    ensures r.statusCode == 404 <==> e.ValueError?
    ensures r.statusCode == 500 <==> e.OtherError?
    ensures r.detail == e.message
  {
    match e
    case ValueError(m) => HttpError(404, m)
    case OtherError(m) => HttpError(500, m)
  }

  /** The message `get_model` raises for an id the service does not know. */
  function NotFoundMessage(id: string): string {
    "Model '" + id + "' not found"
  }

  /**
    `get_model`: look the id of the path up (`lookup`, the service's answer:
    the model, None, or the error it raised); a missing model is a
    `ValueError`, and every error goes through `HandleModelError`.
   */
  function GetModel<M>(path: string, lookup: string -> Result<Option<M>, ServiceError>): (r: Result<M, HttpError>)
    ensures lookup(ExtractModelId(path)) == Ok(None) ==>
      r == Err(HttpError(404, NotFoundMessage(ExtractModelId(path))))
    ensures r.Ok? <==> lookup(ExtractModelId(path)).Ok? && lookup(ExtractModelId(path)).value.Some?
    ensures r.Ok? ==> lookup(ExtractModelId(path)) == Ok(Some(r.value))
    ensures lookup(ExtractModelId(path)).Err? ==> r == Err(HandleModelError(lookup(ExtractModelId(path)).error))
  {
    var id := ExtractModelId(path);
    match lookup(id)
    case Ok(Some(m)) => Ok(m)
    case Ok(None) => Err(HandleModelError(ValueError(NotFoundMessage(id))))
    case Err(e) => Err(HandleModelError(e))
  }

  /** `delete_model`, `list_models` and `rescan_models`: the service's answer, with any error mapped by `HandleModelError`. */
  function ServiceCall<T>(answer: Result<T, ServiceError>): (r: Result<T, HttpError>)
    ensures r.Ok? <==> answer.Ok?
    ensures r.Ok? ==> r.value == answer.value
    ensures answer.Err? ==> r.error.statusCode == (if answer.error.ValueError? then 404 else 500)
  {
    match answer
    case Ok(v) => Ok(v)
    case Err(e) => Err(HandleModelError(e))
  }
}
