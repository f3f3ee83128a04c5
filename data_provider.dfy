/**
 * The provider returned by the default export: batch kinds go to the
 * one-call-per-id paths, every other kind through the request mapper, one
 * HTTP call, and the response mapper.
 */
module DataProvider {
  import opened Wrappers
  import opened JsValue
  import opened Protocol
  import opened Outbound
  import opened Inbound
  import Batch

  /** The call the single-request path makes for a mapped request: the only
      call site that also hands the client the resource and the type. */
  function SingleCall(request: Request, kind: Kind, resource: string): (c: Call)
    ensures c.url == request.url && c.options == request.options
    ensures c.resource == Some(resource) && c.kind == Some(kind)
  {
    Call(request.url, request.options, Some(resource), Some(kind))
  }

  /** `dataProvider(type, resource, params)`. */
  function Dispatch(config: Config, client: Client, kind: Kind, resource: string, params: Value): (o: Outcome)
    ensures o == Throws(NotImplemented) <==> !Handled(kind) && !IsBatch(kind)
    ensures o.Throws? ==> o.error == TypeError || o.error == NotImplemented
  {
    if kind.GetMany? then Batch.GetMany(config, client, params)
    else if kind.UpdateMany? then Batch.UpdateMany(config, client, resource, params)
    else if kind.DeleteMany? then Batch.DeleteMany(config, client, resource, params)
    else
      match ToHttpRequest(config, kind, resource, params)
      case Err(e) => Throws(e)
      case Ok(request) =>
        match client(SingleCall(request, kind, resource))
        case Err(e) => Rejects(e)
        case Ok(response) =>
          match ToDataResult(config, response, kind, resource, params)
          case Err(e) => Rejects(e)
          case Ok(result) => Resolves(result)
  }

  /** Every other kind makes exactly one call, the mapped request with the
      resource and the type: a client failure rejects, and otherwise the
      outcome is the response mapper's result for that answer. */
  lemma SingleRequestPath(config: Config, client: Client, kind: Kind, resource: string, params: Value)
    requires !IsBatch(kind)
    ensures var request := ToHttpRequest(config, kind, resource, params);
      var o := Dispatch(config, client, kind, resource, params);
      && (request.Err? ==> o == Throws(request.error))
      && (request.Ok? ==>
            var answer := client(SingleCall(request.value, kind, resource));
            && (answer.Err? ==> o == Rejects(answer.error))
            && (answer.Ok? ==>
                  var result := ToDataResult(config, answer.value, kind, resource, params);
                  && (result.Err? ==> o == Rejects(result.error))
                  && (result.Ok? ==> o == Resolves(result.value))))
  {
  }

  /** GET_MANY, UPDATE_MANY and DELETE_MANY are answered by the batch paths
      alone, so they never throw `Not Implemented`. */
  lemma BatchKindsBypassMappers(config: Config, client: Client, kind: Kind, resource: string, params: Value)
    requires IsBatch(kind)
    ensures var o := Dispatch(config, client, kind, resource, params);
      && o != Throws(NotImplemented)
      && (kind.GetMany? ==> o == Batch.GetMany(config, client, params))
      && (kind.UpdateMany? ==> o == Batch.UpdateMany(config, client, resource, params))
      && (kind.DeleteMany? ==> o == Batch.DeleteMany(config, client, resource, params))
  {
  }

  /** The request and the response mapper throw `Not Implemented` for the same
      kinds: exactly those outside their six cases. */
  lemma MappersAgreeOnKinds(config: Config, response: Response, kind: Kind, resource: string, params: Value)
    ensures ToHttpRequest(config, kind, resource, params) == Err(NotImplemented)
        <==> ToDataResult(config, response, kind, resource, params) == Err(NotImplemented)
    ensures ToHttpRequest(config, kind, resource, params) == Err(NotImplemented) <==> !Handled(kind)
  {
  }

  /** An unknown kind throws `Not Implemented` before any call is made,
      whatever the client would answer. */
  lemma UnknownKindThrowsFirst(config: Config, client: Client, other: Client, name: string, resource: string, params: Value)
    requires name !in KnownNames
    ensures KindOf(name) == Other(name)
    ensures Dispatch(config, client, KindOf(name), resource, params) == Throws(NotImplemented)
    ensures Dispatch(config, client, KindOf(name), resource, params)
         == Dispatch(config, other, KindOf(name), resource, params)
  {
  }

  /** The response mapper's `Not Implemented` branch is dead behind the
      dispatcher: a rejection with that error can only come from the client. */
  lemma ResponseMapperDefaultUnreachable(config: Config, client: Client, kind: Kind, resource: string, params: Value)
    requires Dispatch(config, client, kind, resource, params) == Rejects(NotImplemented)
    requires !IsBatch(kind)
    ensures ToHttpRequest(config, kind, resource, params).Ok?
    ensures var call := SingleCall(ToHttpRequest(config, kind, resource, params).value, kind, resource);
      client(call).Err? && client(call).error == NotImplemented
  {
  }

  /** CREATE posts the serialised data to `apiUrl/resource` and resolves to
      whatever body the server answers with, e.g. its record with the new id. */
  lemma CreateRoundTrip(config: Config, client: Client, resource: string, params: Value)
    requires !Nullish(params)
    requires client(Call(config.apiUrl + "/" + resource,
                         Some(Options(Some("POST"), Some(config.stringify(Field(params, "data"))))),
                         Some(resource), Some(Create))).Ok?
    ensures var answer := client(Call(config.apiUrl + "/" + resource,
                                      Some(Options(Some("POST"), Some(config.stringify(Field(params, "data"))))),
                                      Some(resource), Some(Create))).value;
      Dispatch(config, client, Create, resource, params) == Resolves(DataResult(answer.json, None))
  {
  }
}
