/**
 * `convertHttpDataProviderRequestToHttpRequest`: a react-admin request becomes
 * the URL and fetch options of one HTTP request.
 */
module Outbound {
  import opened Wrappers
  import opened JsValue
  import opened Protocol
  import opened QueryParams

  /** `apiUrl + '/' + resource + '/' + id`, the address of one record. */
  function ItemUrl(apiUrl: string, resource: string, id: Value): string
  {
    apiUrl + "/" + resource + "/" + ToJsString(id)
  }

  /** The method the HTTP client uses: the one given, else GET. */
  function EffectiveMethod(request: Request): string
  {
    if request.options.Some? && request.options.value.verb.Some? then request.options.value.verb.value else "GET"
  }

  /** Whether the request carries a body. */
  predicate HasBody(request: Request)
  {
    request.options.Some? && request.options.value.body.Some?
  }

  /** The request for one react-admin call. Types outside the six it knows
      throw `Not Implemented`; reading `id`, `data` or `target` of null or
      undefined params throws a TypeError. */
  function ToHttpRequest(config: Config, kind: Kind, resource: string, params: Value): (r: Result<Request, Error>)
    ensures r == Err(NotImplemented) <==> !Handled(kind)
    ensures r.Ok? ==> config.apiUrl + "/" <= r.value.url
    ensures r.Err? && Handled(kind) ==> r.error == TypeError
  {
    var base := config.apiUrl + "/" + resource;
    match kind
    case GetList =>
      (match QueryString(config.queryParameters, params)
       case Err(e) => Err(e)
       case Ok(query) => Ok(Request(base + query, Some(Options(None, None)))))
    case GetOne =>
      if Nullish(params) then Err(TypeError)
      else Ok(Request(ItemUrl(config.apiUrl, resource, Field(params, "id")), Some(Options(None, None))))
    case Create =>
      if Nullish(params) then Err(TypeError)
      else Ok(Request(base, Some(Options(Some("POST"), Some(config.stringify(Field(params, "data")))))))
    case Update =>
      if Nullish(params) then Err(TypeError)
      else Ok(Request(ItemUrl(config.apiUrl, resource, Field(params, "id")),
                      Some(Options(Some("PUT"), Some(config.stringify(Field(params, "data")))))))
    case Delete =>
      if Nullish(params) then Err(TypeError)
      else Ok(Request(ItemUrl(config.apiUrl, resource, Field(params, "id")), Some(Options(Some("DELETE"), None))))
    case GetManyReference =>
      if Nullish(params) then Err(TypeError)
      else
        (match QueryString(config.queryParameters, params)
         case Err(e) => Err(e)
         case Ok(query) =>
           Ok(Request(config.apiUrl + "/" + ToJsString(Field(params, "target")) + "/" + ToJsString(Field(params, "id"))
                        + "/" + resource + query, None)))
    case _ => Err(NotImplemented)
  }

  /** GET_ONE, UPDATE and DELETE address exactly `apiUrl/resource/id`, with no
      method (GET), PUT with the serialised data, and DELETE without a body. */
  lemma ItemRequests(config: Config, kind: Kind, resource: string, params: Value)
    requires kind.GetOne? || kind.Update? || kind.Delete?
    requires !Nullish(params)
    ensures var r := ToHttpRequest(config, kind, resource, params);
      && r.Ok?
      && r.value.url == config.apiUrl + "/" + resource + "/" + ToJsString(Field(params, "id"))
      && (kind.GetOne? ==> r.value.options == Some(Options(None, None)))
      && (kind.Update? ==> r.value.options == Some(Options(Some("PUT"), Some(config.stringify(Field(params, "data"))))))
      && (kind.Delete? ==> r.value.options == Some(Options(Some("DELETE"), None)))
  {
  }

  /** CREATE posts the serialised data to `apiUrl/resource`. */
  lemma CreateRequest(config: Config, resource: string, params: Value)
    requires !Nullish(params)
    ensures ToHttpRequest(config, Create, resource, params)
      == Ok(Request(config.apiUrl + "/" + resource,
                    Some(Options(Some("POST"), Some(config.stringify(Field(params, "data")))))))
  {
  }

  /** GET_LIST asks `apiUrl/resource` followed by the query string, with empty
      options; it fails exactly when the query builder does. */
  lemma ListRequest(config: Config, resource: string, params: Value)
    ensures var r := ToHttpRequest(config, GetList, resource, params);
      var q := QueryString(config.queryParameters, params);
      && (r.Ok? <==> q.Ok?)
      && (r.Ok? ==> r.value == Request(config.apiUrl + "/" + resource + q.value, Some(Options(None, None))))
  {
  }

  /** GET_MANY_REFERENCE asks `apiUrl/target/id/resource` followed by the
      query string built from the same params, and passes no options. */
  lemma ManyReferenceRequest(config: Config, resource: string, params: Value)
    requires !Nullish(params)
    ensures var r := ToHttpRequest(config, GetManyReference, resource, params);
      var q := QueryString(config.queryParameters, params);
      && (r.Ok? <==> q.Ok?)
      && (r.Ok? ==>
            r.value.options.None?
            && r.value.url == config.apiUrl + "/" + ToJsString(Field(params, "target")) + "/"
                             + ToJsString(Field(params, "id")) + "/" + resource + q.value)
  {
  }

  /** The three reading kinds are sent as GET without a body; CREATE is the
      only POST, UPDATE the only PUT, DELETE the only DELETE, and only CREATE
      and UPDATE carry a body. */
  lemma MethodsByKind(config: Config, kind: Kind, resource: string, params: Value)
    requires ToHttpRequest(config, kind, resource, params).Ok?
    ensures var request := ToHttpRequest(config, kind, resource, params).value;
      && (EffectiveMethod(request) == "GET" <==> kind.GetList? || kind.GetOne? || kind.GetManyReference?)
      && (EffectiveMethod(request) == "POST" <==> kind.Create?)
      && (EffectiveMethod(request) == "PUT" <==> kind.Update?)
      && (EffectiveMethod(request) == "DELETE" <==> kind.Delete?)
      && (HasBody(request) <==> kind.Create? || kind.Update?)
  {
  }

  /** With null or undefined params only GET_LIST succeeds, asking the bare
      collection URL; the other five kinds throw a TypeError. */
  lemma NullishParams(config: Config, kind: Kind, resource: string, params: Value)
    requires Handled(kind)
    requires Nullish(params)
    ensures kind.GetList? ==>
      ToHttpRequest(config, kind, resource, params) == Ok(Request(config.apiUrl + "/" + resource, Some(Options(None, None))))
    ensures !kind.GetList? ==> ToHttpRequest(config, kind, resource, params) == Err(TypeError)
  {
    var base := config.apiUrl + "/" + resource;
    assert base + "" == base;
  }
}
