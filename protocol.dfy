/**
 * The shapes exchanged between the admin UI's data-provider interface, this
 * layer and its HTTP client, and the collaborators the layer is configured with.
 */
module Protocol {
  import opened Wrappers
  import opened JsValue

  /** The react-admin request types. `Other` stands for a type string that is
      none of the nine names in `KnownNames`; `KindOf` reads a type string. */
  datatype Kind =
    | GetList
    | GetOne
    | Create
    | Update
    | Delete
    | GetManyReference
    | GetMany
    | UpdateMany
    | DeleteMany
    | Other(name: string)

  /** The values of react-admin's request-type constants. */
  const KnownNames: set<string> := {"GET_LIST", "GET_ONE", "CREATE", "UPDATE", "DELETE",
                                    "GET_MANY_REFERENCE", "GET_MANY", "UPDATE_MANY", "DELETE_MANY"}

  /** The kind a request-type string selects in the provider's comparisons. */
  function KindOf(name: string): (k: Kind)
    ensures k.Other? <==> name !in KnownNames
    ensures k.Other? ==> k.name == name
    ensures name == "GET_LIST" <==> k.GetList?
    ensures name == "GET_ONE" <==> k.GetOne?
    ensures name == "CREATE" <==> k.Create?
    ensures name == "UPDATE" <==> k.Update?
    ensures name == "DELETE" <==> k.Delete?
    ensures name == "GET_MANY_REFERENCE" <==> k.GetManyReference?
    ensures name == "GET_MANY" <==> k.GetMany?
    ensures name == "UPDATE_MANY" <==> k.UpdateMany?
    ensures name == "DELETE_MANY" <==> k.DeleteMany?
  {
    match name
    case "GET_LIST" => GetList
    case "GET_ONE" => GetOne
    case "CREATE" => Create
    case "UPDATE" => Update
    case "DELETE" => Delete
    case "GET_MANY_REFERENCE" => GetManyReference
    case "GET_MANY" => GetMany
    case "UPDATE_MANY" => UpdateMany
    case "DELETE_MANY" => DeleteMany
    case _ => Other(name)
  }

  /** The six kinds that the request and the response mapper both switch over. */
  predicate Handled(kind: Kind)
  {
    kind.GetList? || kind.GetOne? || kind.Create? || kind.Update? || kind.Delete? || kind.GetManyReference?
  }

  /** The three kinds the dispatcher sends down the one-request-per-id path. */
  predicate IsBatch(kind: Kind)
  {
    kind.GetMany? || kind.UpdateMany? || kind.DeleteMany?
  }

  /** A fetch options object (`verb` is its `method` field); an absent field is `None`. */
  datatype Options = Options(verb: Option<string>, body: Option<Value>)

  /** `{url, options}` built by the request mapper; `options` may be absent. */
  datatype Request = Request(url: string, options: Option<Options>)

  /** One invocation of the HTTP client: `httpClient(url, options, resource, type)`,
      with the trailing arguments that a call site leaves out as `None`. */
  datatype Call = Call(url: string, options: Option<Options>, resource: Option<string>, kind: Option<Kind>)

  /** What the HTTP client resolves to: the parsed body and a header lookup
      (`headers.get`, case-insensitive on the client's side) that yields a
      string or null. */
  datatype Response = Response(json: Value, header: string -> Value)

  /** `{data, total?}` handed back to the admin UI. */
  datatype DataResult = DataResult(data: Value, total: Option<Value>)

  /** How a dispatcher call ends: an exception thrown before any promise
      exists, a rejected promise, or a resolved one. */
  datatype Outcome = Throws(error: Error) | Rejects(reason: Error) | Resolves(result: DataResult)

  /** The base URL the provider is built with, the HAL key names from
      `./constants`, and the functions of `./fetch` and `JSON.stringify`,
      which are given as uninterpreted functions. */
  datatype Config = Config(
    apiUrl: string,
    embeddedKey: string,
    paginationKey: string,
    linksKey: string,
    locationHeader: string,
    queryParameters: map<string, Value> -> string,
    stringify: Value -> Value,
    extractId: Value -> Value)

  /** The HTTP client injected into the provider. */
  type Client = Call -> Result<Response, Error>
}
