/**
 * `converHttpResponseToDataProvider`: the parsed HAL+JSON answer to one request
 * becomes the `{data, total?}` result react-admin expects.
 */
module Inbound {
  import opened Wrappers
  import opened JsValue
  import opened Protocol

  /** `json[EMBEDDED_KEY][resource]`: the embedded list of the resource. */
  function EmbeddedList(config: Config, json: Value, resource: string): (r: Result<Value, Error>)
    ensures r.Err? <==> Nullish(json) || Nullish(Field(json, config.embeddedKey))
    ensures r.Err? ==> r.error == TypeError
    ensures r.Ok? ==> r.value == Field(Field(json, config.embeddedKey), resource)
  {
    match Get(json, config.embeddedKey)
    case Err(e) => Err(e)
    case Ok(embedded) => Get(embedded, resource)
  }

  /** The result for one react-admin call. Types outside the six it knows
      throw `Not Implemented`. UPDATE and DELETE never look at the response. */
  function ToDataResult(config: Config, response: Response, kind: Kind, resource: string, params: Value)
    : (r: Result<DataResult, Error>)
    ensures r == Err(NotImplemented) <==> !Handled(kind)
    ensures r.Err? && Handled(kind) ==> r.error == TypeError
    ensures r.Ok? ==> (r.value.total.Some? <==> kind.GetList? || kind.GetManyReference?)
    ensures r.Ok? && kind.GetManyReference? ==> r.value.total == Some(Num(Len(r.value.data)))
    ensures r.Ok? && (kind.Update? || kind.Delete?) ==>
      r.value.data.Obj? && "id" in r.value.data.fields
  {
    var json := response.json;
    match kind
    case GetList =>
      (match EmbeddedList(config, json, resource)
       case Err(e) => Err(e)
       case Ok(list) =>
         (match Get(json, config.paginationKey)
          case Err(e) => Err(e)
          case Ok(pagination) =>
            (match Get(pagination, "totalElements")
             case Err(e) => Err(e)
             case Ok(total) => Ok(DataResult(list, Some(total))))))
    case GetManyReference =>
      (match EmbeddedList(config, json, resource)
       case Err(e) => Err(e)
       case Ok(list) => Ok(DataResult(list, Some(Num(Len(list))))))
    case GetOne => Ok(DataResult(json, None))
    case Update =>
      if Nullish(params) then Err(TypeError)
      else Ok(DataResult(Obj(Assign(map["id" := Field(params, "id")], OwnEntries(Field(params, "data")))), None))
    case Create => Ok(DataResult(json, None))
    case Delete =>
      if Nullish(params) then Err(TypeError)
      else Ok(DataResult(Obj(map["id" := Field(params, "id")]), None))
    case _ => Err(NotImplemented)
  }

  /** GET_LIST returns the embedded list and the pagination section's
      `totalElements`; it throws exactly when the body, the embedded section or
      the pagination section is null or undefined. */
  lemma ListResult(config: Config, response: Response, resource: string, params: Value)
    ensures var json := response.json;
      var r := ToDataResult(config, response, GetList, resource, params);
      && (r.Ok? <==> !Nullish(json) && !Nullish(Field(json, config.embeddedKey))
                     && !Nullish(Field(json, config.paginationKey)))
      && (r.Ok? ==> r.value == DataResult(Field(Field(json, config.embeddedKey), resource),
                                          Some(Field(Field(json, config.paginationKey), "totalElements"))))
  {
  }

  /** GET_MANY_REFERENCE counts the embedded list itself (0 when it is not an
      array) and ignores whatever the pagination section says. */
  lemma ManyReferenceIgnoresPagination(config: Config, fields: map<string, Value>, header: string -> Value,
                                       resource: string, params: Value, other: Value)
    requires config.paginationKey != config.embeddedKey
    ensures var r := ToDataResult(config, Response(Obj(fields), header), GetManyReference, resource, params);
      var fields' := fields[config.paginationKey := other];
      && r == ToDataResult(config, Response(Obj(fields'), header), GetManyReference, resource, params)
      && (r.Ok? ==> r.value.total == Some(Num(if r.value.data.Arr? then |r.value.data.items| else 0)))
  {
  }

  /** GET_MANY_REFERENCE returns the embedded list `json[EMBEDDED_KEY][resource]`
      with its own length as total; it throws exactly when the body or the
      embedded section is null or undefined. */
  lemma ManyReferenceResult(config: Config, response: Response, resource: string, params: Value)
    ensures var json := response.json;
      var r := ToDataResult(config, response, GetManyReference, resource, params);
      var list := Field(Field(json, config.embeddedKey), resource);
      && (r.Ok? <==> !Nullish(json) && !Nullish(Field(json, config.embeddedKey)))
      && (r.Ok? ==> r.value == DataResult(list, Some(Num(Len(list)))))
  {
  }

  /** UPDATE echoes `{id: params.id}` overlaid by `params.data`: an `id` in the
      data wins, every data entry is kept, and the response does not matter. */
  lemma UpdateEchoesParams(config: Config, response: Response, other: Response, resource: string, params: Value)
    requires !Nullish(params)
    ensures var r := ToDataResult(config, response, Update, resource, params);
      var data := OwnEntries(Field(params, "data"));
      && r == ToDataResult(config, other, Update, resource, params)
      && r.Ok? && r.value.data.Obj? && r.value.total.None?
      && r.value.data.fields.Keys == data.Keys + {"id"}
      && r.value.data.fields["id"] == (if "id" in data then data["id"] else Field(params, "id"))
      && (forall k :: k in data ==> r.value.data.fields[k] == data[k])
  {
  }

  /** DELETE returns exactly `{id: params.id}`, whatever the response. */
  lemma DeleteEchoesId(config: Config, response: Response, resource: string, params: Value)
    requires !Nullish(params)
    ensures ToDataResult(config, response, Delete, resource, params)
      == Ok(DataResult(Obj(map["id" := Field(params, "id")]), None))
  {
  }

  /** GET_ONE and CREATE hand back the parsed body unchanged, without total. */
  lemma BodyReturnedUnchanged(config: Config, response: Response, kind: Kind, resource: string, params: Value)
    requires kind.GetOne? || kind.Create?
    ensures ToDataResult(config, response, kind, resource, params) == Ok(DataResult(response.json, None))
  {
  }

  /** `{_embedded: {widgets: [a, b]}, page: {totalElements: 42}}` read as a
      `widgets` list gives `{data: [a, b], total: 42}`. */
  lemma ListExample(config: Config, header: string -> Value, a: Value, b: Value, params: Value)
    requires config.embeddedKey != config.paginationKey
    ensures var json := Obj(map[config.embeddedKey := Obj(map["widgets" := Arr([a, b])]),
                                config.paginationKey := Obj(map["totalElements" := Num(42)])]);
      ToDataResult(config, Response(json, header), GetList, "widgets", params)
        == Ok(DataResult(Arr([a, b]), Some(Num(42))))
  {
  }
}
