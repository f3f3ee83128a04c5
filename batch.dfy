/**
 * The batch paths: `requestMany`, `getMany`, `updateMany` and `deleteMany`
 * issue one HTTP call per id and shape the joined responses into records.
 */
module Batch {
  import opened Wrappers
  import opened JsValue
  import opened Protocol
  import opened QueryParams
  import Outbound

  /** `xs.map(f)`. */
  function MapSeq<A, B>(f: A -> B, xs: seq<A>): (ys: seq<B>)
    ensures |ys| == |xs|
    ensures forall i :: 0 <= i < |xs| ==> ys[i] == f(xs[i])
  {
    if |xs| == 0 then [] else [f(xs[0])] + MapSeq(f, xs[1..])
  }

  /** `Promise.all`: every value, in order, when all succeed; otherwise a
      failure of one of them, the first in order with none failing before it. */
  function All<T>(results: seq<Result<T, Error>>): (r: Result<seq<T>, Error>)
    ensures r.Ok? <==> forall i :: 0 <= i < |results| ==> results[i].Ok?
    ensures r.Ok? ==> |r.value| == |results| && forall i :: 0 <= i < |results| ==> r.value[i] == results[i].value
    ensures r.Err? ==> exists i :: 0 <= i < |results| && results[i].Err? && results[i].error == r.error
                                   && forall j :: 0 <= j < i ==> results[j].Ok?
  {
    if |results| == 0 then Ok([])
    else if results[0].Err? then Err(results[0].error)
    else
      match All(results[1..])
      case Err(e) => Err(e)
      case Ok(rest) => Ok([results[0].value] + rest)
  }

  /** Issue every call through the client and join the responses. */
  function SendAll(client: Client, calls: seq<Call>): (r: Result<seq<Response>, Error>)
    ensures r.Ok? <==> forall i :: 0 <= i < |calls| ==> client(calls[i]).Ok?
    ensures r.Ok? ==> |r.value| == |calls| && forall i :: 0 <= i < |calls| ==> r.value[i] == client(calls[i]).value
    ensures r.Err? ==> exists i :: 0 <= i < |calls| && client(calls[i]) == Err(r.error)
  {
    All(MapSeq(client, calls))
  }

  /** `requestMany`: one call per id to `apiUrl/resource/id`, all with the
      same options, in the order of the ids. */
  function RequestMany(apiUrl: string, resource: string, ids: seq<Value>, options: Options): (calls: seq<Call>)
    ensures |calls| == |ids|
    ensures forall i :: 0 <= i < |ids| ==>
      calls[i] == Call(Outbound.ItemUrl(apiUrl, resource, ids[i]), Some(options), None, None)
  {
    MapSeq((id: Value) => Call(Outbound.ItemUrl(apiUrl, resource, id), Some(options), None, None), ids)
  }

  /** The record `getMany` makes of one response: the body's own entries with
      `id` set from the HAL self link, which overrides an `id` in the body.
      A body without `_links.self` throws a TypeError. */
  function SelfLinkRecord(config: Config, json: Value): (r: Result<Value, Error>)
    ensures r.Err? <==> Nullish(json) || Nullish(Field(json, config.linksKey))
                        || Nullish(Field(Field(json, config.linksKey), "self"))
    ensures r.Ok? ==>
      && r.value.Obj?
      && r.value.fields.Keys == OwnEntries(json).Keys + {"id"}
      && r.value.fields["id"] == config.extractId(Field(Field(Field(json, config.linksKey), "self"), "href"))
      && forall k :: k in OwnEntries(json) && k != "id" ==> r.value.fields[k] == OwnEntries(json)[k]
  {
    if Nullish(json) then Err(TypeError)
    else
      var links := Field(json, config.linksKey);
      if Nullish(links) then Err(TypeError)
      else
        var self := Field(links, "self");
        if Nullish(self) then Err(TypeError)
        else Ok(Obj(Assign(OwnEntries(json), map["id" := config.extractId(Field(self, "href"))])))
  }

  /** The reason `getMany` rejects with when `ids` is not an array. */
  const UnableToProcess: Value := Str("Unable to process request.")

  /** The calls of `getMany`: each id is a full URL, followed by the query
      string built from the params without `ids`. With no ids the query
      builder never runs. */
  function GetManyCalls(config: Config, params: Value, urls: seq<Value>): (r: Result<seq<Call>, Error>)
    ensures |urls| == 0 ==> r == Ok([])
    ensures r.Err? <==> |urls| > 0 && QueryString(config.queryParameters, Obj(WithoutKeys(params, {"ids"}))).Err?
    ensures r.Err? ==> r.error == TypeError
    ensures r.Ok? ==> |r.value| == |urls|
    ensures r.Ok? && |urls| > 0 ==>
      var query := QueryString(config.queryParameters, Obj(WithoutKeys(params, {"ids"}))).value;
      forall i :: 0 <= i < |urls| ==> r.value[i] == Call(ToJsString(urls[i]) + query, None, None, None)
  {
    if |urls| == 0 then Ok([])
    else
      match QueryString(config.queryParameters, Obj(WithoutKeys(params, {"ids"})))
      case Err(e) => Err(e)
      case Ok(query) => Ok(MapSeq((url: Value) => Call(ToJsString(url) + query, None, None, None), urls))
  }

  /** `getMany`: reading `params.ids` of null or undefined params throws; ids
      that are not an array reject; otherwise the records of the responses,
      in the order of the ids. */
  function GetMany(config: Config, client: Client, params: Value): (o: Outcome)
    ensures Nullish(params) ==> o == Throws(TypeError)
    ensures !Nullish(params) && !Field(params, "ids").Arr? ==> o == Rejects(Rejected(UnableToProcess))
    ensures o.Throws? ==> o.error == TypeError
    ensures o.Throws? <==> Nullish(params)
                           || (Field(params, "ids").Arr? && GetManyCalls(config, params, Field(params, "ids").items).Err?)
    ensures o.Resolves? ==>
      && Field(params, "ids").Arr?
      && o.result.total.None?
      && o.result.data.Arr?
      && |o.result.data.items| == |Field(params, "ids").items|
  {
    if Nullish(params) then Throws(TypeError)
    else
      var ids := Field(params, "ids");
      if !ids.Arr? then Rejects(Rejected(UnableToProcess))
      else
        match GetManyCalls(config, params, ids.items)
        case Err(e) => Throws(e)
        case Ok(calls) =>
          match SendAll(client, calls)
          case Err(e) => Rejects(e)
          case Ok(responses) =>
            match All(MapSeq((response: Response) => SelfLinkRecord(config, response.json), responses))
            case Err(e) => Rejects(e)
            case Ok(records) => Resolves(DataResult(Arr(records), None))
  }

  /** The record `updateMany` makes of one response: `{id}` from the Location
      header overlaid by the shared `params.data`. */
  function UpdatedRecord(config: Config, data: Value, response: Response): (r: Value)
    ensures r.Obj?
    ensures r.fields.Keys == OwnEntries(data).Keys + {"id"}
    ensures forall k :: k in OwnEntries(data) ==> r.fields[k] == OwnEntries(data)[k]
    ensures "id" !in OwnEntries(data) ==>
      r.fields["id"] == config.extractId(response.header(config.locationHeader))
  {
    Obj(Assign(map["id" := config.extractId(response.header(config.locationHeader))], OwnEntries(data)))
  }

  /** The record `deleteMany` makes of one response: `{id}` from the Location header. */
  function DeletedRecord(config: Config, response: Response): (r: Value)
    ensures r.Obj? && r.fields.Keys == {"id"}
    ensures r.fields["id"] == config.extractId(response.header(config.locationHeader))
  {
    Obj(map["id" := config.extractId(response.header(config.locationHeader))])
  }

  /** The calls `requestMany` issues for UPDATE_MANY (a PUT carrying the raw
      `params.data`) or DELETE_MANY (a DELETE). Reading `params.ids` of null or
      undefined params, or calling `.map` on ids that are not an array, throws. */
  function ManyCalls(config: Config, resource: string, params: Value, update: bool): (r: Result<seq<Call>, Error>)
    ensures r.Err? <==> Nullish(params) || !Field(params, "ids").Arr?
    ensures r.Err? ==> r.error == TypeError
    ensures r.Ok? ==> |r.value| == |Field(params, "ids").items|
  {
    if Nullish(params) then Err(TypeError)
    else
      var options := if update then Options(Some("PUT"), Some(Field(params, "data"))) else Options(Some("DELETE"), None);
      var ids := Field(params, "ids");
      if !ids.Arr? then Err(TypeError)
      else Ok(RequestMany(config.apiUrl, resource, ids.items, options))
  }

  /** `updateMany`. */
  function UpdateMany(config: Config, client: Client, resource: string, params: Value): (o: Outcome)
    ensures o.Throws? <==> Nullish(params) || !Field(params, "ids").Arr?
    ensures o.Throws? ==> o.error == TypeError
    ensures o.Resolves? ==> o.result.total.None? && o.result.data.Arr?
                            && |o.result.data.items| == |Field(params, "ids").items|
  {
    match ManyCalls(config, resource, params, true)
    case Err(e) => Throws(e)
    case Ok(calls) =>
      match SendAll(client, calls)
      case Err(e) => Rejects(e)
      case Ok(responses) =>
        var data := Field(params, "data");
        Resolves(DataResult(Arr(MapSeq((response: Response) => UpdatedRecord(config, data, response), responses)), None))
  }

  /** `deleteMany`. */
  function DeleteMany(config: Config, client: Client, resource: string, params: Value): (o: Outcome)
    ensures o.Throws? <==> Nullish(params) || !Field(params, "ids").Arr?
    ensures o.Throws? ==> o.error == TypeError
    ensures o.Resolves? ==> o.result.total.None? && o.result.data.Arr?
                            && |o.result.data.items| == |Field(params, "ids").items|
  {
    match ManyCalls(config, resource, params, false)
    case Err(e) => Throws(e)
    case Ok(calls) =>
      match SendAll(client, calls)
      case Err(e) => Rejects(e)
      case Ok(responses) =>
        Resolves(DataResult(Arr(MapSeq((response: Response) => DeletedRecord(config, response), responses)), None))
  }

  /** UPDATE_MANY and DELETE_MANY issue exactly one call per id, the i-th to
      `apiUrl/resource/ids[i]`: the same URL and method the single UPDATE or
      DELETE request for that id uses. UPDATE_MANY sends the raw data as body. */
  lemma ManyCallsMatchSingleRequests(config: Config, resource: string, params: Value, update: bool, i: int)
    requires !Nullish(params) && Field(params, "ids").Arr?
    requires 0 <= i < |Field(params, "ids").items|
    ensures var calls := ManyCalls(config, resource, params, update).value;
      var id := Field(params, "ids").items[i];
      var single := Outbound.ToHttpRequest(config, if update then Update else Delete, resource, Obj(map["id" := id]));
      && |calls| == |Field(params, "ids").items|
      && calls[i].url == config.apiUrl + "/" + resource + "/" + ToJsString(id)
      && calls[i].url == single.value.url
      && Outbound.EffectiveMethod(Request(calls[i].url, calls[i].options)) == Outbound.EffectiveMethod(single.value)
      && calls[i].options == Some(if update then Options(Some("PUT"), Some(Field(params, "data")))
                                  else Options(Some("DELETE"), None))
  {
  }

  /** UPDATE_MANY resolves exactly when every call does, with one record per
      id in the order of the ids: the Location id overlaid by the shared data. */
  lemma UpdateManyResult(config: Config, client: Client, resource: string, params: Value)
    requires !Nullish(params) && Field(params, "ids").Arr?
    ensures var calls := ManyCalls(config, resource, params, true).value;
      var o := UpdateMany(config, client, resource, params);
      && (o.Resolves? <==> forall i :: 0 <= i < |calls| ==> client(calls[i]).Ok?)
      && (o.Rejects? <==> !o.Resolves?)
      && (o.Rejects? ==> exists i :: 0 <= i < |calls| && client(calls[i]) == Err(o.reason))
      && (o.Resolves? ==> forall i :: 0 <= i < |calls| ==>
            o.result.data.items[i] == UpdatedRecord(config, Field(params, "data"), client(calls[i]).value))
  {
  }

  /** DELETE_MANY resolves exactly when every call does, with one `{id}`
      record per id, taken from that response's Location header. */
  lemma DeleteManyResult(config: Config, client: Client, resource: string, params: Value)
    requires !Nullish(params) && Field(params, "ids").Arr?
    ensures var calls := ManyCalls(config, resource, params, false).value;
      var o := DeleteMany(config, client, resource, params);
      && (o.Resolves? <==> forall i :: 0 <= i < |calls| ==> client(calls[i]).Ok?)
      && (o.Rejects? <==> !o.Resolves?)
      && (o.Rejects? ==> exists i :: 0 <= i < |calls| && client(calls[i]) == Err(o.reason))
      && (o.Resolves? ==> forall i :: 0 <= i < |calls| ==>
            o.result.data.items[i]
              == Obj(map["id" := config.extractId(client(calls[i]).value.header(config.locationHeader))]))
  {
  }

  /** GET_MANY calls each id as a URL followed by the query string of the
      other params; when `ids` is the only param, the ids are called as they are. */
  lemma GetManyRequests(config: Config, params: Value)
    requires !Nullish(params) && Field(params, "ids").Arr?
    requires GetManyCalls(config, params, Field(params, "ids").items).Ok?
    ensures var urls := Field(params, "ids").items;
      var calls := GetManyCalls(config, params, urls).value;
      var query := QueryString(config.queryParameters, Obj(WithoutKeys(params, {"ids"})));
      && |calls| == |urls|
      && (|urls| > 0 ==> query.Ok?)
      && (forall i :: 0 <= i < |urls| ==> calls[i] == Call(ToJsString(urls[i]) + query.value, None, None, None))
      && (OwnEntries(params).Keys <= {"ids"} ==> forall i :: 0 <= i < |urls| ==> calls[i].url == ToJsString(urls[i]))
  {
  }

  /** GET_MANY resolves exactly when every call succeeds and every body has a
      self link; the i-th record is the i-th body with its self-link id. */
  lemma GetManyResult(config: Config, client: Client, params: Value)
    requires !Nullish(params) && Field(params, "ids").Arr?
    requires GetManyCalls(config, params, Field(params, "ids").items).Ok?
    ensures var calls := GetManyCalls(config, params, Field(params, "ids").items).value;
      var o := GetMany(config, client, params);
      && (o.Resolves? <==> forall i :: 0 <= i < |calls| ==>
            client(calls[i]).Ok? && SelfLinkRecord(config, client(calls[i]).value.json).Ok?)
      && (o.Rejects? <==> !o.Resolves?)
      && (o.Rejects? ==> o.reason == TypeError || exists i :: 0 <= i < |calls| && client(calls[i]) == Err(o.reason))
      && (o.Resolves? ==> forall i :: 0 <= i < |calls| ==>
            o.result.data.items[i] == SelfLinkRecord(config, client(calls[i]).value.json).value)
  {
  }
}
