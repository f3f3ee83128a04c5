/**
 * `getQueryParamsFromReactAdminParams`: react-admin's `{pagination, sort, filter}`
 * become the flat parameter map the HAL API understands, and then a query string.
 */
module QueryParams {
  import opened Wrappers
  import opened JsValue

  /** The parameters as the builder reads them; a missing section reads as
      `undefined` all the way down. */
  function Page(params: Value): Value { Field(Field(params, "pagination"), "page") }
  function PerPage(params: Value): Value { Field(Field(params, "pagination"), "perPage") }
  function SortField(params: Value): Value { Field(Field(params, "sort"), "field") }
  function SortOrder(params: Value): Value { Field(Field(params, "sort"), "order") }
  function Filter(params: Value): Value { Field(params, "filter") }

  /** The key that carries the sort direction: the field, stringified, then `.dir`. */
  function DirKey(field: Value): string { ToJsString(field) + ".dir" }

  /** The API counts pages from 0: `page ? page - 1 : undefined`. */
  function ApiPage(page: Value): (r: Value)
    ensures page.Num? && page.n != 0 ==> r == Num(page.n - 1)
    ensures !Truthy(page) ==> r == Undefined
    ensures Truthy(page) ==> r != Undefined
  {
    if Truthy(page) then Decrement(page) else Undefined
  }

  /** `x === undefined ? {} : x`, the destructuring default for a section. */
  function OrEmpty(v: Value): Value
  {
    if v.Undefined? then Obj(map[]) else v
  }

  /** The parameter map handed to the encoder: page, size, sort and the
      direction key, with the filter's entries merged over them. */
  function RequestParameters(params: Value): (r: Result<map<string, Value>, Error>)
    ensures r.Err? <==> Nullish(params) || Field(params, "pagination").Null? || Field(params, "sort").Null?
    ensures r.Err? ==> r.error == TypeError
  {
    if Nullish(params) then Err(TypeError)
    else
      var pagination := OrEmpty(Field(params, "pagination"));
      var sorting := OrEmpty(Field(params, "sort"));
      if Nullish(pagination) || Nullish(sorting) then Err(TypeError)
      else
        var field := Field(sorting, "field");
        var computed := map[
          "page" := ApiPage(Field(pagination, "page")),
          "size" := Field(pagination, "perPage"),
          "sort" := field];
        Ok(Assign(computed[DirKey(field) := Field(sorting, "order")], OwnEntries(Field(params, "filter"))))
  }

  /** Whether the builder returns the empty string without looking further. */
  predicate NoParameters(params: Value)
  {
    !Truthy(params) || KeyCount(params) == 0
  }

  /** The query string: empty when there are no parameters, otherwise `?`
      followed by the encoding of the parameter map. */
  function QueryString(encode: map<string, Value> -> string, params: Value): (r: Result<string, Error>)
    ensures NoParameters(params) ==> r == Ok("")
    ensures !NoParameters(params) ==> (r.Ok? <==> RequestParameters(params).Ok?)
    ensures r.Ok? ==> (r.value == "" <==> NoParameters(params))
    ensures r.Ok? && !NoParameters(params) ==> r.value == "?" + encode(RequestParameters(params).value)
    ensures r.Err? ==> r.error == TypeError
  {
    if NoParameters(params) then Ok("")
    else
      match RequestParameters(params)
      case Err(e) => Err(e)
      case Ok(parameters) => Ok("?" + encode(parameters))
  }

  /** The direction key never collides with the three computed keys. */
  lemma DirKeyIsFresh(field: Value)
    ensures DirKey(field) != "page" && DirKey(field) != "size" && DirKey(field) != "sort"
  {
    var s := ToJsString(field);
    if |s| == 0 {
      assert DirKey(field)[0] == '.';
    }
  }

  /** The page is shifted to 0-based when it is truthy and left undefined when
      it is absent or 0, unless a filter entry named `page` replaces it. */
  lemma PageParameter(params: Value)
    requires RequestParameters(params).Ok?
    requires "page" !in OwnEntries(Filter(params))
    ensures "page" in RequestParameters(params).value
    ensures Page(params).Num? && Page(params).n != 0 ==>
      RequestParameters(params).value["page"] == Num(Page(params).n - 1)
    ensures !Truthy(Page(params)) ==> RequestParameters(params).value["page"] == Undefined
  {
    DirKeyIsFresh(SortField(params));
  }

  /** `perPage` travels as `size`, the sort field as `sort`, and the order
      under `<field>.dir`, wherever the filter does not replace them. */
  lemma SizeSortAndDirection(params: Value)
    requires RequestParameters(params).Ok?
    ensures var m := RequestParameters(params).value;
      && ("size" !in OwnEntries(Filter(params)) ==> m["size"] == PerPage(params))
      && ("sort" !in OwnEntries(Filter(params)) ==> m["sort"] == SortField(params))
      && (DirKey(SortField(params)) !in OwnEntries(Filter(params)) ==> m[DirKey(SortField(params))] == SortOrder(params))
  {
    DirKeyIsFresh(SortField(params));
  }

  /** The filter is merged last: each of its entries appears unchanged, also
      over `page`, `size`, `sort` or a `.dir` key; the map holds nothing else
      than the four computed keys and the filter's keys. */
  lemma FilterMergedLast(params: Value)
    requires RequestParameters(params).Ok?
    ensures var m := RequestParameters(params).value;
      var filter := OwnEntries(Filter(params));
      && m.Keys == {"page", "size", "sort", DirKey(SortField(params))} + filter.Keys
      && forall k :: k in filter ==> m[k] == filter[k]
  {
  }

  /** Without a sort section the direction key is literally `undefined.dir`,
      and it is sent even though nothing is sorted. */
  lemma UndefinedDirQuirk(params: Value)
    requires RequestParameters(params).Ok?
    requires SortField(params).Undefined?
    ensures "undefined.dir" in RequestParameters(params).value
  {
    assert DirKey(SortField(params)) == "undefined.dir";
  }

  /** `{pagination: {page: p, perPage: s}}` with p >= 1 gives exactly
      page p - 1 and size s, plus undefined `sort` and `undefined.dir`. */
  lemma PaginationOnly(p: int, s: Value)
    requires p >= 1
    ensures var params := Obj(map["pagination" := Obj(map["page" := Num(p), "perPage" := s])]);
      RequestParameters(params)
        == Ok(map["page" := Num(p - 1), "size" := s, "sort" := Undefined, "undefined.dir" := Undefined])
  {
    var params := Obj(map["pagination" := Obj(map["page" := Num(p), "perPage" := s])]);
    assert DirKey(Undefined) == "undefined.dir";
    var expected := map["page" := Num(p - 1), "size" := s, "sort" := Undefined, "undefined.dir" := Undefined];
    var r := RequestParameters(params);
    assert r.value.Keys == expected.Keys;
    assert r.value == expected;
  }
}
