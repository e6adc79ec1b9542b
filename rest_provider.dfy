/** The data provider: each CRUD operation as the request it sends and the
    handling of the response it gets back. The HTTP client is not modelled:
    a request is a structured value, a response is a header map and a JSON
    value, and where an operation sends several requests the client is a
    function parameter. */
module RestProvider {
  import opened JsonValues
  import opened Decimal
  import opened Pagination
  import opened ReKey

  const DefaultCountHeader := "Content-Range"

  /** The configuration fixed when the provider is built. */
  datatype Provider = Provider(
    apiUrl: string,
    keysByResource: map<string, string>,
    transformsByResource: map<string, Json -> Json>,
    countHeader: string)

  /** The provider built with every optional argument left out. */
  function WithDefaults(apiUrl: string): Provider {
    Provider(apiUrl, map[], map[], DefaultCountHeader)
  }

  /** `reParam`: the backend key of a resource, if it is remapped. */
  function KeyOf(p: Provider, resource: string): Option<string> {
    if resource in p.keysByResource then Some(p.keysByResource[resource]) else None
  }

  /** `responseTransformsByResource[resource]` */
  function TransformOf(p: Provider, resource: string): Option<Json -> Json> {
    if resource in p.transformsByResource then Some(p.transformsByResource[resource]) else None
  }

  /** `reParam ?? 'id'` */
  function IdKey(p: Provider, resource: string): string {
    KeyOf(p, resource).GetOr("id")
  }

  datatype Sort = Sort(field: string, order: string)

  /** The query string before JSON and URL encoding. */
  datatype Query =
    | ListQuery(sort: Sort, range: (int, int), filter: Json)
    | FilterQuery(filter: Json)

  datatype HttpMethod = GET | PUT | POST | DELETE

  /** `httpClient(url, options)`: the URL is `apiUrl/resource[/id][?query]`. */
  datatype Request = Request(
    verb: HttpMethod,
    apiUrl: string,
    resource: string,
    id: Option<Json>,
    query: Option<Query>,
    headers: map<string, string>,
    body: Option<Json>)

  /** What the client resolves with. Header names are held in lower case,
      as the fetch `Headers` object normalises them. */
  datatype Response = Response(headers: map<string, string>, json: Json)

  datatype ListParams = ListParams(page: int, perPage: int, sort: Sort, filter: Option<Record>)

  /** `{ data, total }`; a total of `None` is NaN. */
  datatype ListPage = ListPage(data: Json, total: Option<nat>)

  /** `JSON.stringify` receives null for a null filter. */
  function FilterJson(filter: Option<Record>): Json {
    match filter
    case None => JNull
    case Some(m) => JObj(m)
  }

  // ---------------------------------------------------------------- requests

  /** `let { field, order } = params.sort; if (reParam != null && field === 'id') field = reParam;` */
  method SortFor(key: Option<string>, sort: Sort) returns (s: Sort)
    ensures s.order == sort.order
    ensures key.Some? && sort.field == "id" ==> s.field == key.value
    ensures s.field != sort.field ==> sort.field == "id" && key == Some(s.field)
  {
    var field := sort.field;
    if key.Some? && field == "id" {
      field := key.value;
    }
    s := Sort(field, sort.order);
  }

  /** The `Range` request header, sent only with the default count header. */
  function RangeHeaders(p: Provider, resource: string, page: int, perPage: int): map<string, string> {
    if p.countHeader == DefaultCountHeader then
      map["Range" := RangeHeaderValue(resource, RangeStart(page, perPage), RangeEnd(page, perPage))]
    else map[]
  }

  /** The request `getList` and `getManyReference` send, given its filter. */
  ghost predicate IsPagedRequest(req: Request, p: Provider, resource: string, params: ListParams, filter: Json) {
    var key := KeyOf(p, resource);
    && req.verb == GET && req.apiUrl == p.apiUrl && req.resource == resource
    && req.id.None? && req.body.None?
    && req.query.Some? && req.query.value.ListQuery?
    && req.query.value.range == (RangeStart(params.page, params.perPage), RangeEnd(params.page, params.perPage))
    && req.query.value.filter == filter
    && req.query.value.sort.order == params.sort.order
    && req.query.value.sort.field == (if key.Some? && params.sort.field == "id" then key.value else params.sort.field)
    && req.headers == RangeHeaders(p, resource, params.page, params.perPage)
  }

  method PagedRequest(p: Provider, resource: string, params: ListParams, filter: Json) returns (req: Request)
    ensures IsPagedRequest(req, p, resource, params, filter)
  {
    var sort := SortFor(KeyOf(p, resource), params.sort);
    var rangeStart := RangeStart(params.page, params.perPage);
    var rangeEnd := RangeEnd(params.page, params.perPage);
    var query := ListQuery(sort, (rangeStart, rangeEnd), filter);
    var headers := RangeHeaders(p, resource, params.page, params.perPage);
    req := Request(GET, p.apiUrl, resource, None, Some(query), headers, None);
  }

  /** `getList`: the filter with its `id` renamed, the sort field renamed,
      the page window as a range. */
  method ListRequest(p: Provider, resource: string, params: ListParams) returns (req: Request)
    ensures IsPagedRequest(req, p, resource, params, FilterJson(ReKeyFilter(params.filter, KeyOf(p, resource))))
  {
    var reFilter := ReKeyFilter(params.filter, KeyOf(p, resource));
    req := PagedRequest(p, resource, params, FilterJson(reFilter));
  }

  /** `{ ...reFilter, [target]: id }`: the renamed filter with the reference
      written last, so that it wins over a same-named entry. */
  function ReferenceFilter(filter: Option<Record>, key: Option<string>, target: string, id: Json): (r: Record)
    ensures target in r && r[target] == id
    ensures forall f :: f != target ==> (f in r <==> filter.Some? && f in ReKeyFilter(filter, key).value)
    ensures forall f :: f in r && f != target ==> r[f] == ReKeyFilter(filter, key).value[f]
  {
    var base := match ReKeyFilter(filter, key) case None => map[] case Some(m) => m;
    base[target := id]
  }

  /** `getManyReference`: as `getList`, with the reference added to the
      filter after the renaming. */
  method ReferenceRequest(p: Provider, resource: string, target: string, id: Json, params: ListParams)
    returns (req: Request)
    ensures IsPagedRequest(req, p, resource, params, JObj(ReferenceFilter(params.filter, KeyOf(p, resource), target, id)))
  {
    var filter := ReferenceFilter(params.filter, KeyOf(p, resource), target, id);
    req := PagedRequest(p, resource, params, JObj(filter));
  }

  /** `getMany`: a filter with one entry, the id key mapped to the ids. */
  method ManyRequest(p: Provider, resource: string, ids: seq<Json>) returns (req: Request)
    ensures req.verb == GET && req.apiUrl == p.apiUrl && req.resource == resource
    ensures req.id.None? && req.headers == map[] && req.body.None?
    ensures req.query.Some? && req.query.value.FilterQuery? && req.query.value.filter.JObj?
    ensures req.query.value.filter.fields.Keys == {IdKey(p, resource)}
    ensures req.query.value.filter.fields[IdKey(p, resource)] == JArr(ids)
  {
    var q: Record := map[];
    q := q[IdKey(p, resource) := JArr(ids)];
    req := Request(GET, p.apiUrl, resource, None, Some(FilterQuery(JObj(q))), map[], None);
  }

  /** `getOne`: a bare GET of the record's own path. */
  function OneRequest(p: Provider, resource: string, id: Json): (req: Request)
    ensures req.verb == GET && req.apiUrl == p.apiUrl && req.resource == resource
    ensures req.id == Some(id) && req.query.None?
    ensures req.headers == map[] && req.body.None?
  {
    Request(GET, p.apiUrl, resource, Some(id), None, map[], None)
  }

  /** `update` (and each request of `updateMany`): a PUT to the record's
      path whose body carries the record's id under the backend key. */
  function UpdateRequest(p: Provider, resource: string, id: Json, data: Record): (req: Request)
    ensures req.verb == PUT && req.id == Some(id) && req.query.None? && req.headers == map[]
    ensures req.apiUrl == p.apiUrl && req.resource == resource
    ensures req.body == Some(JObj(ReKeyPayload(data, KeyOf(p, resource))))
    ensures req.body.Some? && req.body.value.JObj?
    ensures KeyOf(p, resource).Some? ==>
      IdKey(p, resource) in req.body.value.fields && req.body.value.fields[IdKey(p, resource)] == Get(data, "id")
    ensures KeyOf(p, resource).None? ==> req.body.value.fields == data
  {
    Request(PUT, p.apiUrl, resource, Some(id), None, map[], Some(JObj(ReKeyPayload(data, KeyOf(p, resource)))))
  }

  /** `create`: a POST to the collection with the renamed payload. */
  function CreateRequest(p: Provider, resource: string, data: Record): (req: Request)
    ensures req.verb == POST && req.id.None? && req.query.None? && req.headers == map[]
    ensures req.apiUrl == p.apiUrl && req.resource == resource
    ensures req.body == Some(JObj(ReKeyPayload(data, KeyOf(p, resource))))
    ensures req.body.Some? && req.body.value.JObj?
    ensures KeyOf(p, resource).Some? ==>
      IdKey(p, resource) in req.body.value.fields && req.body.value.fields[IdKey(p, resource)] == Get(data, "id")
    ensures KeyOf(p, resource).None? ==> req.body.value.fields == data
  {
    Request(POST, p.apiUrl, resource, None, None, map[], Some(JObj(ReKeyPayload(data, KeyOf(p, resource)))))
  }

  /** `delete` (and each request of `deleteMany`): a DELETE of the record's
      path with no body and no extra header. */
  function DeleteRequest(p: Provider, resource: string, id: Json): (req: Request)
    ensures req.verb == DELETE && req.apiUrl == p.apiUrl && req.resource == resource
    ensures req.id == Some(id) && req.query.None?
    ensures req.headers == map[] && req.body.None?
  {
    Request(DELETE, p.apiUrl, resource, Some(id), None, map[], None)
  }

  /** `ids.map(id => update request)`: one request per id, in order. */
  function UpdateManyRequests(p: Provider, resource: string, ids: seq<Json>, data: Record): (reqs: seq<Request>)
    ensures |reqs| == |ids|
    ensures forall i :: 0 <= i < |ids| ==> reqs[i] == UpdateRequest(p, resource, ids[i], data)
  {
    if ids == [] then [] else [UpdateRequest(p, resource, ids[0], data)] + UpdateManyRequests(p, resource, ids[1..], data)
  }

  /** `ids.map(id => delete request)`: one request per id, in order. */
  function DeleteManyRequests(p: Provider, resource: string, ids: seq<Json>): (reqs: seq<Request>)
    ensures |reqs| == |ids|
    ensures forall i :: 0 <= i < |ids| ==> reqs[i] == DeleteRequest(p, resource, ids[i])
  {
    if ids == [] then [] else [DeleteRequest(p, resource, ids[0])] + DeleteManyRequests(p, resource, ids[1..])
  }

  // --------------------------------------------------------------- responses

  /** `_xFormResponse(_reKeyResponse(json, reParam), transform)`: what
      `getList`, `getOne`, `getMany`, `getManyReference`, `update` and
      `delete` return as `data`. */
  function ReadResult(p: Provider, resource: string, json: Json): (r: Result<Json>)
    ensures KeyOf(p, resource).None? && TransformOf(p, resource).None? ==> r == Ok(json)
    ensures r.Ok? <==> ReKeyResponse(json, KeyOf(p, resource)).Ok?
    ensures r.Err? ==> r == ReKeyResponse(json, KeyOf(p, resource))
    ensures r.Ok? ==> r.value == XFormResponse(ReKeyResponse(json, KeyOf(p, resource)).value, TransformOf(p, resource))
  {
    match ReKeyResponse(json, KeyOf(p, resource))
    case Err(e) => Err(e)
    case Ok(j) => Ok(XFormResponse(j, TransformOf(p, resource)))
  }

  /** `headers.has(name)`: a case-insensitive lookup. */
  predicate HasHeader(headers: map<string, string>, name: string) {
    Lower(name) in headers
  }

  /** The error a list operation throws when its count header is missing. */
  function MissingHeaderMessage(header: string): (m: string)
    ensures |m| > 4 + |header| && m[4..4 + |header|] == header
  {
    var m := "The " + header + MessageMiddle + header + MessageEnd;
    assert m == "The " + header + (MessageMiddle + header + MessageEnd);
    m
  }

  const MessageMiddle := " header is missing in the HTTP Response. The simple REST data provider expects"
    + " responses for lists of resources to contain this header with the total number of results to"
    + " build the pagination. If you are using CORS, did you declare "
  const MessageEnd := " in the Access-Control-Expose-Headers header?"

  /** The total: the complete length of `Content-Range` for the default
      header, the whole value of any other header. The default is matched
      case-sensitively; the header lookup is not. */
  function CountTotal(countHeader: string, headers: map<string, string>): Option<nat>
    requires HasHeader(headers, countHeader)
  {
    if countHeader == DefaultCountHeader then ContentRangeTotal(headers[Lower(countHeader)])
    else ParseIntPrefix(headers[Lower(countHeader)])
  }

  /** The response handling of `getList` and `getManyReference`. */
  function ListResult(p: Provider, resource: string, resp: Response): (r: Result<ListPage>)
    ensures !HasHeader(resp.headers, p.countHeader) ==>
      r == Err(MissingCountHeader(MissingHeaderMessage(p.countHeader)))
    ensures HasHeader(resp.headers, p.countHeader) ==> (r.Ok? <==> ReadResult(p, resource, resp.json).Ok?)
    ensures r.Ok? ==> HasHeader(resp.headers, p.countHeader)
    ensures r.Ok? ==> r.value.data == ReadResult(p, resource, resp.json).value
    ensures r.Ok? ==> r.value.total == CountTotal(p.countHeader, resp.headers)
  {
    if !HasHeader(resp.headers, p.countHeader) then
      Err(MissingCountHeader(MissingHeaderMessage(p.countHeader)))
    else
      match ReadResult(p, resource, resp.json)
      case Err(e) => Err(e)
      case Ok(data) => Ok(ListPage(data, CountTotal(p.countHeader, resp.headers)))
  }

  /** `create`'s result: the submitted data (not renamed) with `id` set to
      the response's id field. */
  function CreateResult(p: Provider, resource: string, data: Record, resp: Response): (r: Result<Record>)
    ensures r.Ok? <==> Prop(resp.json, IdKey(p, resource)).Ok?
    ensures r.Ok? ==> r.value.Keys == data.Keys + {"id"}
    ensures r.Ok? ==> r.value["id"] == Prop(resp.json, IdKey(p, resource)).value
    ensures r.Ok? ==> forall f :: f in data && f != "id" ==> r.value[f] == data[f]
  {
    match Prop(resp.json, IdKey(p, resource))
    case Err(e) => Err(e)
    case Ok(id) => Ok(data["id" := id])
  }

  /** `responses.map(({ json }) => json[idKey])` */
  function IdsResult(responses: seq<Response>, idKey: string): (r: Result<seq<Json>>)
    ensures r.Ok? <==> forall i :: 0 <= i < |responses| ==> Prop(responses[i].json, idKey).Ok?
    ensures r.Ok? ==> |r.value| == |responses|
    ensures r.Ok? ==> forall i :: 0 <= i < |responses| ==> r.value[i] == Prop(responses[i].json, idKey).value
  {
    if responses == [] then Ok([])
    else
      match Prop(responses[0].json, idKey)
      case Err(e) => Err(e)
      case Ok(v) =>
        match IdsResult(responses[1..], idKey)
        case Err(e) => Err(e)
        case Ok(vs) => Ok([v] + vs)
  }

  /** `Promise.all(requests)`, run one after the other: every response in
      request order, or the first failure. */
  function Dispatch(client: Request -> Result<Response>, reqs: seq<Request>): (r: Result<seq<Response>>)
    ensures r.Ok? <==> forall i :: 0 <= i < |reqs| ==> client(reqs[i]).Ok?
    ensures r.Ok? ==> |r.value| == |reqs|
    ensures r.Ok? ==> forall i :: 0 <= i < |reqs| ==> r.value[i] == client(reqs[i]).value
    ensures r.Err? ==> exists i :: 0 <= i < |reqs| && client(reqs[i]) == Err(r.error) && forall j :: 0 <= j < i ==> client(reqs[j]).Ok?
  {
    if reqs == [] then Ok([])
    else
      match client(reqs[0])
      case Err(e) => Err(e)
      case Ok(resp) =>
        match Dispatch(client, reqs[1..])
        case Err(e) =>
          ghost var i :| 0 <= i < |reqs[1..]| && client(reqs[1..][i]) == Err(e) &&
            forall j :: 0 <= j < i ==> client(reqs[1..][j]).Ok?;
          assert client(reqs[i + 1]) == Err(e);
          Err(e)
        case Ok(rest) => Ok([resp] + rest)
  }

  /** `updateMany`: one PUT per id; the id field of each response, in the
      order of `ids`. */
  function UpdateMany(p: Provider, client: Request -> Result<Response>, resource: string, ids: seq<Json>, data: Record)
    : (r: Result<seq<Json>>)
    ensures r.Ok? ==> |r.value| == |ids|
    ensures r.Ok? ==> forall i :: 0 <= i < |ids| ==>
      && client(UpdateRequest(p, resource, ids[i], data)).Ok?
      && Prop(client(UpdateRequest(p, resource, ids[i], data)).value.json, IdKey(p, resource)).Ok?
      && r.value[i] == Prop(client(UpdateRequest(p, resource, ids[i], data)).value.json, IdKey(p, resource)).value
    ensures (forall i :: 0 <= i < |ids| ==>
      && client(UpdateRequest(p, resource, ids[i], data)).Ok?
      && Prop(client(UpdateRequest(p, resource, ids[i], data)).value.json, IdKey(p, resource)).Ok?) ==> r.Ok?
  {
    var reqs := UpdateManyRequests(p, resource, ids, data);
    match Dispatch(client, reqs)
    case Err(e) => Err(e)
    case Ok(responses) => IdsResult(responses, IdKey(p, resource))
  }

  /** `deleteMany`: one DELETE per id; the id field of each response, in
      the order of `ids`. */
  function DeleteMany(p: Provider, client: Request -> Result<Response>, resource: string, ids: seq<Json>)
    : (r: Result<seq<Json>>)
    ensures r.Ok? ==> |r.value| == |ids|
    ensures r.Ok? ==> forall i :: 0 <= i < |ids| ==>
      && client(DeleteRequest(p, resource, ids[i])).Ok?
      && Prop(client(DeleteRequest(p, resource, ids[i])).value.json, IdKey(p, resource)).Ok?
      && r.value[i] == Prop(client(DeleteRequest(p, resource, ids[i])).value.json, IdKey(p, resource)).value
    ensures (forall i :: 0 <= i < |ids| ==>
      && client(DeleteRequest(p, resource, ids[i])).Ok?
      && Prop(client(DeleteRequest(p, resource, ids[i])).value.json, IdKey(p, resource)).Ok?) ==> r.Ok?
  {
    var reqs := DeleteManyRequests(p, resource, ids);
    match Dispatch(client, reqs)
    case Err(e) => Err(e)
    case Ok(responses) => IdsResult(responses, IdKey(p, resource))
  }

  // ------------------------------------------------------------------ lemmas

  /** The first page of ten `posts` asks for `range=[0,9]` and sends
      `Range: posts=0-9`. */
  lemma FirstPageOfTen(req: Request, p: Provider, sort: Sort, filter: Option<Record>)
    requires p.countHeader == DefaultCountHeader
    requires IsPagedRequest(req, p, "posts", ListParams(1, 10, sort, filter), FilterJson(ReKeyFilter(filter, KeyOf(p, "posts"))))
    ensures req.query.value.range == (0, 9)
    ensures req.headers == map["Range" := "posts=0-9"]
  {
    assert RangeStart(1, 10) == 0 && RangeEnd(1, 10) == 9;
    assert IntText(0) == "0" && IntText(9) == "9";
    assert RangeHeaderValue("posts", 0, 9) == "posts=0-9";
  }

  /** With a custom count header no `Range` header is sent. */
  lemma CustomHeaderSendsNoRange(req: Request, p: Provider, resource: string, params: ListParams, filter: Json)
    requires p.countHeader != DefaultCountHeader
    requires IsPagedRequest(req, p, resource, params, filter)
    ensures "Range" !in req.headers
  {
  }

  /** The provider built with defaults sends the `Range` header and reads
      every resource unchanged. */
  lemma DefaultsPassThrough(apiUrl: string, resource: string, page: int, perPage: int, json: Json)
    ensures "Range" in RangeHeaders(WithDefaults(apiUrl), resource, page, perPage)
    ensures ReadResult(WithDefaults(apiUrl), resource, json) == Ok(json)
  {
  }

  /** A resource without remap or transform passes records through
      untouched, both ways. */
  lemma NoRemapPassesThrough(p: Provider, resource: string, json: Json, data: Record)
    requires resource !in p.keysByResource && resource !in p.transformsByResource
    ensures ReadResult(p, resource, json) == Ok(json)
    ensures UpdateRequest(p, resource, JNum(1), data).body == Some(JObj(data))
  {
  }

  /** A remapped backend record `{key: 7, name: "x"}` reads as
      `{id: 7, name: "x"}`. */
  lemma RemappedRecordReadsWithId(p: Provider, resource: string)
    requires KeyOf(p, resource) == Some("key") && TransformOf(p, resource).None?
    ensures ReadResult(p, resource, JObj(map["key" := JNum(7), "name" := JStr("x")]))
      == Ok(JObj(map["id" := JNum(7), "name" := JStr("x")]))
  {
    var m := map["key" := JNum(7), "name" := JStr("x")];
    assert Moved(m, "key") == map["id" := JNum(7), "name" := JStr("x")];
  }

  /** The total a server announces in `Content-Range` is the total read. */
  lemma DefaultHeaderTotal(headers: map<string, string>, unit: string, first: nat, last: nat, total: nat)
    requires "content-range" in headers && headers["content-range"] == ContentRangeValue(unit, first, last, total)
    ensures HasHeader(headers, DefaultCountHeader)
    ensures CountTotal(DefaultCountHeader, headers) == Some(total)
  {
    LowerDefaultCountHeader();
    ContentRangeRoundTrip(unit, first, last, total);
  }

  lemma LowerDefaultCountHeader()
    ensures Lower(DefaultCountHeader) == "content-range"
  {
  }

  /** A custom header holding a number yields that number, whatever the
      case of its configured name. */
  lemma CustomHeaderTotal(headers: map<string, string>, countHeader: string, total: nat)
    requires countHeader != DefaultCountHeader
    requires Lower(countHeader) in headers && headers[Lower(countHeader)] == NatText(total)
    ensures CountTotal(countHeader, headers) == Some(total)
  {
    ParseNatText(total, []);
    assert NatText(total) + [] == NatText(total);
  }

  /** A list response without its count header always fails, and its
      message names the header. */
  lemma MissingHeaderFails(p: Provider, resource: string, resp: Response)
    requires !HasHeader(resp.headers, p.countHeader)
    ensures ListResult(p, resource, resp).Err?
    ensures ListResult(p, resource, resp).error.MissingCountHeader?
    ensures var m := ListResult(p, resource, resp).error.message;
      m[4..4 + |p.countHeader|] == p.countHeader
  {
  }

  /** If the server echoes the payload it was sent, `create` returns the
      submitted record unchanged. */
  lemma CreateEchoRoundTrip(p: Provider, resource: string, data: Record)
    requires "id" in data
    ensures CreateResult(p, resource, data, Response(map[], JObj(ReKeyPayload(data, KeyOf(p, resource))))) == Ok(data)
  {
    var payload := ReKeyPayload(data, KeyOf(p, resource));
    assert Prop(JObj(payload), IdKey(p, resource)) == Ok(data["id"]);
    var r := CreateResult(p, resource, data, Response(map[], JObj(payload)));
    assert r.value == data["id" := data["id"]];
    assert data["id" := data["id"]] == data;
  }
}
