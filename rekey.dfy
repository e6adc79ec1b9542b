/** The identifier renaming helpers shared by every operation, and the
    optional per-resource response transform. A `key` of `None` stands for
    a resource with no entry in the identifier remap table (`reParam ===
    null` in the provider). */
module ReKey {
  import opened JsonValues

  /** `x.id = x[key]; delete x[key]` applied to one record. */
  function Moved(m: Record, key: string): (r: Record)
    ensures key !in r
    ensures key != "id" ==> "id" in r && r["id"] == Get(m, key)
    ensures forall f :: f != "id" && f != key ==> (f in r <==> f in m)
    ensures forall f :: f in r && f != "id" ==> r[f] == m[f]
  {
    m["id" := Get(m, key)] - {key}
  }

  /** `_reKeyPayload`: the outgoing body of `create`/`update`, with the
      record's `id` stored under the backend's key instead. */
  function ReKeyPayload(data: Record, key: Option<string>): (r: Record)
    ensures key.None? ==> r == data
    ensures key.Some? ==> key.value in r && r[key.value] == Get(data, "id")
    ensures key.Some? && key.value != "id" ==> "id" !in r
    ensures key.Some? ==> forall f :: f != "id" && f != key.value ==> (f in r <==> f in data)
    ensures key.Some? ==> forall f :: f in r && f != key.value ==> r[f] == data[f]
  {
    match key
    case None => data
    case Some(k) => (data - {"id"})[k := Get(data, "id")]
  }

  /** Whether `_reKeyFilter` writes the filter's `id` back under the key. */
  predicate ReAddsId(filter: Record, key: Option<string>) {
    key.Some? && Truthy(Get(filter, "id"))
  }

  /** `_reKeyFilter`: a null filter (`None`) stays null; otherwise `id` is
      dropped, whatever the key, and written back under the key only when
      there is a key and the id is truthy. */
  function ReKeyFilter(filter: Option<Record>, key: Option<string>): (r: Option<Record>)
    ensures r.None? <==> filter.None?
    ensures r.Some? && ReAddsId(filter.value, key) ==>
      key.value in r.value && r.value[key.value] == Get(filter.value, "id")
    ensures r.Some? && !(ReAddsId(filter.value, key) && key.value == "id") ==> "id" !in r.value
    ensures r.Some? ==> forall f :: f != "id" && !(ReAddsId(filter.value, key) && f == key.value) ==>
      (f in r.value <==> f in filter.value) && (f in r.value ==> r.value[f] == filter.value[f])
  {
    match filter
    case None => None
    case Some(f) =>
      var rest := f - {"id"};
      if ReAddsId(f, key) then Some(rest[key.value := Get(f, "id")]) else Some(rest)
  }

  /** The renaming of one element of an array response. The assignment
      throws on null and undefined (property read) and on other primitives
      (property write in strict-mode code). */
  function ReKeyElement(x: Json, key: string): Result<Json> {
    match x
    case JObj(m) => Ok(JObj(Moved(m, key)))
    case _ => Err(ElementError(x))
  }

  /** The error the renaming of a non-object element throws. */
  function ElementError(x: Json): Failure {
    if x.JArr? then Unsupported else TypeError
  }

  /** `xs[n]` is the first element of `xs` that is not an object. */
  ghost predicate FirstNonObject(xs: seq<Json>, n: int) {
    0 <= n < |xs| && !xs[n].JObj? && forall j :: 0 <= j < n ==> xs[j].JObj?
  }

  /** `json.map(x => { x.id = x[key]; delete x[key]; return x; })` */
  function ReKeyAll(xs: seq<Json>, key: string): (r: Result<seq<Json>>)
    ensures r.Ok? <==> forall i :: 0 <= i < |xs| ==> xs[i].JObj?
    ensures r.Ok? ==> |r.value| == |xs|
    ensures r.Ok? ==> forall i :: 0 <= i < |xs| ==> r.value[i] == JObj(Moved(xs[i].fields, key))
    ensures r.Err? ==> exists n :: FirstNonObject(xs, n) && r.error == ElementError(xs[n])
  {
    if xs == [] then Ok([])
    else
      match ReKeyElement(xs[0], key)
      case Err(e) => Err(e)
      case Ok(y) =>
        match ReKeyAll(xs[1..], key)
        case Err(e) => Err(e)
        case Ok(ys) => Ok([y] + ys)
  }

  /** `_reKeyResponse`. A single record whose key field is exactly null
      takes the logged "unhandled scenario" branch, which yields undefined. */
  function ReKeyResponse(json: Json, key: Option<string>): (r: Result<Json>)
    ensures key.None? ==> r == Ok(json)
    ensures key.Some? && json.JArr? ==>
      (r.Ok? <==> forall i :: 0 <= i < |json.items| ==> json.items[i].JObj?) &&
      (r.Ok? ==> r.value.JArr? && |r.value.items| == |json.items|)
    ensures key.Some? && json.JArr? && r.Ok? ==>
      forall i :: 0 <= i < |json.items| ==> r.value.items[i] == JObj(Moved(json.items[i].fields, key.value))
    ensures key.Some? && json.JObj? && Get(json.fields, key.value) != JNull ==>
      r == Ok(JObj(Moved(json.fields, key.value)))
    ensures key.Some? && json.JObj? && Get(json.fields, key.value) == JNull ==> r == Ok(JUndefined)
    ensures key.Some? && json.JArr? && r.Err? ==>
      exists n :: FirstNonObject(json.items, n) && r.error == ElementError(json.items[n])
    ensures key.Some? && !json.JArr? && !json.JObj? ==> r == Err(TypeError)
  {
    match key
    case None => Ok(json)
    case Some(k) =>
      match json
      case JArr(xs) =>
        (match ReKeyAll(xs, k)
         case Ok(ys) => Ok(JArr(ys))
         case Err(e) => Err(e))
      case JObj(m) =>
        if Get(m, k) != JNull then Ok(JObj(Moved(m, k))) else Ok(JUndefined)
      case _ => Err(TypeError)
  }

  /** `_xFormResponse`: no transform, or a null value, passes through;
      an array is transformed element by element; anything else once. */
  function XFormResponse(json: Json, xform: Option<Json -> Json>): (r: Json)
    ensures xform.None? || json == JNull ==> r == json
    ensures xform.Some? && json.JArr? ==>
      r.JArr? && |r.items| == |json.items| &&
      forall i :: 0 <= i < |json.items| ==> r.items[i] == xform.value(json.items[i])
    ensures xform.Some? && json != JNull && !json.JArr? ==> r == xform.value(json)
  {
    match xform
    case None => json
    case Some(f) =>
      if json == JNull then json
      else if json.JArr? then JArr(seq(|json.items|, i requires 0 <= i < |json.items| => f(json.items[i])))
      else f(json)
  }

  /** An identity transform changes nothing, arrays included. */
  lemma XFormIdentity(json: Json)
    ensures XFormResponse(json, Some(x => x)) == json
  {
  }

  /** Round trip on a record sent and read back: renaming the outgoing
      payload and then the response restores the record, provided its id is
      not null and it has no field of the key's name already. */
  lemma PayloadThenResponse(rec: Record, key: string)
    requires key != "id" && "id" in rec && key !in rec && rec["id"] != JNull
    ensures ReKeyResponse(JObj(ReKeyPayload(rec, Some(key))), Some(key)) == Ok(JObj(rec))
  {
    var p := ReKeyPayload(rec, Some(key));
    assert Get(p, key) == rec["id"];
    var back := Moved(p, key);
    assert back.Keys == rec.Keys;
    assert back == rec;
  }

  /** The other direction: a backend record renamed on the way in and then
      renamed on the way out is the backend record again. */
  lemma ResponseThenPayload(m: Record, key: string)
    requires key != "id" && key in m && "id" !in m && m[key] != JNull
    ensures ReKeyResponse(JObj(m), Some(key)).Ok?
    ensures ReKeyResponse(JObj(m), Some(key)).value.JObj?
    ensures ReKeyPayload(ReKeyResponse(JObj(m), Some(key)).value.fields, Some(key)) == m
  {
  }

  /** Arrays are renamed without the null check: a list of records sent
      and read back is restored even where an id is null. */
  lemma PayloadsThenResponse(recs: seq<Record>, key: string)
    requires key != "id"
    requires forall i :: 0 <= i < |recs| ==> "id" in recs[i] && key !in recs[i]
    ensures ReKeyResponse(JArr(seq(|recs|, i requires 0 <= i < |recs| => JObj(ReKeyPayload(recs[i], Some(key))))), Some(key))
      == Ok(JArr(seq(|recs|, i requires 0 <= i < |recs| => JObj(recs[i]))))
  {
    var sent := seq(|recs|, i requires 0 <= i < |recs| => JObj(ReKeyPayload(recs[i], Some(key))));
    assert forall i :: 0 <= i < |sent| ==> sent[i].JObj?;
    var r := ReKeyResponse(JArr(sent), Some(key));
    assert r.Ok? && |r.value.items| == |recs|;
    forall i | 0 <= i < |recs| ensures r.value.items[i] == JObj(recs[i]) {
      var back := Moved(sent[i].fields, key);
      assert back.Keys == recs[i].Keys;
      assert back == recs[i];
    }
    assert r.value.items == seq(|recs|, i requires 0 <= i < |recs| => JObj(recs[i]));
  }

  /** The single-record branch differs: a record whose id is null is sent
      as `key: null` and comes back as undefined, not as a record. */
  lemma NullIdSingleRecordLost(rec: Record, key: string)
    requires key != "id" && "id" in rec && rec["id"] == JNull
    ensures ReKeyResponse(JObj(ReKeyPayload(rec, Some(key))), Some(key)) == Ok(JUndefined)
  {
  }
}
