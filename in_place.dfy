/** `_reKeyResponse` as the provider runs it: the parsed response holds
    mutable objects, and the renaming rewrites them in place and hands the
    same objects back. Proved to agree with the value-level specification
    `ReKey.ReKeyResponse`. */
module InPlace {
  import opened JsonValues
  import opened ReKey

  /** A parsed JSON object: a property bag updated in place. Its property
      values are plain JSON values. */
  class JsObject {
    var fields: map<string, Json>

    constructor (fields: map<string, Json>)
      ensures this.fields == fields
    {
      this.fields := fields;
    }

    /** `x.id = x[key]; delete x[key]` */
    method MoveKeyToId(key: string)
      modifies this
      ensures fields == Moved(old(fields), key)
    {
      fields := fields["id" := Get(fields, key)];
      fields := fields - {key};
    }
  }

  /** A top-level element of a response: one of its objects, or any other
      value (held by value; never an object). */
  datatype Item = Obj(obj: JsObject) | Plain(value: Json)

  /** A parsed response body: one element, or an array of them. */
  datatype Body = Single(item: Item) | Array(items: seq<Item>)

  /** Objects are held as `Obj`, a top-level array as `Array`, and the
      parser never shares an object between two array slots. */
  ghost predicate WellFormed(b: Body) {
    match b
    case Single(it) => it.Plain? ==> !it.value.JObj? && !it.value.JArr?
    case Array(its) =>
      (forall i :: 0 <= i < |its| && its[i].Plain? ==> !its[i].value.JObj?) &&
      (forall i, j :: 0 <= i < j < |its| && its[i].Obj? && its[j].Obj? ==> its[i].obj != its[j].obj)
  }

  function ObjectsOf(its: seq<Item>): set<JsObject> {
    set i | 0 <= i < |its| && its[i].Obj? :: its[i].obj
  }

  function Objects(b: Body): set<JsObject> {
    match b
    case Single(it) => if it.Obj? then {it.obj} else {}
    case Array(its) => ObjectsOf(its)
  }

  /** The JSON value an element currently denotes. */
  function ItemValue(it: Item): Json
    reads if it.Obj? then {it.obj} else {}
  {
    match it
    case Obj(o) => JObj(o.fields)
    case Plain(v) => v
  }

  function ItemsValue(its: seq<Item>): (r: seq<Json>)
    reads ObjectsOf(its)
    ensures |r| == |its| && forall i :: 0 <= i < |its| ==> r[i] == ItemValue(its[i])
  {
    seq(|its|, i reads ObjectsOf(its) requires 0 <= i < |its| => ItemValue(its[i]))
  }

  /** The JSON value a body currently denotes. */
  function Value(b: Body): Json
    reads Objects(b)
  {
    match b
    case Single(it) => ItemValue(it)
    case Array(its) => JArr(ItemsValue(its))
  }

  /** `_reKeyResponse(json, key)` on the parsed objects themselves. On
      success the result holds the caller's own objects, now renamed, or
      undefined in the unhandled-scenario branch. An array that holds a
      non-object fails at its first one, after the objects before it have
      already been rewritten. */
  method ReKeyResponseInPlace(body: Body, key: Option<string>) returns (r: Result<Body>)
    requires WellFormed(body)
    modifies Objects(body)
    ensures r.Ok? <==> ReKeyResponse(old(Value(body)), key).Ok?
    ensures r.Err? ==> ReKeyResponse(old(Value(body)), key) == Err(r.error)
    ensures r.Ok? ==> r.value == body || r.value == Single(Plain(JUndefined))
    ensures r.Ok? ==> Value(r.value) == ReKeyResponse(old(Value(body)), key).value
    ensures body.Single? && (r.Err? || r.value != body) ==> unchanged(Objects(body))
    ensures r.Err? && body.Array? ==>
      exists n :: 0 <= n < |body.items| && body.items[n].Plain? &&
        r.error == ElementError(body.items[n].value) &&
        (forall j :: 0 <= j < n ==>
          body.items[j].Obj? && body.items[j].obj.fields == Moved(old(body.items[j].obj.fields), key.value)) &&
        (forall j :: n < j < |body.items| && body.items[j].Obj? ==>
          body.items[j].obj.fields == old(body.items[j].obj.fields))
  {
    ghost var before := Value(body);
    if key.None? {
      return Ok(body);
    }
    var k := key.value;
    match body
    case Single(it) =>
      match it {
        case Plain(v) =>
          r := Err(TypeError);
        case Obj(o) =>
          if Get(o.fields, k) != JNull {
            o.MoveKeyToId(k);
            r := Ok(body);
          } else {
            r := Ok(Single(Plain(JUndefined)));
          }
      }
    case Array(its) =>
      var i := 0;
      while i < |its|
        invariant 0 <= i <= |its|
        invariant forall j :: 0 <= j < i ==> its[j].Obj?
        invariant forall j :: 0 <= j < i ==> its[j].obj.fields == Moved(old(its[j].obj.fields), k)
        invariant forall j :: i <= j < |its| && its[j].Obj? ==> its[j].obj.fields == old(its[j].obj.fields)
      {
        match its[i] {
          case Plain(v) =>
            assert before.items[i] == v;
            return Err(ElementError(v));
          case Obj(o) =>
            o.MoveKeyToId(k);
        }
        i := i + 1;
      }
      r := Ok(body);
      assert before.items == old(ItemsValue(its));
      assert ItemsValue(its) == ReKeyResponse(before, key).value.items;
  }
}
