# ra-data-rest in Dafny

This project models the data provider in `src/index.ts` of ra-data-rest. The provider
maps the nine CRUD operations of a react-admin data provider onto a simple REST dialect:

- the list window is sent as a `range=[start,end]` query parameter, together with a
  `Range: resource=start-end` request header;
- the total count is read back from a response header, `Content-Range` by default;
- per-resource tables let a backend use another primary-key field than `id`, and let a
  transform be applied to every record the provider returns.

The model has six modules:

- `JsonValues`: the JSON values a response parses into, including JavaScript's
  `undefined` as distinct from `null`. It also holds property reads (which throw on null
  and undefined), truthiness, and the `Result` type an operation settles with.
- `Decimal`: the leading-digits reading of `Number.parseInt`, and the decimal rendering
  of the range bounds.
- `Pagination`: the page window arithmetic, the `Range` request header, and the total
  read from a `Content-Range` value. That total is the complete-length field of section
  14.4 of RFC 9110, with the resource name in the place of the range unit.
- `ReKey`: the helpers `_reKeyPayload`, `_reKeyFilter`, `_reKeyResponse` and
  `_xFormResponse`, as functions on values.
- `InPlace`: `_reKeyResponse` as the code runs it. Parsed objects are mutable (`class
  JsObject`), and the renaming rewrites them in place and returns the same objects. The
  method is proved to agree with the value-level `ReKey.ReKeyResponse`.
- `RestProvider`: the provider configuration, and each operation as the request it sends
  and the handling of the response it gets back. `getList`, `getMany` and
  `getManyReference` build their requests by assignment, so they are methods; the rest
  are functions. The HTTP client is a function parameter where an operation sends more
  than one request (`updateMany`, `deleteMany`).

Where the code and its accompanying description or tests disagree, the model follows the
code:

- `delete` and `deleteMany` send only the method, with no `Content-Type: text/plain`
  header (src/index.ts:293-295, 310-312). The test file expects that header
  (src/index.spec.ts:99-101).
- `_reKeyFilter` drops `id` even when the resource has no remap. It re-adds the id under
  the key only when the id is truthy, so an id of `0` or `""` is lost.
- A single record whose key field is exactly `null` makes `_reKeyResponse` yield
  `undefined`. This is not an error, and the transform is then applied to `undefined`.
- A null JSON value with a non-null key throws a `TypeError` (the read of `json[key]`).
  Writing `id` onto any other primitive throws a `TypeError` too, because module code
  runs in strict mode.

## Model

| member | source | states |
|---|---|---|
| `ReKey.Moved` | src/index.ts:55-59 | `x.id = x[key]; delete x[key]`: the key field is gone; `id` holds the old key value (undefined if absent) unless the key is `id` itself; every other field is unchanged |
| `ReKey.ReKeyPayload` | src/index.ts:84-93 | no key: the input unchanged; otherwise the key holds the input's `id`, `id` is gone (unless the key is `id`), and every other field is unchanged |
| `ReKey.ReKeyFilter` | src/index.ts:94-104 | null stays null; `id` is always removed, even with no key, and is absent from the result unless it is re-added under the key `id` itself; it is re-added under the key only if there is a key and the id is truthy; all other entries pass through |
| `ReKey.ReKeyAll` | src/index.ts:54-60 | the array branch succeeds iff every element is an object; then it keeps length and order, and element i becomes element i with its key moved to `id` (no null check); otherwise it fails with the error of the first non-object element |
| `ReKey.ReKeyResponse` | src/index.ts:49-68 | no key: identity; array: element-wise renaming, or the error of the first non-object element; a record whose key field is not null: renamed; key field exactly null: undefined; null, undefined or another primitive: TypeError |
| `ReKey.XFormResponse` | src/index.ts:70-82 | no transform or a null value: unchanged; array: the transform on every element, same length and order; otherwise the transform applied once |
| `ReKey.XFormIdentity` | src/index.ts:70-82 | an identity transform leaves every value unchanged, arrays included |
| `ReKey.PayloadThenResponse` | src/index.ts:49-93 | round trip: for key ≠ `id`, a record with a non-null id and no key field is restored after the outgoing and then the incoming renaming |
| `ReKey.ResponseThenPayload` | src/index.ts:49-93 | the converse round trip: a backend record with a non-null key field and no `id` is restored after the incoming and then the outgoing renaming |
| `ReKey.PayloadsThenResponse` | src/index.ts:49-93 | round trip for a list of records; arrays skip the null check, so it holds even for null ids |
| `ReKey.NullIdSingleRecordLost` | src/index.ts:62-67 | a single record sent with a null id comes back as undefined, not as the record |
| `InPlace.JsObject.MoveKeyToId` | src/index.ts:63-64 | the object's own fields become `Moved(old fields, key)` |
| `InPlace.ReKeyResponseInPlace` | src/index.ts:49-68 | mutates the caller's objects and succeeds iff the value-level renaming does; returns a body holding the caller's own objects (or undefined), whose value equals that renaming; on failure it gives the same error as that renaming, names the first non-object element and its error, and the objects before the first non-object are already renamed and the rest untouched |
| `Decimal.LeadingDigits` | src/index.ts:158-159 | the longest all-digit prefix: the next character, if any, is not a digit |
| `Decimal.ParseIntPrefix` | src/index.ts:158-159 | `parseInt` yields NaN (`None`) exactly when the text does not start with a digit |
| `Decimal.NatText` | src/index.ts:140 | the rendering of n is non-empty, all digits, and denotes n |
| `Decimal.LeadingDigitsOfConcat` | src/index.ts:158 | reading digits stops at the first non-digit |
| `Decimal.ParseNatText` | src/index.ts:158-159 | round trip: parsing a rendered number followed by a non-digit gives the number |
| `Pagination.WindowSize` | src/index.ts:126-127 | a page window holds exactly perPage indices |
| `Pagination.NextPageFollows` | src/index.ts:126-127 | page p+1 starts right after page p ends |
| `Pagination.FirstPage` | src/index.ts:126-127 | page 1 is the window [0, perPage-1] |
| `Pagination.PageOfIndex` | src/index.ts:126-127 | for page ≥ 1 and perPage ≥ 1, index i lies in page p's window iff p = i / perPage + 1, so the pages partition the indices |
| `Pagination.AfterLastSlash` | src/index.ts:158 | `split('/').pop()`: a slash-free suffix that is preceded by `/` or is the whole string |
| `Pagination.AfterLastSlashOf` | src/index.ts:158 | the text after the last slash of `prefix/tail` is `tail` when `tail` has no slash |
| `Pagination.ContentRangeRoundTrip` | src/index.ts:156-158 | the total a server writes in `unit first-last/total` is the total read |
| `Pagination.UnknownLength` | src/index.ts:158 | an unknown complete length `*` reads as NaN |
| `RestProvider.SortFor` | src/index.ts:119-124 | the order is kept; the field becomes the key iff it is exactly `id` and a key exists, and is otherwise unchanged |
| `RestProvider.PagedRequest` | src/index.ts:126-143 | a GET carrying the sort, the range [(page-1)·perPage, page·perPage-1] and the filter; the `Range: resource=start-end` header is sent only for the default count header |
| `RestProvider.ListRequest` | src/index.ts:115-143 | `getList`'s request: the paged request whose filter is `_reKeyFilter(filter, key)` |
| `RestProvider.ReferenceFilter` | src/index.ts:211-214 | the renamed filter plus `target ↦ id`, written last so it overrides; a null filter contributes nothing |
| `RestProvider.ReferenceRequest` | src/index.ts:195-225 | `getManyReference`'s request: the paged request whose filter is the reference filter |
| `RestProvider.ManyRequest` | src/index.ts:178-186 | `getMany`: a GET of the resource's collection at the provider's URL, with no id, header or body; its filter has exactly one entry, `(key ?? "id") ↦ ids` |
| `RestProvider.OneRequest` | src/index.ts:168 | `getOne`: a GET of the record's path under the provider's URL and the resource, with no query, no header and no body |
| `RestProvider.UpdateRequest` | src/index.ts:249-253 | a PUT to the record's path under the provider's URL and the resource; the body is exactly `_reKeyPayload(data, key)`, so with a key it holds the record's id under the key, and without one it is the data itself |
| `RestProvider.CreateRequest` | src/index.ts:280-284 | a POST to the resource's collection at the provider's URL; the body is exactly `_reKeyPayload(data, key)` |
| `RestProvider.DeleteRequest` | src/index.ts:293-295 | a DELETE of the record's path under the provider's URL and the resource, with no body and no header |
| `RestProvider.UpdateManyRequests` | src/index.ts:266-273 | exactly one update request per id, in `ids` order |
| `RestProvider.DeleteManyRequests` | src/index.ts:308-313 | exactly one delete request per id, in `ids` order |
| `RestProvider.ReadResult` | src/index.ts:152-155 | `data` is the transform applied after the renaming; it fails iff the renaming does, and then with the renaming's error; with no remap and no transform it is the response unchanged |
| `RestProvider.MissingHeaderMessage` | src/index.ts:146-150 | the error message names the missing header |
| `RestProvider.ListResult` | src/index.ts:145-161 | a missing count header fails with that header's error; otherwise it fails iff the renaming does, and the data is `ReadResult` and the total is `CountTotal` |
| `RestProvider.CreateResult` | src/index.ts:285-287 | the submitted (un-renamed) data with only `id` set to the response's `(key ?? "id")` field; it fails iff the response JSON is null or undefined |
| `RestProvider.IdsResult` | src/index.ts:274 | succeeds iff every response's id field can be read; then it has the same length, and entry i is response i's `(key ?? "id")` field |
| `RestProvider.Dispatch` | src/index.ts:266-274 | all responses, in request order, iff every request succeeds; otherwise the failure of the first request that fails |
| `RestProvider.UpdateMany` | src/index.ts:262-275 | on success `data` has one entry per id, and entry i is the id field of the response to the PUT for `ids[i]`; it succeeds whenever every request and every read does |
| `RestProvider.DeleteMany` | src/index.ts:304-315 | the same for one DELETE per id |
| `RestProvider.DefaultsPassThrough` | src/index.ts:106-111 | a provider given only its URL (no remaps, no transforms, `Content-Range`) sends the `Range` header and reads every response unchanged |
| `RestProvider.FirstPageOfTen` | src/index.ts:126-143 | page 1 of 10 `posts` requests `range=[0,9]` with `Range: posts=0-9` |
| `RestProvider.CustomHeaderSendsNoRange` | src/index.ts:135-143 | with a custom count header no `Range` header is sent |
| `RestProvider.NoRemapPassesThrough` | src/index.ts:49-52 | without a remap or transform, records pass through unchanged both ways |
| `RestProvider.RemappedRecordReadsWithId` | src/index.ts:62-65 | with key `key`, `{key: 7, name: "x"}` reads as `{id: 7, name: "x"}` |
| `RestProvider.LowerDefaultCountHeader` | src/index.ts:158 | the default header is looked up as `content-range` |
| `RestProvider.DefaultHeaderTotal` | src/index.ts:156-158 | with the default header, the total is the complete length the server wrote |
| `RestProvider.CustomHeaderTotal` | src/index.ts:159 | with a custom header, the total is the number its value holds, looked up under the lower-cased name |
| `RestProvider.MissingHeaderFails` | src/index.ts:146-150 | a list response without the count header always fails, with an error naming the header |
| `RestProvider.CreateEchoRoundTrip` | src/index.ts:277-287 | if the server echoes the renamed payload, `create` returns the submitted record unchanged |

## Left out

- The HTTP client, promises and the fetch `Headers` object are not modelled. A request is
  a structured value and a response is a header map (names in lower case) plus a JSON
  value. Repeated headers, which `Headers.get` joins with commas, are not modelled.
- URL text and encoding are not modelled. `queryString.stringify` and `JSON.stringify` are
  foreign library calls, so the URL is kept as its parts and the query as a structured
  value. `JSON.stringify` dropping `undefined` fields from a body is not modelled either.
- `Promise.all` concurrency is modelled sequentially. On failure the model reports the
  failure of the first failing request in `ids` order; the code reports whichever rejects
  first in time. Sibling requests are not cancelled, and that is not modelled either.
- The model reads only the leading decimal digits of a number. Leading whitespace,
  signs, fractions, and the hexadecimal `0x` prefix that the radix-less `parseInt` on a
  custom header accepts are all left out. Numbers are integers: there are no floats, no
  NaN ids and no `-0`.
- Transforms are pure total functions of a JSON value. A transform that throws, or that
  mutates its argument, is not modelled.
- Reads of built-in properties of primitives and arrays (such as `length`, or string
  indices) yield undefined in the model.
- An array element that is itself an array would get an `id` property in JavaScript. The
  model cannot represent that and reports `Unsupported` instead.
- `resource in keysByResource` also finds names inherited from the prototype (such as
  `constructor`). The model's table lookup does not.
- The `console.error` call of the unhandled-scenario branch is left out. So are the
  exposed `keysByResource` and `xFormBy` fields of the provider object.
- `ReKey.XFormResponse`: `json.map(xFormFn)` (src/index.ts:79) calls the transform with the
  element, its index and the whole array, while the single-record branch (line 81) passes
  the value alone. A transform is a function of one JSON value here, so one that reads
  the index or the array is not modelled.
- `RestProvider.TransformOf`: `responseTransformsByResource[resource]` (src/index.ts:154)
  has no `in` test, so a resource named after an inherited property (`constructor`,
  `toString`) finds a built-in function, which the truthiness test at line 71 accepts as a
  transform. The model's table lookup finds only the entries the caller gave.
