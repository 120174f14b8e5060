/** JSON values as the handlers see them, with the JavaScript operations they apply to them. */
module JsonValue {
  import opened Wrappers

  /** A JSON value; an absent property is `None` where an `Option<Json>` is expected. */
  datatype Json =
    | JNull
    | JBool(b: bool)
    | JNum(n: real)
    | JStr(s: string)
    | JArr(items: seq<Json>)
    | JObj(fields: map<string, Json>)

  /** A stored document or a request body: a plain object. */
  type Doc = map<string, Json>

  /** `m[k]`, undefined when absent. */
  function Lookup(m: Doc, k: string): Option<Json> {
    if k in m then Some(m[k]) else None
  }

  /** JavaScript truthiness of a possibly absent value. */
  predicate Truthy(v: Option<Json>) {
    v.Some? &&
    match v.value
    case JNull => false
    case JBool(b) => b
    case JNum(n) => n != 0.0
    case JStr(s) => s != ""
    case JArr(_) => true
    case JObj(_) => true
  }

  /** `a !== b`: objects and arrays are never identical to a value parsed separately. */
  predicate StrictlyDiffer(a: Json, b: Json) {
    a.JObj? || a.JArr? || a != b
  }

  /** `req.body.k` (a body that is not an object has no properties). */
  function BodyField(body: Json, k: string): Option<Json> {
    if body.JObj? && k in body.fields then Some(body.fields[k]) else None
  }

  /** `x || y`. */
  function Or(x: Option<Json>, y: Option<Json>): (r: Option<Json>)
    ensures Truthy(x) ==> r == x
    ensures !Truthy(x) ==> r == y
  {
    if Truthy(x) then x else y
  }

  /**
   * Setting `k` to a possibly undefined value. JavaScript keeps the key with
   * the value `undefined`; the model drops the key instead.
   */
  function SetField(d: Doc, k: string, v: Option<Json>): (r: Doc)
    ensures v.Some? ==> k in r && r[k] == v.value
    ensures v.None? ==> k !in r
    ensures forall j :: j != k ==> (j in r <==> j in d) && (j in d ==> r[j] == d[j])
    ensures forall j :: Lookup(r, j) == if j == k then v else Lookup(d, j)
  {
    if v.Some? then d[k := v.value] else d - {k}
  }

  /** `{ id: snap.id, ...snap.data() }`: a stored `id` field shadows the document id. */
  function WithId(id: string, d: Doc): (r: Doc)
    ensures "id" in r
    ensures "id" !in d ==> r["id"] == JStr(id)
    ensures forall k :: k in d ==> k in r && r[k] == d[k]
  {
    map["id" := JStr(id)] + d
  }
}
