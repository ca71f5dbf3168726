/**
 * Values that travel through the toy catalogue server: the JSON values of
 * request bodies and stored toy records, and the store's record identifiers.
 */
module Values {

  datatype Option<+T> = None | Some(value: T)

  datatype Result<+T, +E> = Success(value: T) | Failure(error: E)

  /** A store-assigned record identifier (a BSON ObjectId); its bytes are opaque to the server. */
  datatype ObjectId = ObjectId(bytes: seq<bv8>)

  /** A JSON value as parsed from a request body, or a BSON value of a stored record. */
  datatype Value =
    | Null
    | Bool(b: bool)
    | Num(n: real)
    | Str(s: string)
    | Arr(items: seq<Value>)
    | Obj(fields: map<string, Value>)
    | Id(oid: ObjectId)

  /** A toy record, or a request body: field name to value. */
  type Document = map<string, Value>

  /** The value of `doc.key` in JavaScript: undefined (None) when the key is absent. */
  function Lookup(doc: Document, key: string): (r: Option<Value>)
    ensures r.Some? <==> key in doc
    ensures r.Some? ==> r.value == doc[key]
  {
    if key in doc then Some(doc[key]) else None
  }

  /** JavaScript truthiness of a query-string parameter: undefined and "" are falsy. */
  predicate Truthy(param: Option<string>)
  {
    param.Some? && param.value != ""
  }
}
