/**
 * The descriptors the route handlers hand to the MongoDB driver: query
 * documents, sort documents, update documents, and the collection call each
 * handler makes.
 */
module Descriptors {
  import opened Values
  import JsParseInt

  /** The condition a query document places on one field. */
  datatype Cond =
    | Eq(value: Value)       // {field: value}
    | Regex(pattern: string) // {field: {$regex: pattern}}

  /** A query document: field conditions that must all hold, or a `$or` of sub-queries. */
  datatype Filter =
    | Where(conds: map<string, Cond>)
    | AnyOf(branches: seq<Filter>)

  /** A sort document: field name to 1 (ascending) or -1 (descending). */
  type SortSpec = map<string, int>

  /** An update document `{$set: {...}}`; a field whose value is undefined maps to None. */
  datatype Update = Set(fields: map<string, Option<Value>>)

  /** The one collection call a handler makes, with the descriptors it passes. */
  datatype StoreCall =
    | Find(filter: Filter, sort: Option<SortSpec>, limit: Option<JsParseInt.Number>)
    | FindOne(filter: Filter)
    | InsertOne(doc: Document)
    | DeleteOne(filter: Filter)
    | UpdateOne(filter: Filter, update: Update)

  /** The fields a query document places a condition on. */
  function FieldsOf(f: Filter): set<string>
  {
    match f
    case Where(conds) => conds.Keys
    case AnyOf(bs) => set i, k | 0 <= i < |bs| && k in FieldsOf(bs[i]) :: k
  }

  /** The `$regex` patterns a query document uses. */
  function PatternsOf(f: Filter): set<string>
  {
    match f
    case Where(conds) => set k | k in conds && conds[k].Regex? :: conds[k].pattern
    case AnyOf(bs) => set i, p | 0 <= i < |bs| && p in PatternsOf(bs[i]) :: p
  }

  /** A `$or` with a single branch constrains what that branch constrains. */
  lemma SingleBranch(f: Filter)
    ensures FieldsOf(AnyOf([f])) == FieldsOf(f)
    ensures PatternsOf(AnyOf([f])) == PatternsOf(f)
  {
    var g := AnyOf([f]);
    assert g.branches[0] == f;
    assert forall k :: k in FieldsOf(g) <==> k in FieldsOf(f);
    assert forall p :: p in PatternsOf(g) <==> p in PatternsOf(f);
  }

  /** `{field: {$regex: pattern}}` constrains that field with that pattern and nothing else. */
  lemma SingleRegex(field: string, pattern: string)
    ensures FieldsOf(Where(map[field := Regex(pattern)])) == {field}
    ensures PatternsOf(Where(map[field := Regex(pattern)])) == {pattern}
  {
    var conds := map[field := Regex(pattern)];
    assert conds[field].Regex?;
    assert pattern in PatternsOf(Where(conds));
  }
}
