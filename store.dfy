/**
 * A reference model of the toy collection behind the driver calls: which
 * records a query document selects, what a `$set` does to a record, and what
 * the single-record calls do to the collection. It is the collaborator's
 * interface as the handlers rely on it, not code of the server.
 */
module Store {
  import opened Values
  import opened Descriptors

  /** The store's `$regex` test of a pattern against a string field; a parameter of the model. */
  type RegexMatcher = (string, string) -> bool

  /** The records in the collection, in the store's natural order. */
  type Collection = seq<Document>

  /** Whether one field condition holds of a record (null equality also matches a missing field). */
  predicate Holds(c: Cond, field: string, doc: Document, regex: RegexMatcher)
  {
    match c
    case Eq(v) => if field in doc then doc[field] == v else v == Null
    case Regex(p) => field in doc && doc[field].Str? && regex(p, doc[field].s)
  }

  /** Whether a query document selects a record. */
  predicate Matches(f: Filter, doc: Document, regex: RegexMatcher)
  {
    match f
    case Where(conds) => forall k :: k in conds ==> Holds(conds[k], k, doc, regex)
    case AnyOf(bs) => exists i :: 0 <= i < |bs| && Matches(bs[i], doc, regex)
  }

  /** What a `$set` stores for a value: the driver serialises undefined as null. */
  function Written(v: Option<Value>): (r: Value)
    ensures v.None? ==> r == Null
    ensures v.Some? ==> r == v.value
  {
    match v
    case Some(x) => x
    case None => Null
  }

  /** A `$set` applied to one record: the listed fields are overwritten or added, all others kept. */
  function ApplySet(doc: Document, u: Update): (r: Document)
    ensures r.Keys == doc.Keys + u.fields.Keys
    ensures forall k :: k in u.fields ==> r[k] == Written(u.fields[k])
    ensures forall k :: k in doc && k !in u.fields ==> r[k] == doc[k]
  {
    doc + map k | k in u.fields :: Written(u.fields[k])
  }

  /** The position of the first record the query selects, if any. */
  function FirstMatch(c: Collection, f: Filter, regex: RegexMatcher): (r: Option<nat>)
    ensures r.Some? ==> r.value < |c| && Matches(f, c[r.value], regex)
    ensures forall j :: 0 <= j < |c| && (r.None? || j < r.value) ==> !Matches(f, c[j], regex)
  {
    if c == [] then None
    else if Matches(f, c[0], regex) then Some(0)
    else
      match FirstMatch(c[1..], f, regex)
      case None => None
      case Some(j) => Some(j + 1)
  }

  /**
   * `find(filter)`: the records the query selects, each as often as it is
   * stored, in collection order.
   */
  function SelectAll(c: Collection, f: Filter, regex: RegexMatcher): (r: seq<Document>)
    ensures |r| <= |c|
    ensures forall d :: d in r <==> d in c && Matches(f, d, regex)
    ensures forall d :: multiset(r)[d] == if Matches(f, d, regex) then multiset(c)[d] else 0
  {
    if c == [] then []
    else
      assert c == [c[0]] + c[1..];
      if Matches(f, c[0], regex) then [c[0]] + SelectAll(c[1..], f, regex)
      else SelectAll(c[1..], f, regex)
  }

  /** `findOne(filter)`: the first selected record, or null when the query selects none. */
  function SelectOne(c: Collection, f: Filter, regex: RegexMatcher): (r: Option<Document>)
    ensures r.None? <==> forall d :: d in c ==> !Matches(f, d, regex)
    ensures r.Some? ==> r.value in c && Matches(f, r.value, regex)
  {
    match FirstMatch(c, f, regex)
    case None =>
      assert forall d :: d in c ==> exists j :: 0 <= j < |c| && c[j] == d;
      None
    case Some(i) =>
      assert c[i] in c;
      Some(c[i])
  }

  /** Whether `insertOne` gives the document a new `_id`: the driver does so when `_id` is missing or null. */
  predicate NeedsId(doc: Document)
  {
    "_id" !in doc || doc["_id"] == Null
  }

  /** The record `insertOne` stores: a document whose `_id` is missing or null gets the new identifier. */
  function WithId(doc: Document, newId: ObjectId): (r: Document)
    ensures r.Keys == doc.Keys + {"_id"}
    ensures r["_id"] == if NeedsId(doc) then Id(newId) else doc["_id"]
    ensures forall k :: k in doc && k != "_id" ==> r[k] == doc[k]
  {
    if NeedsId(doc) then doc["_id" := Id(newId)] else doc
  }

  /** `insertOne(doc)`: the document, with its `_id`, is stored after every existing record. */
  function Insert(c: Collection, doc: Document, newId: ObjectId): (r: Collection)
    ensures |r| == |c| + 1 && r[..|c|] == c && r[|c|] == WithId(doc, newId)
  {
    c + [WithId(doc, newId)]
  }

  /** `deleteOne(filter)`: the first selected record is removed; no match changes nothing. */
  function Delete(c: Collection, f: Filter, regex: RegexMatcher): (r: Collection)
    ensures FirstMatch(c, f, regex).None? ==> r == c
    ensures FirstMatch(c, f, regex).Some? ==>
      var i := FirstMatch(c, f, regex).value;
      && |r| == |c| - 1
      && (forall j :: 0 <= j < i ==> r[j] == c[j])
      && (forall j :: i <= j < |r| ==> r[j] == c[j + 1])
  {
    match FirstMatch(c, f, regex)
    case None => c
    case Some(i) => c[..i] + c[i + 1..]
  }

  /** `updateOne(filter, update)`: the update is applied to the first selected record only. */
  function Modify(c: Collection, f: Filter, u: Update, regex: RegexMatcher): (r: Collection)
    ensures |r| == |c|
    ensures FirstMatch(c, f, regex).None? ==> r == c
    ensures FirstMatch(c, f, regex).Some? ==>
      var i := FirstMatch(c, f, regex).value;
      && r[i] == ApplySet(c[i], u)
      && (forall j :: 0 <= j < |c| && j != i ==> r[j] == c[j])
  {
    match FirstMatch(c, f, regex)
    case None => c
    case Some(i) => c[i := ApplySet(c[i], u)]
  }

  /** The collection after a handler's call: reads leave it as it was. */
  function Perform(call: StoreCall, c: Collection, newId: ObjectId, regex: RegexMatcher): (r: Collection)
    ensures call.Find? || call.FindOne? ==> r == c
    ensures call.InsertOne? ==> r == Insert(c, call.doc, newId)
    ensures call.DeleteOne? ==> r == Delete(c, call.filter, regex)
    ensures call.UpdateOne? ==> r == Modify(c, call.filter, call.update, regex)
  {
    match call
    case Find(_, _, _) => c
    case FindOne(_) => c
    case InsertOne(doc) => Insert(c, doc, newId)
    case DeleteOne(f) => Delete(c, f, regex)
    case UpdateOne(f, u) => Modify(c, f, u, regex)
  }

  predicate HasId(doc: Document, oid: ObjectId)
  {
    "_id" in doc && doc["_id"] == Id(oid)
  }

  /** No two records share an `_id`: the store's uniqueness guarantee. */
  predicate UniqueIds(c: Collection)
  {
    forall i, j ::
      (0 <= i < |c| && 0 <= j < |c| && "_id" in c[i] && "_id" in c[j] && c[i]["_id"] == c[j]["_id"])
      ==> i == j
  }

  predicate IdUnused(c: Collection, oid: ObjectId)
  {
    forall j :: 0 <= j < |c| ==> !HasId(c[j], oid)
  }

  /** A query decides on a record by the fields it names alone. */
  lemma {:induction false} MatchesReadsOnlyItsFields(f: Filter, d1: Document, d2: Document, regex: RegexMatcher)
    requires forall k :: k in FieldsOf(f) ==> Lookup(d1, k) == Lookup(d2, k)
    ensures Matches(f, d1, regex) == Matches(f, d2, regex)
  {
    match f
    case Where(conds) =>
      forall k | k in conds
        ensures Holds(conds[k], k, d1, regex) == Holds(conds[k], k, d2, regex)
      {
        assert Lookup(d1, k) == Lookup(d2, k);
      }
    case AnyOf(bs) =>
      forall i | 0 <= i < |bs|
        ensures Matches(bs[i], d1, regex) == Matches(bs[i], d2, regex)
      {
        MatchesReadsOnlyItsFields(bs[i], d1, d2, regex);
      }
  }
}
