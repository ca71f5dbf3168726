/**
 * The route handlers of the toy catalogue server, each reduced to the
 * collection call it makes: which query, sort and update documents it builds
 * from the request's query string, path parameter and body.
 */
module Handlers {
  import opened Values
  import opened Descriptors
  import JsParseInt

  /** A request as it reaches a handler, already routed and with its body parsed. */
  datatype Request =
    | AllToys(limit: Option<string>)                  // GET /all-toys?limit=N
    | SearchToy(key: string)                             // GET /search-toy/:key
    | ToyDetails(id: string)                             // GET /toy-details/:id
    | ToyCategory(category: string)                      // GET /toy-category/:category
    | MyToys(email: Option<string>, sort: Option<string>) // GET /my-toys?email=E&sort=S
    | AddToy(body: Document)                             // POST /add-toy
    | DeleteToy(id: string)                              // DELETE /toy-delete/:id
    | UpdateToy(id: string, body: Document)              // PATCH /toy-update/:id

  /** `new ObjectId(id)` throws on a string it cannot convert; nothing catches it. */
  datatype HandlerError = MalformedId(id: string)

  /** The driver's conversion of a path segment to an ObjectId: None where it throws. */
  type IdParser = string -> Option<ObjectId>

  /** The fields the update handler writes, in the order it lists them. */
  const MutableFields: seq<string> := ["picture", "toyName", "details", "quantity", "ratings", "price"]

  /** The path parameter converted to an ObjectId, for the handlers that take one. */
  function IdOf(req: Request): Option<string>
  {
    match req
    case ToyDetails(id) => Some(id)
    case DeleteToy(id) => Some(id)
    case UpdateToy(id, _) => Some(id)
    case _ => None
  }

  /** `{_id: new ObjectId(id)}`, shared by the details, delete and update handlers. */
  function IdFilter(parse: IdParser, id: string): (r: Result<Filter, HandlerError>)
    ensures r.Failure? <==> parse(id).None?
    ensures r.Failure? ==> r.error == MalformedId(id)
    ensures r.Success? ==> FieldsOf(r.value) == {"_id"} && PatternsOf(r.value) == {}
    ensures r.Success? ==> r.value.Where? && r.value.conds["_id"] == Eq(Id(parse(id).value))
  {
    match parse(id)
    case None => Failure(MalformedId(id))
    case Some(oid) => Success(Where(map["_id" := Eq(Id(oid))]))
  }

  /** `{$or: [{field: {$regex: token}}]}`, the shape of the search and category queries. */
  function RegexOn(field: string, token: string): (r: Filter)
    ensures FieldsOf(r) == {field}
    ensures PatternsOf(r) == {token}
  {
    var only := Where(map[field := Regex(token)]);
    SingleRegex(field, token);
    SingleBranch(only);
    AnyOf([only])
  }

  /** The search query: the raw path token, not escaped, as a pattern on toyName. */
  function SearchFilter(key: string): (r: Filter)
    ensures FieldsOf(r) == {"toyName"} && PatternsOf(r) == {key}
  {
    RegexOn("toyName", key)
  }

  /** The category query: the raw path token, not escaped, as a pattern on subCategory. */
  function CategoryFilter(category: string): (r: Filter)
    ensures FieldsOf(r) == {"subCategory"} && PatternsOf(r) == {category}
  {
    RegexOn("subCategory", category)
  }

  /** The my-toys query: `{email: E}` when the email parameter is truthy, `{}` otherwise. */
  function MyToysFilter(email: Option<string>): (r: Filter)
    ensures r.Where? && PatternsOf(r) == {}
    ensures FieldsOf(r) == if Truthy(email) then {"email"} else {}
    ensures Truthy(email) ==> r.conds["email"] == Eq(Str(email.value))
  {
    if Truthy(email) then Where(map["email" := Eq(Str(email.value))]) else Where(map[])
  }

  /**
   * The my-toys sort: price ascending exactly for "Ascending", price
   * descending exactly for "Descending" (strict, case-sensitive comparison),
   * no sort key for anything else or an absent parameter.
   */
  function SortFor(directive: Option<string>): (r: SortSpec)
    ensures r.Keys <= {"price"}
    ensures ("price" in r && r["price"] == 1) <==> directive == Some("Ascending")
    ensures ("price" in r && r["price"] == -1) <==> directive == Some("Descending")
    ensures r == map[] <==> directive != Some("Ascending") && directive != Some("Descending")
  {
    if directive == Some("Ascending") then map["price" := 1]
    else if directive == Some("Descending") then map["price" := -1]
    else map[]
  }

  /**
   * The update handler's `$set`: the six mutable fields, each taken from the
   * body or undefined when the body lacks it; no other body key is copied.
   */
  function SetDocument(body: Document): (r: Update)
    ensures r.fields.Keys == set k | k in MutableFields
    ensures forall k :: k in r.fields ==> r.fields[k] == Lookup(body, k)
  {
    Set(map[
      "picture" := Lookup(body, "picture"),
      "toyName" := Lookup(body, "toyName"),
      "details" := Lookup(body, "details"),
      "quantity" := Lookup(body, "quantity"),
      "ratings" := Lookup(body, "ratings"),
      "price" := Lookup(body, "price")
    ])
  }

  /**
   * Every route handler: the request to the collection call it makes, or the
   * exception `new ObjectId(id)` throws. Building the call fails only by that
   * exception, and exactly when an id-taking handler gets an unconvertible id.
   * Whether the awaited call itself succeeds is the store's affair.
   */
  function Handle(parse: IdParser, req: Request): (r: Result<StoreCall, HandlerError>)
    ensures r.Failure? <==> IdOf(req).Some? && parse(IdOf(req).value).None?
    ensures r.Failure? ==> r.error == MalformedId(IdOf(req).value)
  {
    match req
    case AllToys(limit) =>
      Success(Find(Where(map[]), None, Some(JsParseInt.ParseInt(JsParseInt.ArgString(limit)))))
    case SearchToy(key) => Success(Find(SearchFilter(key), None, None))
    case ToyDetails(id) =>
      (match IdFilter(parse, id)
       case Failure(e) => Failure(e)
       case Success(f) => Success(FindOne(f)))
    case ToyCategory(category) => Success(Find(CategoryFilter(category), None, None))
    case MyToys(email, sort) => Success(Find(MyToysFilter(email), Some(SortFor(sort)), None))
    case AddToy(body) => Success(InsertOne(body))
    case DeleteToy(id) =>
      (match IdFilter(parse, id)
       case Failure(e) => Failure(e)
       case Success(f) => Success(DeleteOne(f)))
    case UpdateToy(id, body) =>
      (match IdFilter(parse, id)
       case Failure(e) => Failure(e)
       case Success(f) => Success(UpdateOne(f, SetDocument(body))))
  }

  /** All-toys queries with no filter and passes `parseInt(limit)` as the limit. */
  lemma AllToysLimit(parse: IdParser, n: nat)
    ensures Handle(parse, AllToys(Some(JsParseInt.Decimal(n))))
         == Success(Find(Where(map[]), None, Some(JsParseInt.Int(n))))
    ensures Handle(parse, AllToys(None)) == Success(Find(Where(map[]), None, Some(JsParseInt.NaN)))
  {
    JsParseInt.ParseIntReadsDecimal(n, []);
    assert JsParseInt.Decimal(n) + [] == JsParseInt.Decimal(n);
    JsParseInt.UndefinedIsNaN();
  }

  /** Search and category queries constrain one field each, with the raw token, and never sort or limit. */
  lemma SearchAndCategoryQueries(parse: IdParser, key: string)
    ensures Handle(parse, SearchToy(key)).Success?
    ensures var c := Handle(parse, SearchToy(key)).value;
      c.Find? && FieldsOf(c.filter) == {"toyName"} && PatternsOf(c.filter) == {key}
      && c.sort.None? && c.limit.None?
    ensures Handle(parse, ToyCategory(key)).Success?
    ensures var c := Handle(parse, ToyCategory(key)).value;
      c.Find? && FieldsOf(c.filter) == {"subCategory"} && PatternsOf(c.filter) == {key}
      && c.sort.None? && c.limit.None?
  {
  }

  /**
   * The my-toys query: its filter depends on the email parameter alone and
   * its sort on the sort parameter alone, the only sort key is price, and
   * there is no limit.
   */
  lemma MyToysQuery(parse: IdParser, email: Option<string>, sort: Option<string>,
                    email': Option<string>, sort': Option<string>)
    ensures Handle(parse, MyToys(email, sort)).Success?
    ensures var c := Handle(parse, MyToys(email, sort)).value;
      c.Find? && c.sort.Some? && c.sort.value.Keys <= {"price"} && c.limit.None?
    ensures var c := Handle(parse, MyToys(email, sort)).value;
      c.filter == MyToysFilter(email) && c.sort == Some(SortFor(sort))
    ensures Handle(parse, MyToys(email, sort)).value.filter
         == Handle(parse, MyToys(email, sort')).value.filter
    ensures Handle(parse, MyToys(email, sort)).value.sort
         == Handle(parse, MyToys(email', sort)).value.sort
  {
  }

  /**
   * The details, delete and update handlers build the same `_id` filter from
   * the same path segment, and succeed or throw together.
   */
  lemma IdHandlersShareFilter(parse: IdParser, id: string, body: Document)
    ensures Handle(parse, ToyDetails(id)).Success? == Handle(parse, DeleteToy(id)).Success?
         == Handle(parse, UpdateToy(id, body)).Success? == parse(id).Some?
    ensures parse(id).Some? ==>
      && Handle(parse, ToyDetails(id)).value == FindOne(IdFilter(parse, id).value)
      && Handle(parse, DeleteToy(id)).value == DeleteOne(IdFilter(parse, id).value)
      && Handle(parse, UpdateToy(id, body)).value == UpdateOne(IdFilter(parse, id).value, SetDocument(body))
  {
  }

  /** Add hands the request body to the insert exactly as received. */
  lemma AddPassesBodyThrough(parse: IdParser, body: Document)
    ensures Handle(parse, AddToy(body)) == Success(InsertOne(body))
  {
  }

  /** A body key outside the six mutable fields never reaches `$set`. */
  lemma UpdateDropsOtherKeys(parse: IdParser, id: string, body: Document, k: string)
    requires parse(id).Some?
    requires k !in MutableFields
    ensures Handle(parse, UpdateToy(id, body)).value.UpdateOne?
    ensures k !in Handle(parse, UpdateToy(id, body)).value.update.fields
  {
  }
}
