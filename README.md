# Toy catalogue server: request-to-query translation

This project models the decision logic of a small Express server that serves a toy catalogue from one MongoDB collection (`index.js`). Each route handler turns the request's query string, path parameter or JSON body into a query document, a sort document or an update document, and passes it to one collection call. The model writes these builders as pure Dafny functions that return descriptors, and proves what each descriptor is and what it means against a reference model of the collection.

Modules, one file each:

- `Values` (`values.dfy`): JSON/BSON values, documents (`map<string, Value>`), `ObjectId`, `Option`, `Result`, JavaScript property lookup and query-parameter truthiness.
- `JsParseInt` (`parse_int.dfy`): ECMAScript `parseInt` without a radix, which the all-toys handler applies to the `limit` parameter.
- `Descriptors` (`descriptors.dfy`): query documents (field conditions and `$or`), sort documents, `$set` update documents, and the collection call a handler makes.
- `Handlers` (`handlers.dfy`): the eight route handlers as `Handle(parse, request)`, with the builders for the `_id` filter, the search and category filters, the my-toys filter and sort, and the update's `$set`.
- `Store` (`store.dfy`): a reference model of the collection. It says which records a query selects (the `$regex` test is a parameter), how a `$set` changes a record, and what `find`, `findOne`, `insertOne`, `deleteOne` and `updateOne` do to a sequence of records.
- `Lifecycle` (`lifecycle.dfy`): what the handlers' descriptors mean against the collection. This covers the records each query selects, field preservation under update, delete by id, and the add / details / update / delete lifecycle of one toy.

Parameters of the model:

- The driver's `new ObjectId(id)` conversion is the argument `parse: string -> Option<ObjectId>`. `None` stands for the exception it throws.
- The store's `$regex` test is the argument `regex: (pattern, subject) -> bool`.
- The identifier the store assigns on insert is the argument `newId`.
- The collection's `_id` values are unique (`Store.UniqueIds`, MongoDB's unique `_id` index). The lemmas about lookup, update and delete by id assume it, and those that change the collection prove it is kept.

Behaviour of the code worth knowing:

- A malformed id makes `new ObjectId(id)` throw inside the handler, and nothing catches it. The model returns `Failure(MalformedId(id))` and assigns no status code.
- Search and category are `$regex` queries built from the unescaped path token, not plain substring tests. What a pattern selects depends on the `regex` parameter.
- An update field that the body lacks is `undefined` in the `$set`. The driver's BSON serialiser (with `ignoreUndefined` off, its default) stores that as `null`. `Store.ApplySet` writes `Null` for it.
- Add inserts the body exactly as received, including any `_id` or other key it carries. The driver gives the document a new `_id` when its `_id` is missing or null (`Store.NeedsId`), and keeps any other `_id` it carries.
- The all-toys handler always passes `parseInt(limit)` to `.limit()`, which is NaN when the parameter is absent or has no digit after the optional leading white space, the optional sign and an optional `0x` prefix (so `"-5"` gives -5, `" 7"` gives 7, and `"0xz"` gives NaN).

## Model

| member | source | states |
|---|---|---|
| `Values.Lookup` | index.js:114-119 | (definition) `body.key`: undefined when the body lacks the key, otherwise the body's value; what the update then stores is proved in `Lifecycle.UpdateWritesSixFields` |
| `JsParseInt.ArgString` | index.js:35 | (definition) the string `parseInt` reads: the parameter itself, or `"undefined"` when it is absent; its result for an absent parameter is proved in `JsParseInt.UndefinedIsNaN` |
| `JsParseInt.ParseInt` | index.js:35 | (definition) `parseInt(s)` without a radix: skip leading white space, take one optional sign, read hexadecimal after `0x`/`0X` and decimal otherwise, NaN when no digit follows |
| `JsParseInt.ParseIntReadsDecimal` | index.js:35 | `parseInt` reads the decimal rendering of any n back as n, whatever non-digit text follows it (`"0x"` excepted) |
| `JsParseInt.ParseIntSkipsWhiteSpace` | index.js:35 | leading white space never changes the result of `parseInt` |
| `JsParseInt.ParseIntSign` | index.js:35 | one leading `-` negates the result and one leading `+` changes nothing, when what follows starts with neither white space nor a sign (`parseInt("- 5")` and `parseInt("+-5")` are NaN) |
| `JsParseInt.ParseIntNaN` | index.js:35 | `parseInt` is NaN exactly when no digit of the radix follows the leading white space, the optional sign and the optional `0x` prefix (so `" x"`, `"-x"` and `"0xz"` are NaN) |
| `JsParseInt.UndefinedIsNaN` | index.js:35 | an absent `limit` reads as `"undefined"`, which `parseInt` gives as NaN |
| `JsParseInt.DigitRun` | index.js:35 | the digit run `parseInt` reads is the longest prefix of digits of the radix |
| `JsParseInt.LeadingSpace` | index.js:35 | the white space `parseInt` skips is the longest prefix of white-space characters |
| `Descriptors.SingleBranch` | index.js:46-48 | a `$or` with one branch constrains exactly the fields and patterns of that branch |
| `Handlers.IdFilter` | index.js:57 | `{_id: ObjectId(id)}` fails exactly when the id does not convert, with that id as the error; otherwise it is one equality on `_id` and uses no pattern |
| `Handlers.RegexOn` | index.js:44-49 | the `$or` of one `$regex` condition, the shape that search and category share, constrains only its field, and its only pattern is the raw token |
| `Handlers.SearchFilter` | index.js:43-49 | the search query constrains only `toyName`, and its only pattern is the raw path token |
| `Handlers.CategoryFilter` | index.js:63-68 | the category query constrains only `subCategory`, and its only pattern is the raw path token |
| `Values.Truthy` | index.js:77 | (definition) a query parameter is truthy exactly when it is present and not the empty string |
| `Handlers.MyToysFilter` | index.js:74-79 | the my-toys query is empty when email is absent or `""`, and otherwise constrains only `email`, to equal the parameter unchanged |
| `Handlers.SortFor` | index.js:75-85 | price ascending exactly for `"Ascending"`, price descending exactly for `"Descending"`, and an empty sort for anything else or nothing; `price` is the only key |
| `Handlers.SetDocument` | index.js:112-121 | `$set` has exactly the six keys picture, toyName, details, quantity, ratings and price; each value is the body's value, or undefined when the body lacks the key |
| `Handlers.Handle` | index.js:33-125 | building the collection call fails only by throwing in `new ObjectId(id)`, and this happens exactly when an id-taking handler gets an unconvertible id |
| `Handlers.AllToysLimit` | index.js:33-36 | all-toys queries with an empty filter and no sort; the limit is n for the parameter `"n"` and NaN when the parameter is absent |
| `Handlers.SearchAndCategoryQueries` | index.js:42-70 | search and category each make one `find`, on one field with the raw token, with no sort and no limit |
| `Handlers.MyToysQuery` | index.js:73-87 | the handler's filter is `MyToysFilter(email)` and its sort is `SortFor(sort)`; the filter depends only on the email parameter, and the sort only on the sort parameter; sorting is by price only; there is no limit |
| `Handlers.IdHandlersShareFilter` | index.js:55-125 | details, delete and update build the same `_id` filter from the same path segment, and succeed or throw together |
| `Handlers.AddPassesBodyThrough` | index.js:92-94 | add inserts the request body unchanged |
| `Handlers.UpdateDropsOtherKeys` | index.js:109-121 | a body key outside the six mutable fields never reaches `$set` |
| `Store.Holds` | index.js:44-78 | (definition) an equality condition holds when the field equals the value (an absent field equals only null); a `$regex` condition holds when the field is a string the pattern matches |
| `Store.Matches` | index.js:44-78 | (definition) a field-condition document selects a record when every condition holds; a `$or` selects it when some branch does |
| `Store.Written` | index.js:113-120 | (definition) what `$set` stores for a value: the value itself, or null for undefined; its effect on a record is proved in `Lifecycle.UpdateWritesSixFields` |
| `Store.ApplySet` | index.js:123 | a `$set` overwrites or adds its listed fields and keeps every other field of the record |
| `Store.FirstMatch` | index.js:58 | the first record selected by the query, if any, and none before it is selected |
| `Store.SelectAll` | index.js:44-50 | `find` returns exactly the stored records the query selects, each as many times as it is stored |
| `Store.SelectOne` | index.js:58 | `findOne` returns null exactly when no stored record is selected, and otherwise a stored record the query selects |
| `Store.NeedsId` | index.js:94 | (definition) the driver assigns a new `_id` to a document whose `_id` is missing or null |
| `Store.WithId` | index.js:94 | the stored record has an `_id`: the new identifier when the body's is missing or null, the body's own otherwise; every other field is the body's |
| `Store.Insert` | index.js:94 | `insertOne` keeps every existing record in place and stores the body, with its `_id`, after them |
| `Store.Delete` | index.js:102 | `deleteOne` removes the first selected record and keeps the others in order; it changes nothing when none is selected |
| `Store.Modify` | index.js:123 | `updateOne` applies the `$set` to the first selected record, keeps every other record, and changes nothing when none is selected |
| `Store.Perform` | index.js:33-125 | (definition) the collection after a handler's call: `find` and `findOne` leave it unchanged, and `insertOne`, `deleteOne` and `updateOne` change it as `Insert`, `Delete` and `Modify` say; the handlers' effects are proved in `Lifecycle.AddThenDetails`, `Lifecycle.UpdateById` and `Lifecycle.DeleteById` |
| `Store.MatchesReadsOnlyItsFields` | index.js:44-68 | whether a query selects a record depends only on the fields the query names |
| `Lifecycle.IdFilterSelects` | index.js:57 | the `_id` filter selects exactly the records that carry that identifier |
| `Lifecycle.MyToysSelects` | index.js:77-79 | the my-toys query selects every record when email is falsy, and otherwise exactly the records whose email equals it |
| `Lifecycle.SearchSelects` | index.js:43-49 | search selects the records whose string `toyName` the raw token matches as a regex |
| `Lifecycle.CategorySelects` | index.js:63-67 | the category query selects the records whose string `subCategory` the raw token matches as a regex |
| `Lifecycle.SearchAndCategoryReadOneField` | index.js:44-67 | two records with equal `toyName` are both selected by a search or both rejected; likewise for `subCategory` and the category query |
| `Lifecycle.SearchResults` | index.js:42-51 | search returns exactly the stored toys whose `toyName` the token matches |
| `Lifecycle.MyToysResults` | index.js:73-87 | my-toys returns exactly the owner's toys (every toy for a falsy email), and the same set whatever the sort parameter |
| `Lifecycle.UpdateWritesSixFields` | index.js:109-123 | after the update, the six fields hold the body's values, or null where the body lacks them; every other field (`_id`, email, subCategory, ...) is unchanged |
| `Lifecycle.ModifyById` | index.js:111-123 | `updateOne` with the `_id` filter changes the record with that id and no other, and ids stay unique |
| `Lifecycle.UpdateById` | index.js:107-124 | the update handler changes only the record with that id, and only by the six-field `$set` |
| `Lifecycle.RemoveById` | index.js:101-102 | `deleteOne` with the `_id` filter removes the record with that id if there is one, and otherwise changes nothing |
| `Lifecycle.DeleteById` | index.js:99-103 | the delete handler removes exactly the record with that id; afterwards no record has it, and deleting again is a no-op |
| `Lifecycle.AddThenDetails` | index.js:92-94 | adding a body whose `_id` is missing or null appends it with the new id, and details by that id returns it |
| `Lifecycle.SelectAfterModify` | index.js:111-123 | after `updateOne` by id, the id filter selects the same record with the update applied |
| `Lifecycle.DetailsAfterUpdate` | index.js:107-124 | after the update handler, details by the same id returns the record with the `$set` applied |
| `Lifecycle.DetailsAfterDelete` | index.js:99-103 | after the delete handler, details by the same id finds nothing |
| `Lifecycle.ToyLifecycle` | index.js:92-125 | add, then details, update, details, delete and details: each read returns the expected record, then nothing; the update keeps every field outside the six |

## Left out

- Express routing, CORS and JSON middleware, `app.listen` and the `/` liveness route: transport, not logic. Requests reach `Handle` already routed and parsed.
- MongoClient setup, the connection URI from the environment, `client.connect` and the admin ping: I/O and configuration.
- What `.limit()` does with NaN, zero or a negative number: driver behaviour. The model records the value passed.
- The order that `.sort({price: ±1})` produces: BSON comparison order is driver behaviour. The model records the sort document, and `Store.SelectAll` states only which records are returned.
- `$regex` semantics: a parameter of the model. `ObjectId` string validation: the parameter `parse`.
- The acknowledgment values returned to the client (`insertedId`, `deletedCount`, `matchedCount`, `modifiedCount`) and `res.send` serialisation. The model states the collection's new contents instead.
- Async handling and concurrency between requests: the code has no logic for these. A malformed id makes `new ObjectId(id)` throw, so the async handler's promise rejects and nothing handles it. On Node 15 and later an unhandled rejection ends the process, and on older Node the request hangs. The model records only the `Failure`.
- Query parameters repeated or written in bracket form (which the query-string parser turns into arrays or objects) are not modelled: a parameter is absent or one string. A JSON body that is an array is not modelled either.
- Lifecycle.MyToysSelects: MongoDB equality against an array field (where one element may match) and `$regex` against an array field are not modelled. `Store.Holds` compares the whole field, to keep the selection rules small. Add stores any posted body unchanged, so a record with `email: ["a@x", "b@x"]` can exist. MongoDB's `{email: "a@x"}` selects that record, but the model's query does not. The same applies to SearchSelects and CategorySelects for an array `toyName` or `subCategory`.
- Lifecycle.SearchResults: a token that is not a valid regular expression, such as `(`, makes `find(...).toArray()` reject (index.js:44-50 and 64-68), and the handler's promise goes unhandled as for a malformed id. The `regex` parameter is a total test, so it cannot express this. For such a token, SearchResults and CategorySelects describe a result the server never returns. `Handlers.Handle` likewise records a successful `find` for it.
- Handlers.Handle: a rejected store call is not modelled. Each handler awaits its collection call (index.js:37, 44, 58, 64, 87, 94, 102, 123), for example against an unreachable server, and nothing catches a rejection. It goes unhandled the same way a malformed id does. `Handle` describes only the call a handler builds, and its `Failure` covers only the `ObjectId` conversion.
- JsParseInt.ParseInt: results are unbounded integers, not IEEE doubles. Precision loss above 2^53 is not modelled, and `-0` reads as 0.
- Store.Insert: duplicate-key errors for a body that carries an existing `_id` are not modelled. `Lifecycle` assumes the new id is unused.
- Store.WithId: the driver's check for `_id == null` also matches `undefined`, which a JSON body cannot carry. The model treats an `_id` that is missing or `Null` as needing a new one.
