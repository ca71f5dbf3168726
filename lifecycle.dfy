/**
 * What the handlers' descriptors mean against the collection: which records
 * each query selects, what the update does to a record, and the lifecycle of
 * one toy through add, details, update and delete.
 */
module Lifecycle {
  import opened Values
  import opened Descriptors
  import opened Handlers
  import opened Store

  /** `{_id: ObjectId(id)}` selects exactly the records carrying that identifier. */
  lemma IdFilterSelects(parse: IdParser, id: string, doc: Document, regex: RegexMatcher)
    requires parse(id).Some?
    ensures Matches(IdFilter(parse, id).value, doc, regex) <==> HasId(doc, parse(id).value)
  {
    var conds := IdFilter(parse, id).value.conds;
    assert conds.Keys == {"_id"} && conds["_id"] == Eq(Id(parse(id).value));
    if HasId(doc, parse(id).value) {
      forall k | k in conds ensures Holds(conds[k], k, doc, regex) {
        assert k == "_id";
      }
    } else {
      assert !Holds(conds["_id"], "_id", doc, regex);
    }
  }

  /** The my-toys query selects every record when the email is falsy, else exactly the owner's records. */
  lemma MyToysSelects(email: Option<string>, doc: Document, regex: RegexMatcher)
    ensures Matches(MyToysFilter(email), doc, regex)
        <==> !Truthy(email) || ("email" in doc && doc["email"] == Str(email.value))
  {
    var conds := MyToysFilter(email).conds;
    if Truthy(email) {
      assert conds.Keys == {"email"};
      if "email" in doc && doc["email"] == Str(email.value) {
        forall k | k in conds ensures Holds(conds[k], k, doc, regex) {
          assert k == "email";
        }
      } else {
        assert !Holds(conds["email"], "email", doc, regex);
      }
    } else {
      assert conds == map[];
    }
  }

  lemma SingleRegexBranchSelects(field: string, pattern: string, doc: Document, regex: RegexMatcher)
    ensures Matches(RegexOn(field, pattern), doc, regex)
        <==> field in doc && doc[field].Str? && regex(pattern, doc[field].s)
  {
    var conds := map[field := Regex(pattern)];
    var only := Where(conds);
    assert AnyOf([only]).branches[0] == only;
    if Holds(Regex(pattern), field, doc, regex) {
      forall k | k in conds ensures Holds(conds[k], k, doc, regex) {
        assert k == field;
      }
    } else {
      assert !Holds(conds[field], field, doc, regex);
    }
  }

  /** Search selects the records whose string toyName the raw token matches as a `$regex`. */
  lemma SearchSelects(key: string, doc: Document, regex: RegexMatcher)
    ensures Matches(SearchFilter(key), doc, regex)
        <==> "toyName" in doc && doc["toyName"].Str? && regex(key, doc["toyName"].s)
  {
    SingleRegexBranchSelects("toyName", key, doc, regex);
  }

  /** The category query selects the records whose string subCategory the raw token matches. */
  lemma CategorySelects(category: string, doc: Document, regex: RegexMatcher)
    ensures Matches(CategoryFilter(category), doc, regex)
        <==> "subCategory" in doc && doc["subCategory"].Str? && regex(category, doc["subCategory"].s)
  {
    SingleRegexBranchSelects("subCategory", category, doc, regex);
  }

  /** Search never looks past toyName, and the category query never past subCategory. */
  lemma SearchAndCategoryReadOneField(token: string, d1: Document, d2: Document, regex: RegexMatcher)
    ensures Lookup(d1, "toyName") == Lookup(d2, "toyName")
        ==> Matches(SearchFilter(token), d1, regex) == Matches(SearchFilter(token), d2, regex)
    ensures Lookup(d1, "subCategory") == Lookup(d2, "subCategory")
        ==> Matches(CategoryFilter(token), d1, regex) == Matches(CategoryFilter(token), d2, regex)
  {
    if Lookup(d1, "toyName") == Lookup(d2, "toyName") {
      MatchesReadsOnlyItsFields(SearchFilter(token), d1, d2, regex);
    }
    if Lookup(d1, "subCategory") == Lookup(d2, "subCategory") {
      MatchesReadsOnlyItsFields(CategoryFilter(token), d1, d2, regex);
    }
  }

  /** Search returns exactly the stored toys whose toyName the raw token matches. */
  lemma SearchResults(parse: IdParser, key: string, c: Collection, regex: RegexMatcher)
    ensures var call := Handle(parse, SearchToy(key)).value;
      forall d: Document :: d in SelectAll(c, call.filter, regex)
        <==> d in c && "toyName" in d && d["toyName"].Str? && regex(key, d["toyName"].s)
  {
    forall d: Document ensures Matches(SearchFilter(key), d, regex)
        <==> "toyName" in d && d["toyName"].Str? && regex(key, d["toyName"].s)
    {
      SearchSelects(key, d, regex);
    }
  }

  /**
   * My-toys returns exactly the owner's toys (every toy for a falsy email),
   * and the same records whatever the sort parameter says.
   */
  lemma MyToysResults(parse: IdParser, email: Option<string>, sort: Option<string>, sort': Option<string>,
                      c: Collection, regex: RegexMatcher)
    ensures var call := Handle(parse, MyToys(email, sort)).value;
      forall d: Document :: d in SelectAll(c, call.filter, regex)
        <==> d in c && (!Truthy(email) || ("email" in d && d["email"] == Str(email.value)))
    ensures forall d: Document ::
      d in SelectAll(c, Handle(parse, MyToys(email, sort)).value.filter, regex)
      <==> d in SelectAll(c, Handle(parse, MyToys(email, sort')).value.filter, regex)
  {
    forall d: Document ensures Matches(MyToysFilter(email), d, regex)
        <==> !Truthy(email) || ("email" in d && d["email"] == Str(email.value))
    {
      MyToysSelects(email, d, regex);
    }
  }

  /**
   * The update's `$set` applied to a record writes the six mutable fields,
   * each to the body's value or to null when the body lacks it, and leaves
   * every other field, `_id`, email and subCategory included, as it was.
   */
  lemma UpdateWritesSixFields(body: Document, doc: Document)
    ensures ApplySet(doc, SetDocument(body)).Keys == doc.Keys + (set k | k in MutableFields)
    ensures forall k :: k in MutableFields ==>
      ApplySet(doc, SetDocument(body))[k] == if k in body then body[k] else Null
    ensures forall k :: k in doc && k !in MutableFields ==>
      ApplySet(doc, SetDocument(body))[k] == doc[k]
  {
    var u := SetDocument(body);
    forall k | k in MutableFields
      ensures ApplySet(doc, u)[k] == if k in body then body[k] else Null
    {
      assert k in u.fields && u.fields[k] == Lookup(body, k);
    }
  }

  /** Where exactly one position carries the identifier, the id filter's first match is that position. */
  lemma FirstMatchById(parse: IdParser, id: string, c: Collection, regex: RegexMatcher, i: nat)
    requires parse(id).Some?
    requires i < |c| && HasId(c[i], parse(id).value)
    requires forall j :: 0 <= j < |c| && j != i ==> !HasId(c[j], parse(id).value)
    ensures FirstMatch(c, IdFilter(parse, id).value, regex) == Some(i)
  {
    IdFilterSelects(parse, id, c[i], regex);
    var r := FirstMatch(c, IdFilter(parse, id).value, regex);
    if r.Some? {
      IdFilterSelects(parse, id, c[r.value], regex);
    }
  }

  lemma NoMatchById(parse: IdParser, id: string, c: Collection, regex: RegexMatcher)
    requires parse(id).Some?
    requires IdUnused(c, parse(id).value)
    ensures FirstMatch(c, IdFilter(parse, id).value, regex) == None
  {
    var r := FirstMatch(c, IdFilter(parse, id).value, regex);
    if r.Some? {
      IdFilterSelects(parse, id, c[r.value], regex);
    }
  }

  /** Under unique identifiers, a record carrying an identifier is the only one that does. */
  lemma OnlyOneWithId(c: Collection, oid: ObjectId, i: nat)
    requires UniqueIds(c) && i < |c| && HasId(c[i], oid)
    ensures forall j :: 0 <= j < |c| && j != i ==> !HasId(c[j], oid)
  {
  }

  /** Replacing a record by one with the same `_id` keeps identifiers unique. */
  lemma ReplaceKeepsUniqueIds(c: Collection, i: nat, d: Document)
    requires UniqueIds(c) && i < |c|
    requires ("_id" in d) == ("_id" in c[i])
    requires "_id" in d ==> d["_id"] == c[i]["_id"]
    ensures UniqueIds(c[i := d])
  {
    var c' := c[i := d];
    forall a, b | 0 <= a < |c'| && 0 <= b < |c'| && "_id" in c'[a] && "_id" in c'[b]
        && c'[a]["_id"] == c'[b]["_id"]
      ensures a == b
    {
      assert "_id" in c[a] && c'[a]["_id"] == c[a]["_id"];
      assert "_id" in c[b] && c'[b]["_id"] == c[b]["_id"];
    }
  }

  /** `updateOne` with the id filter applies its update to the record with that id and to no other. */
  lemma ModifyById(parse: IdParser, id: string, u: Update, c: Collection, regex: RegexMatcher)
    requires parse(id).Some? && UniqueIds(c)
    requires "_id" !in u.fields
    ensures var c' := Modify(c, IdFilter(parse, id).value, u, regex);
      && |c'| == |c| && UniqueIds(c')
      && forall j :: 0 <= j < |c| ==> c'[j] == if HasId(c[j], parse(id).value) then ApplySet(c[j], u) else c[j]
  {
    var oid := parse(id).value;
    var c' := Modify(c, IdFilter(parse, id).value, u, regex);
    if i :| 0 <= i < |c| && HasId(c[i], oid) {
      OnlyOneWithId(c, oid, i);
      FirstMatchById(parse, id, c, regex, i);
      var d := ApplySet(c[i], u);
      assert c' == c[i := d];
      ReplaceKeepsUniqueIds(c, i, d);
    } else {
      NoMatchById(parse, id, c, regex);
    }
  }

  /**
   * Update by id changes only the record with that identifier, and that one
   * only by the `$set`; identifiers stay unique.
   */
  lemma UpdateById(parse: IdParser, id: string, body: Document, c: Collection,
                   newId: ObjectId, regex: RegexMatcher)
    requires parse(id).Some? && UniqueIds(c)
    ensures var c' := Perform(Handle(parse, UpdateToy(id, body)).value, c, newId, regex);
      && |c'| == |c| && UniqueIds(c')
      && forall j :: 0 <= j < |c| ==>
           c'[j] == if HasId(c[j], parse(id).value) then ApplySet(c[j], SetDocument(body)) else c[j]
  {
    var u := SetDocument(body);
    assert "_id" !in u.fields;
    IdHandlersShareFilter(parse, id, body);
    var f := IdFilter(parse, id).value;
    assert Perform(Handle(parse, UpdateToy(id, body)).value, c, newId, regex) == Modify(c, f, u, regex);
    ModifyById(parse, id, u, c, regex);
  }

  /** Removing one record keeps identifiers unique. */
  lemma RemoveKeepsUniqueIds(c: Collection, i: nat)
    requires UniqueIds(c) && i < |c|
    ensures |c[..i] + c[i + 1..]| == |c| - 1
    ensures UniqueIds(c[..i] + c[i + 1..])
  {
    var c' := c[..i] + c[i + 1..];
    forall a, b | 0 <= a < |c'| && 0 <= b < |c'| && "_id" in c'[a] && "_id" in c'[b]
        && c'[a]["_id"] == c'[b]["_id"]
      ensures a == b
    {
      var a0 := if a < i then a else a + 1;
      var b0 := if b < i then b else b + 1;
      assert c'[a] == c[a0] && c'[b] == c[b0];
    }
  }

  /** `deleteOne` with the id filter removes the record with that id, if any, and nothing else. */
  lemma RemoveById(parse: IdParser, id: string, c: Collection, regex: RegexMatcher)
    requires parse(id).Some? && UniqueIds(c)
    ensures var c' := Delete(c, IdFilter(parse, id).value, regex);
      && (IdUnused(c, parse(id).value) ==> c' == c)
      && (forall i :: 0 <= i < |c| && HasId(c[i], parse(id).value) ==> c' == c[..i] + c[i + 1..])
      && IdUnused(c', parse(id).value) && UniqueIds(c')
  {
    var oid := parse(id).value;
    var c' := Delete(c, IdFilter(parse, id).value, regex);
    if i :| 0 <= i < |c| && HasId(c[i], oid) {
      OnlyOneWithId(c, oid, i);
      FirstMatchById(parse, id, c, regex, i);
      assert c' == c[..i] + c[i + 1..];
      RemoveKeepsUniqueIds(c, i);
    } else {
      NoMatchById(parse, id, c, regex);
    }
  }

  /**
   * Delete by id removes the record with that identifier, if there is one,
   * and nothing else; deleting again changes nothing.
   */
  lemma DeleteById(parse: IdParser, id: string, c: Collection, newId: ObjectId, regex: RegexMatcher)
    requires parse(id).Some? && UniqueIds(c)
    ensures var call := Handle(parse, DeleteToy(id)).value;
      var c' := Perform(call, c, newId, regex);
      && (IdUnused(c, parse(id).value) ==> c' == c)
      && (forall i :: 0 <= i < |c| && HasId(c[i], parse(id).value) ==> c' == c[..i] + c[i + 1..])
      && IdUnused(c', parse(id).value) && UniqueIds(c')
      && Perform(call, c', newId, regex) == c'
  {
    var f := IdFilter(parse, id).value;
    IdHandlersShareFilter(parse, id, map[]);
    RemoveById(parse, id, c, regex);
    var c' := Delete(c, f, regex);
    NoMatchById(parse, id, c', regex);
  }

  /** Adding a body whose `_id` is missing or null stores it with the store's new identifier, keeping ids unique. */
  lemma AddThenDetails(parse: IdParser, idText: string, body: Document, c: Collection,
                       newId: ObjectId, regex: RegexMatcher)
    requires parse(idText) == Some(newId)
    requires NeedsId(body) && UniqueIds(c) && IdUnused(c, newId)
    ensures var c1 := Perform(Handle(parse, AddToy(body)).value, c, newId, regex);
      && c1 == c + [body["_id" := Id(newId)]]
      && UniqueIds(c1)
      && SelectOne(c1, Handle(parse, ToyDetails(idText)).value.filter, regex) == Some(body["_id" := Id(newId)])
  {
    var c1 := Perform(Handle(parse, AddToy(body)).value, c, newId, regex);
    var rec := body["_id" := Id(newId)];
    assert c1 == c + [rec];
    assert forall j :: 0 <= j < |c| ==> c1[j] == c[j];
    FirstMatchById(parse, idText, c1, regex, |c|);
  }

  /** Once the id filter selects a record, it selects that record with the update applied after `updateOne`. */
  lemma SelectAfterModify(parse: IdParser, id: string, u: Update, c: Collection,
                          regex: RegexMatcher, rec: Document)
    requires parse(id).Some? && UniqueIds(c) && "_id" !in u.fields
    requires SelectOne(c, IdFilter(parse, id).value, regex) == Some(rec)
    ensures var c' := Modify(c, IdFilter(parse, id).value, u, regex);
      && UniqueIds(c') && SelectOne(c', IdFilter(parse, id).value, regex) == Some(ApplySet(rec, u))
  {
    var oid := parse(id).value;
    var i := FirstMatch(c, IdFilter(parse, id).value, regex).value;
    IdFilterSelects(parse, id, c[i], regex);
    OnlyOneWithId(c, oid, i);
    ModifyById(parse, id, u, c, regex);
    var c' := Modify(c, IdFilter(parse, id).value, u, regex);
    assert c'[i] == ApplySet(rec, u);
    forall j | 0 <= j < |c'| && j != i ensures !HasId(c'[j], oid) {
      assert c'[j] == c[j];
    }
    FirstMatchById(parse, id, c', regex, i);
  }

  /** Once details finds a record by id, it finds that record with the `$set` applied after the update. */
  lemma DetailsAfterUpdate(parse: IdParser, id: string, patch: Document, c: Collection,
                           newId: ObjectId, regex: RegexMatcher, rec: Document)
    requires parse(id).Some? && UniqueIds(c)
    requires SelectOne(c, IdFilter(parse, id).value, regex) == Some(rec)
    ensures var c' := Perform(Handle(parse, UpdateToy(id, patch)).value, c, newId, regex);
      && UniqueIds(c')
      && SelectOne(c', IdFilter(parse, id).value, regex) == Some(ApplySet(rec, SetDocument(patch)))
  {
    var u := SetDocument(patch);
    assert "_id" !in u.fields;
    IdHandlersShareFilter(parse, id, patch);
    SelectAfterModify(parse, id, u, c, regex, rec);
  }

  /** After delete by id, details by that id finds nothing. */
  lemma DetailsAfterDelete(parse: IdParser, id: string, c: Collection, newId: ObjectId, regex: RegexMatcher)
    requires parse(id).Some? && UniqueIds(c)
    ensures SelectOne(Perform(Handle(parse, DeleteToy(id)).value, c, newId, regex),
                      IdFilter(parse, id).value, regex) == None
  {
    DeleteById(parse, id, c, newId, regex);
    NoMatchById(parse, id, Perform(Handle(parse, DeleteToy(id)).value, c, newId, regex), regex);
  }

  /**
   * The lifecycle of one toy: add it, read it back by the identifier the
   * store gave it, update it, read the update back, delete it, and find
   * nothing. The update leaves every field outside the six as added.
   */
  lemma ToyLifecycle(parse: IdParser, idText: string, body: Document, patch: Document,
                     c: Collection, newId: ObjectId, regex: RegexMatcher)
    requires parse(idText) == Some(newId)
    requires NeedsId(body) && UniqueIds(c) && IdUnused(c, newId)
    ensures
      var added := body["_id" := Id(newId)];
      var c1 := Perform(Handle(parse, AddToy(body)).value, c, newId, regex);
      var details := Handle(parse, ToyDetails(idText)).value.filter;
      var c2 := Perform(Handle(parse, UpdateToy(idText, patch)).value, c1, newId, regex);
      var c3 := Perform(Handle(parse, DeleteToy(idText)).value, c2, newId, regex);
      && SelectOne(c1, details, regex) == Some(added)
      && SelectOne(c2, details, regex) == Some(ApplySet(added, SetDocument(patch)))
      && (forall k :: k in added && k !in MutableFields ==> ApplySet(added, SetDocument(patch))[k] == added[k])
      && SelectOne(c3, details, regex) == None
  {
    var added := body["_id" := Id(newId)];
    var c1 := Perform(Handle(parse, AddToy(body)).value, c, newId, regex);
    AddThenDetails(parse, idText, body, c, newId, regex);
    DetailsAfterUpdate(parse, idText, patch, c1, newId, regex, added);
    var c2 := Perform(Handle(parse, UpdateToy(idText, patch)).value, c1, newId, regex);
    UpdateWritesSixFields(patch, added);
    DetailsAfterDelete(parse, idText, c2, newId, regex);
  }
}
