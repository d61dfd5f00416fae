/**
 * `SvDomoAppDb`: the wrapper whose documents are plain objects. Reads flatten
 * each server document `{id, content}` into the content's own properties plus
 * `domoAppDbDocId`, the document id; writes take such flat objects back.
 */
module SvDomoAppDb {
  import opened JsValues
  import opened AppDbCalls

  const DocIdKey: string := "domoAppDbDocId"

  /** The two parts of a server document the wrapper reads. */
  datatype Envelope = Envelope(id: Value, content: Value)

  /** `{...v}`: the own properties an object spread contributes; null, undefined and other primitives contribute none. */
  function Spread(v: Value): map<string, Value>
  {
    if v.Obj? then v.fields else map[]
  }

  /** `{ ...doc.content, domoAppDbDocId: doc.id }` */
  function Flatten(doc: Envelope): (r: map<string, Value>)
    ensures DocIdKey in r && r[DocIdKey] == doc.id
    ensures forall k :: k != DocIdKey ==> Field(r, k) == Field(Spread(doc.content), k)
    ensures r.Keys == Spread(doc.content).Keys + {DocIdKey}
  {
    Spread(doc.content)[DocIdKey := doc.id]
  }

  /** Reading a flat record back into an envelope: the id, and the rest as content. */
  function Unflatten(r: map<string, Value>): Envelope
  {
    Envelope(Field(r, DocIdKey), Obj(r - {DocIdKey}))
  }

  /** Flattening is undone by Unflatten when the content is an object without a `domoAppDbDocId` of its own. */
  lemma UnflattenFlatten(doc: Envelope)
    requires doc.content.Obj? && DocIdKey !in doc.content.fields
    ensures Unflatten(Flatten(doc)) == doc
  {
    assert Flatten(doc) - {DocIdKey} == doc.content.fields;
  }

  /** A content field named `domoAppDbDocId` is overridden by the document id, and is lost. */
  lemma DocumentIdOverridesContent(content: map<string, Value>, contentId: Value, id: Value)
    requires content == map[DocIdKey := contentId]
    ensures Flatten(Envelope(id, Obj(content))) == map[DocIdKey := id]
  {
  }

  /** Flattening a list: one record per document, in order. */
  function FlattenAll(docs: seq<Envelope>): (r: seq<map<string, Value>>)
    ensures |r| == |docs|
    ensures forall i :: 0 <= i < |docs| ==> r[i] == Flatten(docs[i])
  {
    seq(|docs|, i requires 0 <= i < |docs| => Flatten(docs[i]))
  }

  /** The ids of a flattened list are the documents' ids, in order. */
  lemma FlattenAllIds(docs: seq<Envelope>)
    ensures forall i :: 0 <= i < |docs| ==> FlattenAll(docs)[i][DocIdKey] == docs[i].id
  {
  }

  /** One BulkDelete item: a string is pushed as it is, a record's `domoAppDbDocId` only when truthy. */
  function Contribution(item: Value): (r: Result<seq<Value>>)
    ensures item.Str? ==> r == Ok([item])
    ensures r.Throw? <==> Nullish(item)
    ensures item.Obj? ==>
      var id := Field(item.fields, DocIdKey);
      r == Ok(if Truthy(id) then [id] else [])
    ensures !item.Str? && !item.Obj? && !Nullish(item) ==> r == Ok([])
    ensures r.Ok? && !item.Str? ==> (r.value == [] || (|r.value| == 1 && Truthy(r.value[0])))
  {
    if item.Str? then Ok([item])
    else
      match Prop(item, DocIdKey)
      case Throw(e) => Throw(e)
      case Ok(id) => Ok(if Truthy(id) then [id] else [])
  }

  function RecordIds(items: seq<Value>): Result<seq<Value>>
  {
    CollectIds(items, Contribution)
  }

  /** The list BulkDelete sends is never longer than its input. */
  lemma RecordIdsBound(items: seq<Value>)
    requires RecordIds(items).Ok?
    ensures |RecordIds(items).value| <= |items|
  {
    CollectIdsBound(items, Contribution);
  }

  /** A record with a truthy `domoAppDbDocId` contributes exactly that id, in its place among the others. */
  lemma RecordWithIdKept(before: seq<Value>, fields: map<string, Value>, after: seq<Value>)
    requires Truthy(Field(fields, DocIdKey))
    requires RecordIds(before).Ok? && RecordIds(after).Ok?
    ensures RecordIds(before + [Obj(fields)] + after) ==
      Ok(RecordIds(before).value + [Field(fields, DocIdKey)] + RecordIds(after).value)
  {
    var r := [Obj(fields)];
    CollectIdsSnoc([], Obj(fields), Contribution);
    assert [] + r == r;
    assert CollectIds(r, Contribution) == Ok([] + [Field(fields, DocIdKey)]);
    CollectIdsAppend(before, r, Contribution);
    CollectIdsAppend(before + r, after, Contribution);
  }

  /** A record without a truthy `domoAppDbDocId` drops out, and the rest keep their order. */
  lemma RecordWithoutIdDropped(before: seq<Value>, fields: map<string, Value>, after: seq<Value>)
    requires !Truthy(Field(fields, DocIdKey))
    ensures RecordIds(before + [Obj(fields)] + after) == RecordIds(before + after)
  {
    var r := [Obj(fields)];
    CollectIdsSnoc([], Obj(fields), Contribution);
    assert [] + r == r;
    var none: seq<Value> := [];
    assert none + none == none;
    assert CollectIds(r, Contribution) == Ok([]);
    CollectIdsAppend(before, r, Contribution);
    CollectIdsAppend(before + r, after, Contribution);
    CollectIdsAppend(before, after, Contribution);
    match CollectIds(before, Contribution)
    case Throw(_) =>
    case Ok(x) => assert x + [] == x;
  }

  /** Records without an id drop out; strings and truthy ids keep their order. */
  lemma RecordIdsExample()
    ensures RecordIds([Str("a"), Obj(map[]), Obj(map[DocIdKey := Str("b")]), Str(""), Obj(map[DocIdKey := Null])])
      == Ok([Str("a"), Str("b"), Str("")])
  {
    var p0: seq<Value> := [];
    var p1 := p0 + [Str("a")];
    var p2 := p1 + [Obj(map[])];
    var p3 := p2 + [Obj(map[DocIdKey := Str("b")])];
    var p4 := p3 + [Str("")];
    var p5 := p4 + [Obj(map[DocIdKey := Null])];
    assert CollectIds(p0, Contribution) == Ok([]);
    CollectIdsSnoc(p0, Str("a"), Contribution);
    assert CollectIds(p1, Contribution) == Ok([Str("a")]);
    assert Contribution(Obj(map[])) == Ok([]);
    CollectIdsSnoc(p1, Obj(map[]), Contribution);
    assert [Str("a")] + [] == [Str("a")];
    assert CollectIds(p2, Contribution) == Ok([Str("a")]);
    assert Contribution(Obj(map[DocIdKey := Str("b")])) == Ok([Str("b")]);
    CollectIdsSnoc(p2, Obj(map[DocIdKey := Str("b")]), Contribution);
    assert [Str("a")] + [Str("b")] == [Str("a"), Str("b")];
    assert CollectIds(p3, Contribution) == Ok([Str("a"), Str("b")]);
    CollectIdsSnoc(p3, Str(""), Contribution);
    assert [Str("a"), Str("b")] + [Str("")] == [Str("a"), Str("b"), Str("")];
    assert CollectIds(p4, Contribution) == Ok([Str("a"), Str("b"), Str("")]);
    assert Contribution(Obj(map[DocIdKey := Null])) == Ok([]);
    CollectIdsSnoc(p4, Obj(map[DocIdKey := Null]), Contribution);
    assert [Str("a"), Str("b"), Str("")] + [] == [Str("a"), Str("b"), Str("")];
    assert p5 == [Str("a"), Obj(map[]), Obj(map[DocIdKey := Str("b")]), Str(""), Obj(map[DocIdKey := Null])];
  }

  class SvDomoAppDb {
    var collectionName: string
    var ParseDateStringsIntoDate: bool

    constructor(collectionName: string)
      ensures this.collectionName == collectionName
      ensures ParseDateStringsIntoDate
    {
      this.collectionName := collectionName;
      this.ParseDateStringsIntoDate := true;
    }

    /** Every read passes the current `ParseDateStringsIntoDate`. */
    function FetchAll(docs: seq<Envelope>): (r: Reply<seq<map<string, Value>>>)
      reads this
      ensures r.call == Call.FetchAll(collectionName, Given(ParseDateStringsIntoDate))
      ensures r.result == FlattenAll(docs)
    {
      Reply(Call.FetchAll(collectionName, Given(ParseDateStringsIntoDate)), FlattenAll(docs))
    }

    function FetchDoc(documentId: string, doc: Envelope): (r: Reply<map<string, Value>>)
      reads this
      ensures r.call == Call.FetchDoc(collectionName, documentId, Given(ParseDateStringsIntoDate))
      ensures r.result == Flatten(doc)
    {
      Reply(Call.FetchDoc(collectionName, documentId, Given(ParseDateStringsIntoDate)), Flatten(doc))
    }

    /** The content goes as it is; the created document comes back flattened. */
    function Create(content: Value, created: Envelope): (r: Reply<map<string, Value>>)
      reads this
      ensures r.call == Call.Create(collectionName, content, Given(ParseDateStringsIntoDate))
      ensures r.result == Flatten(created)
    {
      Reply(Call.Create(collectionName, content, Given(ParseDateStringsIntoDate)), Flatten(created))
    }

    /**
     * Fails when `domoAppDbDocId` is undefined or null; otherwise sends the
     * content unchanged, `domoAppDbDocId` included, under that id.
     */
    function Update(content: Value): (r: Issued)
      reads this
      ensures Nullish(content) ==> r.Fails?
      ensures !content.Obj? && !Nullish(content) ==> r == Fails(MissingDocumentId)
      ensures content.Obj? && Nullish(Field(content.fields, DocIdKey)) ==> r == Fails(MissingDocumentId)
      ensures content.Obj? && !Nullish(Field(content.fields, DocIdKey)) ==>
        r == Issues(Call.Update(collectionName, content.fields[DocIdKey], content))
    {
      match Prop(content, DocIdKey)
      case Throw(e) => Fails(e)
      case Ok(id) => if Nullish(id) then Fails(MissingDocumentId) else Issues(Call.Update(collectionName, id, content))
    }

    /** A string is the id as it is; anything else must carry a non-nullish `domoAppDbDocId`. */
    function Delete(recordToDelete: Value): (r: Issued)
      reads this
      ensures recordToDelete.Str? ==> r == Issues(Call.Delete(collectionName, recordToDelete))
      ensures Nullish(recordToDelete) ==> r.Fails?
      ensures !recordToDelete.Str? && !recordToDelete.Obj? && !Nullish(recordToDelete) ==> r == Fails(MissingDocumentId)
      ensures recordToDelete.Obj? ==>
        var id := Field(recordToDelete.fields, DocIdKey);
        r == if Nullish(id) then Fails(MissingDocumentId) else Issues(Call.Delete(collectionName, id))
      ensures r.Issues? ==> r.call.Delete? && !Nullish(r.call.documentId)
    {
      if recordToDelete.Str? then Issues(Call.Delete(collectionName, recordToDelete))
      else
        match Prop(recordToDelete, DocIdKey)
        case Throw(e) => Fails(e)
        case Ok(id) => if Nullish(id) then Fails(MissingDocumentId) else Issues(Call.Delete(collectionName, id))
    }

    function Upsert(content: Value): (r: Issued)
      ensures r == Fails(NotYetImplemented)
    {
      Fails(NotYetImplemented)
    }

    /** The documents are forwarded unchanged. */
    function BulkUpsert(docs: seq<Value>): (r: Issued)
      reads this
      ensures r == Issues(Call.BulkUpsert(collectionName, docs))
    {
      Issues(Call.BulkUpsert(collectionName, docs))
    }

    /** Gathers the ids in a loop and makes a single call with all of them. */
    method BulkDelete(recordsToDelete: seq<Value>) returns (r: Issued)
      ensures RecordIds(recordsToDelete).Throw? ==> r == Fails(RecordIds(recordsToDelete).message)
      ensures RecordIds(recordsToDelete).Ok? ==> r == Issues(Call.BulkDelete(collectionName, RecordIds(recordsToDelete).value))
    {
      var recordIds: seq<Value> := [];
      var i := 0;
      while i < |recordsToDelete|
        invariant 0 <= i <= |recordsToDelete|
        invariant CollectIds(recordsToDelete[..i], Contribution) == Ok(recordIds)
      {
        var item := recordsToDelete[i];
        assert recordsToDelete[..i + 1][..i] == recordsToDelete[..i];
        if item.Str? {
          recordIds := recordIds + [item];
        } else {
          var id := Prop(item, DocIdKey);
          if id.Throw? {
            assert CollectIds(recordsToDelete[..i + 1], Contribution) == Throw(id.message);
            CollectIdsAppend(recordsToDelete[..i + 1], recordsToDelete[i + 1..], Contribution);
            assert recordsToDelete[..i + 1] + recordsToDelete[i + 1..] == recordsToDelete;
            return Fails(id.message);
          }
          if Truthy(id.value) {
            recordIds := recordIds + [id.value];
          } else {
            assert recordIds + [] == recordIds;
          }
        }
        i := i + 1;
      }
      assert recordsToDelete[..i] == recordsToDelete;
      r := Issues(Call.BulkDelete(collectionName, recordIds));
    }

    function Query(query: Value, found: seq<Envelope>): (r: Reply<seq<map<string, Value>>>)
      reads this
      ensures r.call == Call.Query(collectionName, query, Given(ParseDateStringsIntoDate))
      ensures r.result == FlattenAll(found)
    {
      Reply(Call.Query(collectionName, query, Given(ParseDateStringsIntoDate)), FlattenAll(found))
    }

    function QueryAggregation(query: Value, aggregationParams: Value): (r: Call)
      reads this
      ensures r == Call.QueryAggregation(collectionName, query, aggregationParams, Given(ParseDateStringsIntoDate))
    {
      Call.QueryAggregation(collectionName, query, aggregationParams, Given(ParseDateStringsIntoDate))
    }

    /** The one call that does not pass the date flag. */
    function UpdateWhere(query: Value, operation: Value): (r: Call)
      reads this
      ensures r == Call.UpdateWhere(collectionName, query, operation)
    {
      Call.UpdateWhere(collectionName, query, operation)
    }
  }
}
