/**
 * `DomoAppDb`: the opinionated wrapper whose documents are instances of a
 * user class. An instance may define `GetAppDbFormat`, which gives the value to
 * store; the wrapper drops `collectionName` from what it stores, deleting the
 * property in place on whatever object it sends.
 */
module DomoDb {
  import opened JsValues
  import opened AppDbCalls
  import opened Models

  const CollectionNameKey: string := "collectionName"
  const IdKey: string := "id"

  /**
   * The user's collection class: the `collectionName` a fresh instance carries,
   * the properties `new C(doc)` gives an instance built from a server document,
   * and the format method of its instances.
   */
  datatype CollectionClass = CollectionClass(
    instanceCollectionName: string,
    hydrate: Value -> map<string, Value>,
    format: Format)

  /** A record given to Delete or BulkDelete: a document id, or an instance's properties and format. */
  datatype Item = IdText(s: string) | Record(fields: map<string, Value>, format: Format)

  // ---------------------------------------------------------------------------
  // What is sent

  /** `content.GetAppDbFormat?.()`: the method's result, or undefined when there is none. */
  function FormatResult(format: Format, fields: map<string, Value>): Value
  {
    match format
    case NoFormat => Undefined
    case Format(f) => f(fields)
  }

  /** `content.GetAppDbFormat?.() ?? content` is the instance itself. */
  predicate SendsItself(format: Format, fields: map<string, Value>)
  {
    Nullish(FormatResult(format, fields))
  }

  /** `content.GetAppDbFormat?.() ?? content`, with the instance standing for itself. */
  function Formatted(format: Format, fields: map<string, Value>): (r: Value)
    ensures SendsItself(format, fields) ==> r == Obj(fields)
    ensures !SendsItself(format, fields) ==> r == FormatResult(format, fields) && !Nullish(r)
  {
    Coalesce(FormatResult(format, fields), Obj(fields))
  }

  /** `delete v.collectionName`: an object loses that one property; on a primitive it does nothing. */
  function Strip(v: Value): (r: Value)
    ensures v.Obj? ==> r.Obj? && CollectionNameKey !in r.fields
    ensures v.Obj? ==> forall k :: k != CollectionNameKey ==> Field(r.fields, k) == Field(v.fields, k)
    ensures v.Obj? ==> r.fields.Keys == v.fields.Keys - {CollectionNameKey}
    ensures !v.Obj? ==> r == v
  {
    if v.Obj? then Obj(v.fields - {CollectionNameKey}) else v
  }

  /** What Create and Update send, and the properties the caller's instance is left with. */
  datatype Prepared = Prepared(sent: Value, kept: map<string, Value>)

  /**
   * Format, then delete `collectionName` from the result. When the instance is
   * sent itself, the deletion happens on the caller's instance; otherwise the
   * instance is untouched.
   */
  function Prepare(format: Format, fields: map<string, Value>): (p: Prepared)
    ensures p.sent == Strip(Formatted(format, fields))
    ensures SendsItself(format, fields) ==> p.sent == Obj(p.kept) && p.kept == fields - {CollectionNameKey}
    ensures !SendsItself(format, fields) ==> p.kept == fields
  {
    var sent := Strip(Formatted(format, fields));
    if SendsItself(format, fields) then Prepared(sent, sent.fields) else Prepared(sent, fields)
  }

  /** `if (d.collectionName) delete d.collectionName` on properties. */
  function StripIfTruthy(m: map<string, Value>): (r: map<string, Value>)
    ensures !Truthy(Field(r, CollectionNameKey))
    ensures forall k :: k != CollectionNameKey ==> Field(r, k) == Field(m, k)
    ensures Truthy(Field(m, CollectionNameKey)) ==> CollectionNameKey !in r
    ensures !Truthy(Field(m, CollectionNameKey)) ==> r == m
  {
    if Truthy(Field(m, CollectionNameKey)) then m - {CollectionNameKey} else m
  }

  /** The same, on any value: primitives have no such property. */
  function StripValueIfTruthy(v: Value): Value
  {
    if v.Obj? then Obj(StripIfTruthy(v.fields)) else v
  }

  /** Deleting twice is deleting once, which is what lets an instance occur twice in BulkUpsert. */
  lemma StripIfTruthyIdempotent(m: map<string, Value>)
    ensures StripIfTruthy(StripIfTruthy(m)) == StripIfTruthy(m)
  {
  }

  /**
   * Create and Update delete `collectionName` whatever it holds, BulkUpsert only
   * when it is truthy: an empty collection name is stored by BulkUpsert alone.
   */
  lemma EmptyCollectionNameKeptOnlyByBulkUpsert(m: map<string, Value>)
    requires Field(m, CollectionNameKey) == Str("")
    ensures CollectionNameKey !in Prepare(NoFormat, m).sent.fields
    ensures StripIfTruthy(m)[CollectionNameKey] == Str("")
  {
  }

  /**
   * The id a record contributes to BulkDelete: `GetAppDbFormat?.().id ?? id`.
   * The format's own `id` wins unless it is nullish; a format that is not an
   * object has no `id`; a format method returning nullish throws.
   */
  function RecordId(format: Format, fields: map<string, Value>): (r: Result<Value>)
    ensures format.NoFormat? ==> r == Ok(Field(fields, IdKey))
    ensures format.Format? && Nullish(format.apply(fields)) ==> r.Throw?
    ensures format.Format? && format.apply(fields).Obj? ==>
      r == Ok(Coalesce(Field(format.apply(fields).fields, IdKey), Field(fields, IdKey)))
    ensures format.Format? && !Nullish(format.apply(fields)) && !format.apply(fields).Obj? ==>
      r == Ok(Field(fields, IdKey))
  {
    match format
    case NoFormat => Ok(Field(fields, IdKey))
    case Format(f) =>
      match Prop(f(fields), IdKey)
      case Throw(e) => Throw(e)
      case Ok(x) => Ok(Coalesce(x, Field(fields, IdKey)))
  }

  /** One BulkDelete item: a string is pushed as it is, a record's id only when truthy. */
  function Contribution(item: Item): (r: Result<seq<Value>>)
    ensures item.IdText? ==> r == Ok([Str(item.s)])
    ensures item.Record? && RecordId(item.format, item.fields).Throw? ==>
      r == Throw(RecordId(item.format, item.fields).message)
    ensures item.Record? && RecordId(item.format, item.fields).Ok? ==>
      var id := RecordId(item.format, item.fields).value;
      r == Ok(if Truthy(id) then [id] else [])
    ensures r.Ok? && item.Record? ==> (r.value == [] || (|r.value| == 1 && Truthy(r.value[0])))
  {
    match item
    case IdText(s) => Ok([Str(s)])
    case Record(fields, format) =>
      match RecordId(format, fields)
      case Throw(e) => Throw(e)
      case Ok(id) => Ok(if Truthy(id) then [id] else [])
  }

  /** The ids BulkDelete gathers, or the error that stops it. */
  function RecordIds(items: seq<Item>): Result<seq<Value>>
  {
    CollectIds(items, Contribution)
  }

  /** Strings go through verbatim, the empty string included. */
  lemma {:induction false} StringsVerbatim(ids: seq<string>)
    ensures RecordIds(seq(|ids|, i requires 0 <= i < |ids| => IdText(ids[i])))
      == Ok(seq(|ids|, i requires 0 <= i < |ids| => Str(ids[i])))
    decreases |ids|
  {
    var items := seq(|ids|, i requires 0 <= i < |ids| => IdText(ids[i]));
    var strs := seq(|ids|, i requires 0 <= i < |ids| => Str(ids[i]));
    if |ids| > 0 {
      var init := ids[..|ids| - 1];
      var initItems := seq(|init|, i requires 0 <= i < |init| => IdText(init[i]));
      var initStrs := seq(|init|, i requires 0 <= i < |init| => Str(init[i]));
      StringsVerbatim(init);
      assert items == initItems + [IdText(ids[|ids| - 1])];
      CollectIdsSnoc(initItems, IdText(ids[|ids| - 1]), Contribution);
      assert strs == initStrs + [Str(ids[|ids| - 1])];
    }
  }

  /** The list BulkDelete sends is never longer than its input. */
  lemma RecordIdsBound(items: seq<Item>)
    requires RecordIds(items).Ok?
    ensures |RecordIds(items).value| <= |items|
  {
    CollectIdsBound(items, Contribution);
  }

  /**
   * A record whose RecordId is falsy is dropped, and the rest keep their order.
   * With a hook, the hook's `id` decides, even over a truthy id of the record's own.
   */
  lemma RecordWithoutIdDropped(before: seq<Item>, fields: map<string, Value>, format: Format, after: seq<Item>)
    requires RecordId(format, fields).Ok? && !Truthy(RecordId(format, fields).value)
    ensures RecordIds(before + [Record(fields, format)] + after) == RecordIds(before + after)
  {
    var r := [Record(fields, format)];
    assert CollectIds(r, Contribution) == Ok([]) by {
      assert r[..|r| - 1] == [];
      assert Contribution(r[|r| - 1]) == Ok([]);
      assert CollectIds(r[..|r| - 1], Contribution) == Ok([]);
      var none: seq<Value> := [];
      assert none + none == none;
    }
    CollectIdsAppend(before, r, Contribution);
    CollectIdsAppend(before + r, after, Contribution);
    CollectIdsAppend(before, after, Contribution);
    match CollectIds(before, Contribution)
    case Throw(_) =>
    case Ok(x) => assert x + [] == x;
  }

  /** A record whose id is truthy contributes exactly that id, in its place among the others. */
  lemma RecordWithIdKept(before: seq<Item>, fields: map<string, Value>, format: Format, after: seq<Item>)
    requires RecordId(format, fields).Ok? && Truthy(RecordId(format, fields).value)
    requires RecordIds(before).Ok? && RecordIds(after).Ok?
    ensures RecordIds(before + [Record(fields, format)] + after) ==
      Ok(RecordIds(before).value + [RecordId(format, fields).value] + RecordIds(after).value)
  {
    var id := RecordId(format, fields).value;
    var r := [Record(fields, format)];
    CollectIdsSnoc([], Record(fields, format), Contribution);
    assert [] + r == r;
    assert CollectIds(r, Contribution) == Ok([] + [id]);
    CollectIdsAppend(before, r, Contribution);
    CollectIdsAppend(before + r, after, Contribution);
  }

  /** A hook returning `{id: ""}` drops a record whose own id is "x": `"" ?? "x"` is "". */
  lemma HookEmptyIdDrops()
    ensures RecordIds([Record(map[IdKey := Str("x")], Format(_ => Obj(map[IdKey := Str("")])))]) == Ok([])
  {
    var fields := map[IdKey := Str("x")];
    var format := Format(_ => Obj(map[IdKey := Str("")]));
    assert RecordId(format, fields) == Ok(Str(""));
    RecordWithoutIdDropped([], fields, format, []);
    assert [] + [Record(fields, format)] + [] == [Record(fields, format)];
  }

  /** A format method that returns nullish makes BulkDelete throw before any call. */
  lemma NullishFormatThrows(items: seq<Item>, i: int)
    requires 0 <= i < |items| && items[i].Record? && items[i].format.Format?
    requires Nullish(items[i].format.apply(items[i].fields))
    ensures RecordIds(items).Throw?
  {
    CollectIdsFails(items, Contribution);
  }

  // ---------------------------------------------------------------------------
  // The wrapper

  class DomoAppDb {
    var collectionName: string
    const collectionClass: CollectionClass

    /** `collectionName` is taken from a fresh instance of the class. */
    constructor(collectionClass: CollectionClass)
      ensures this.collectionClass == collectionClass
      ensures collectionName == collectionClass.instanceCollectionName
    {
      this.collectionClass := collectionClass;
      this.collectionName := collectionClass.instanceCollectionName;
    }

    /** One instance per server document, in server order. */
    function FetchAll(docs: seq<Value>): (r: Reply<seq<map<string, Value>>>)
      reads this
      ensures r.call == Call.FetchAll(collectionName, Omitted)
      ensures |r.result| == |docs|
      ensures forall i :: 0 <= i < |docs| ==> r.result[i] == collectionClass.hydrate(docs[i])
    {
      Reply(Call.FetchAll(collectionName, Omitted), seq(|docs|, i requires 0 <= i < |docs| => collectionClass.hydrate(docs[i])))
    }

    function FetchDoc(documentId: string, doc: Value): (r: Reply<map<string, Value>>)
      reads this
      ensures r.call == Call.FetchDoc(collectionName, documentId, Omitted)
      ensures r.result == collectionClass.hydrate(doc)
    {
      Reply(Call.FetchDoc(collectionName, documentId, Omitted), collectionClass.hydrate(doc))
    }

    /** Sends the prepared content; the server's document is hydrated into the result. */
    method Create(content: Entity, created: Value) returns (r: Reply<map<string, Value>>)
      modifies content
      ensures r.call == Call.Create(collectionName, Prepare(content.format, old(content.fields)).sent, Omitted)
      ensures content.fields == Prepare(content.format, old(content.fields)).kept
      ensures r.result == collectionClass.hydrate(created)
    {
      var docContent := Formatted(content.format, content.fields);
      var sent := Strip(docContent);
      if SendsItself(content.format, content.fields) {
        content.fields := content.fields - {CollectionNameKey};
      }
      r := Reply(Call.Create(collectionName, sent, Omitted), collectionClass.hydrate(created));
    }

    /** Fails before formatting when `id` is undefined or null; otherwise as Create, under that id. */
    method Update(content: Entity) returns (r: Issued)
      modifies content
      ensures Nullish(Field(old(content.fields), IdKey)) ==>
        r == Fails(MissingDocumentId) && content.fields == old(content.fields)
      ensures !Nullish(Field(old(content.fields), IdKey)) ==>
        && r == Issues(Call.Update(collectionName, Field(old(content.fields), IdKey), Prepare(content.format, old(content.fields)).sent))
        && content.fields == Prepare(content.format, old(content.fields)).kept
    {
      var id := Field(content.fields, IdKey);
      if Nullish(id) {
        return Fails(MissingDocumentId);
      }
      var docContent := Formatted(content.format, content.fields);
      var sent := Strip(docContent);
      if SendsItself(content.format, content.fields) {
        content.fields := content.fields - {CollectionNameKey};
      }
      r := Issues(Call.Update(collectionName, Field(content.fields, IdKey), sent));
    }

    /** A string is the id as it is; a record must carry a non-nullish `id`. */
    function Delete(recordToDelete: Item): (r: Issued)
      reads this
      ensures recordToDelete.IdText? ==> r == Issues(Call.Delete(collectionName, Str(recordToDelete.s)))
      ensures recordToDelete.Record? ==>
        var id := Field(recordToDelete.fields, IdKey);
        r == if Nullish(id) then Fails(MissingDocumentId) else Issues(Call.Delete(collectionName, id))
    {
      match recordToDelete
      case IdText(s) => Issues(Call.Delete(collectionName, Str(s)))
      case Record(fields, _) =>
        var id := Field(fields, IdKey);
        if Nullish(id) then Fails(MissingDocumentId) else Issues(Call.Delete(collectionName, id))
    }

    function Upsert(content: Value): (r: Issued)
      ensures r == Fails(NotYetImplemented)
    {
      Fails(NotYetImplemented)
    }

    /**
     * Formats every document first, then deletes a truthy `collectionName` from
     * each formatted value, in place on the instances sent as themselves. The
     * list sent has one entry per input, in input order.
     */
    method BulkUpsert(docs: seq<Entity>) returns (r: Issued)
      modifies set e | e in docs
      ensures r.Issues? && r.call.BulkUpsert? && r.call.collection == collectionName
      ensures |r.call.docs| == |docs|
      ensures forall i :: 0 <= i < |docs| ==>
        r.call.docs[i] == StripValueIfTruthy(Formatted(docs[i].format, old(docs[i].fields)))
      ensures forall i :: 0 <= i < |docs| ==>
        docs[i].fields == if SendsItself(docs[i].format, old(docs[i].fields)) then StripIfTruthy(old(docs[i].fields)) else old(docs[i].fields)
    {
      // docs.map((d) => d.GetAppDbFormat?.() ?? d): a nullish result marks an instance standing for itself
      var made: seq<Value> := [];
      var i := 0;
      while i < |docs|
        invariant 0 <= i <= |docs| && |made| == i
        invariant forall j :: 0 <= j < i ==> made[j] == FormatResult(docs[j].format, docs[j].fields)
      {
        var m := FormatResult(docs[i].format, docs[i].fields);
        made := made + [m];
        i := i + 1;
      }
      // docsToUpsert.forEach(delete a truthy collectionName)
      i := 0;
      while i < |docs|
        invariant 0 <= i <= |docs|
        invariant forall j :: 0 <= j < |docs| ==> made[j] == FormatResult(docs[j].format, old(docs[j].fields))
        invariant forall j :: 0 <= j < |docs| && !Nullish(made[j]) ==> docs[j].fields == old(docs[j].fields)
        invariant forall j :: 0 <= j < |docs| && Nullish(made[j]) ==>
          docs[j].fields == old(docs[j].fields) || docs[j].fields == StripIfTruthy(old(docs[j].fields))
        invariant forall j :: 0 <= j < i && Nullish(made[j]) ==> docs[j].fields == StripIfTruthy(old(docs[j].fields))
      {
        if Nullish(made[i]) && Truthy(Field(docs[i].fields, CollectionNameKey)) {
          docs[i].fields := docs[i].fields - {CollectionNameKey};
        }
        i := i + 1;
      }
      var sent := seq(|docs|, j requires 0 <= j < |docs| reads set e | e in docs =>
        if Nullish(made[j]) then Obj(docs[j].fields) else StripValueIfTruthy(made[j]));
      r := Issues(Call.BulkUpsert(collectionName, sent));
    }

    /** Gathers the ids in a loop and makes a single call with all of them. */
    method BulkDelete(recordsToDelete: seq<Item>) returns (r: Issued)
      ensures RecordIds(recordsToDelete).Throw? ==> r == Fails(RecordIds(recordsToDelete).message)
      ensures RecordIds(recordsToDelete).Ok? ==> r == Issues(Call.BulkDelete(collectionName, RecordIds(recordsToDelete).value))
    {
      var recordIds: seq<Value> := [];
      var i := 0;
      while i < |recordsToDelete|
        invariant 0 <= i <= |recordsToDelete|
        invariant CollectIds(recordsToDelete[..i], Contribution) == Ok(recordIds)
      {
        var item := recordsToDelete[i];
        assert recordsToDelete[..i + 1][..i] == recordsToDelete[..i];
        if item.IdText? {
          recordIds := recordIds + [Str(item.s)];
        } else {
          var id := RecordId(item.format, item.fields);
          if id.Throw? {
            assert CollectIds(recordsToDelete[..i + 1], Contribution) == Throw(id.message);
            CollectIdsAppend(recordsToDelete[..i + 1], recordsToDelete[i + 1..], Contribution);
            assert recordsToDelete[..i + 1] + recordsToDelete[i + 1..] == recordsToDelete;
            return Fails(id.message);
          }
          if Truthy(id.value) {
            recordIds := recordIds + [id.value];
          } else {
            assert recordIds + [] == recordIds;
          }
        }
        i := i + 1;
      }
      assert recordsToDelete[..i] == recordsToDelete;
      r := Issues(Call.BulkDelete(collectionName, recordIds));
    }

    /** One instance per document found, in server order. */
    function Query(query: Value, found: seq<Value>): (r: Reply<seq<map<string, Value>>>)
      reads this
      ensures r.call == Call.Query(collectionName, query, Omitted)
      ensures |r.result| == |found|
      ensures forall i :: 0 <= i < |found| ==> r.result[i] == collectionClass.hydrate(found[i])
    {
      Reply(Call.Query(collectionName, query, Omitted), seq(|found|, i requires 0 <= i < |found| => collectionClass.hydrate(found[i])))
    }

    function QueryAggregation(query: Value, aggregationParams: Value): (r: Call)
      reads this
      ensures r == Call.QueryAggregation(collectionName, query, aggregationParams, Omitted)
    {
      Call.QueryAggregation(collectionName, query, aggregationParams, Omitted)
    }

    function UpdateWhere(query: Value, operation: Value): (r: Call)
      reads this
      ensures r == Call.UpdateWhere(collectionName, query, operation)
    {
      Call.UpdateWhere(collectionName, query, operation)
    }
  }
}
