/**
 * `DomoDataService`: the document client. Each method builds one HTTP request
 * from its arguments and the client's base URL, and some interpret the
 * response status. The client is reached through a lazily created singleton.
 */
module AppDb {
  import opened JsValues
  import opened Http
  import opened Models
  import Text
  import AppDbCalls
  import AppDbCollections

  // ---------------------------------------------------------------------------
  // Bodies

  /** `{ content: d }`, the form the server expects a document in. */
  function Wrap(d: Value): (r: Value)
    ensures r.Obj? && r.fields.Keys == {"content"}
    ensures Unwrap(r) == d
  {
    Obj(map["content" := d])
  }

  /** The server's reading of a wrapped document: its `content`. */
  function Unwrap(v: Value): Value
  {
    if v.Obj? then Field(v.fields, "content") else Undefined
  }

  /** `documents.map(d => ({ content: d }))` */
  function WrapAll(documents: seq<Value>): (r: seq<Value>)
    ensures |r| == |documents|
    ensures forall i :: 0 <= i < |r| ==> r[i] == Wrap(documents[i]) && Unwrap(r[i]) == documents[i]
  {
    seq(|documents|, i requires 0 <= i < |documents| => Wrap(documents[i]))
  }

  /** The server's reading of a bulk body: the documents, in order. */
  function UnwrapAll(vs: seq<Value>): seq<Value>
  {
    seq(|vs|, i requires 0 <= i < |vs| => Unwrap(vs[i]))
  }

  lemma WrapAllRoundTrip(documents: seq<Value>)
    ensures UnwrapAll(WrapAll(documents)) == documents
  {
  }

  // ---------------------------------------------------------------------------
  // URLs

  function DocumentsUrl(base: string, collectionName: string): string
  {
    base + "/" + collectionName + "/documents"
  }

  function DocumentUrl(base: string, collectionName: string, documentId: string): string
  {
    DocumentsUrl(base, collectionName) + "/" + documentId
  }

  function BulkUrl(base: string, collectionName: string): string
  {
    DocumentsUrl(base, collectionName) + "/bulk"
  }

  /** `<base>/<c>/documents/bulk?ids=` followed by the ids joined with ','. */
  function DeleteDocumentsUrl(base: string, collectionName: string, recordIds: seq<string>): string
  {
    BulkUrl(base, collectionName) + "?ids=" + Text.Join(recordIds, ',')
  }

  /** The fixed segment of every document URL is a single piece. */
  lemma DocumentsSegment()
    ensures '/' !in "documents"
  {
    assert forall i :: 0 <= i < |"documents"| ==> "documents"[i] != '/';
  }

  /** A document URL is the base's segments, then the collection, "documents" and the id. */
  lemma DocumentUrlSegments(base: string, collectionName: string, documentId: string)
    requires '/' !in collectionName && '/' !in documentId
    ensures Text.Split(DocumentUrl(base, collectionName, documentId), '/') ==
      Text.Split(base, '/') + [collectionName, "documents", documentId]
  {
    DocumentsSegment();
    assert DocumentUrl(base, collectionName, documentId) ==
      base + ['/'] + collectionName + ['/'] + "documents" + ['/'] + documentId;
    Text.SplitThreeSegments(base, collectionName, "documents", documentId, '/');
  }

  /** Under one base, distinct slash-free collections or ids give distinct document URLs. */
  lemma DocumentUrlInjective(base: string, c1: string, id1: string, c2: string, id2: string)
    requires '/' !in c1 && '/' !in id1 && '/' !in c2 && '/' !in id2
    requires DocumentUrl(base, c1, id1) == DocumentUrl(base, c2, id2)
    ensures c1 == c2 && id1 == id2
  {
    DocumentUrlSegments(base, c1, id1);
    DocumentUrlSegments(base, c2, id2);
    var s1 := Text.Split(base, '/') + [c1, "documents", id1];
    var s2 := Text.Split(base, '/') + [c2, "documents", id2];
    assert s1 == s2;
    var n := |Text.Split(base, '/')|;
    assert s1[n] == c1 && s2[n] == c2;
    assert s1[n + 2] == id1 && s2[n + 2] == id2;
  }

  /** The `ids` query of a bulk delete reads back as the ids, in order, when none contains a comma. */
  lemma DeleteDocumentsIds(base: string, collectionName: string, recordIds: seq<string>)
    requires |recordIds| >= 1 && Text.SeparatorFree(recordIds, ',')
    ensures var prefix := BulkUrl(base, collectionName) + "?ids=";
      var url := DeleteDocumentsUrl(base, collectionName, recordIds);
      |prefix| <= |url| && url[..|prefix|] == prefix && Text.Split(url[|prefix|..], ',') == recordIds
  {
    var prefix := BulkUrl(base, collectionName) + "?ids=";
    var url := DeleteDocumentsUrl(base, collectionName, recordIds);
    assert url == prefix + Text.Join(recordIds, ',');
    assert url[|prefix|..] == Text.Join(recordIds, ',');
    Text.SplitJoin(recordIds, ',');
  }

  /** No ids: the query is `ids=` with nothing after it. */
  lemma DeleteNoDocuments(base: string, collectionName: string)
    ensures DeleteDocumentsUrl(base, collectionName, []) == BulkUrl(base, collectionName) + "?ids="
  {
  }

  // ---------------------------------------------------------------------------
  // Responses

  /** `response.ok`: the delete succeeded exactly when the status is in the 2xx range. */
  function DeleteDocumentResult(response: Response): (ok: bool)
    ensures ok <==> 200 <= response.status < 300
  {
    IsOk(response)
  }

  /**
   * The export request as the client writes it: a DELETE to the export
   * endpoint, which the collections module starts with a POST.
   */
  function ExportRequestAsWritten(): (r: Request)
    ensures r.verb == DELETE && r.url == AppDbCollections.ExportUrl && r.body == NoBody
  {
    Request(DELETE, AppDbCollections.ExportUrl, NoBody)
  }

  /** The client's `switch (response.status)` after the export request. */
  function ExportOutcome(response: Response): (r: Result<ManualExportStatus>)
    ensures r == Ok(ALREADY_IN_PROGRESS) <==> response.status == 423
    ensures r == Ok(STARTED) <==> response.status == 200
    ensures r.Throw? <==> response.status != 423 && response.status != 200
    ensures r.Throw? ==> r.message == response.statusText
  {
    match response.status
    case 423 => Ok(ALREADY_IN_PROGRESS)
    case 200 => Ok(STARTED)
    case _ => Throw(response.statusText)
  }

  /** Both export triggers read every response the same way. */
  lemma ExportOutcomesAgree(response: Response)
    ensures ExportOutcome(response) == AppDbCollections.SyncOutcome(response)
  {
  }

  /** The two export triggers address the same endpoint with different methods. */
  lemma ExportMethodsDisagree()
    ensures ExportRequestAsWritten().url == AppDbCollections.SyncRequest().url
    ensures ExportRequestAsWritten().verb != AppDbCollections.SyncRequest().verb
  {
  }

  /** What `doc.GetAppDbFormat()` throws when the document has no such method. */
  const NoFormatMethod: string := "TypeError: doc.GetAppDbFormat is not a function"

  class DomoDataService {
    var domoUrl: string

    constructor()
      ensures domoUrl == AppDbCollections.DomoUrl
    {
      domoUrl := AppDbCollections.DomoUrl;
    }

    function GetAllDocuments(collectionName: string): (r: Request)
      reads this
      ensures r.verb == GET && r.body == NoBody
      ensures r.url == DocumentsUrl(domoUrl, collectionName)
    {
      Request(GET, DocumentsUrl(domoUrl, collectionName), NoBody)
    }

    function GetDocument(collectionName: string, documentId: string): (r: Request)
      reads this
      ensures r.verb == GET && r.body == NoBody
      ensures r.url == DocumentUrl(domoUrl, collectionName, documentId)
    {
      Request(GET, DocumentUrl(domoUrl, collectionName, documentId), NoBody)
    }

    /** One POST for all documents: the same count, in the same order, each wrapped. */
    function CreateDocuments(collectionName: string, documents: seq<Value>): (r: Request)
      reads this
      ensures r.verb == POST && r.url == BulkUrl(domoUrl, collectionName)
      ensures r.body.JsonBody? && r.body.value.Arr? && UnwrapAll(r.body.value.items) == documents
      ensures |r.body.value.items| == |documents|
      ensures forall i :: 0 <= i < |documents| ==> r.body.value.items[i] == Wrap(documents[i])
    {
      WrapAllRoundTrip(documents);
      Request(POST, BulkUrl(domoUrl, collectionName), JsonBody(Arr(WrapAll(documents))))
    }

    /** POST to `<base>/<c>/documents/` (an empty last segment) of the wrapped document. */
    function CreateDocument(collectionName: string, document: Value): (r: Request)
      reads this
      ensures r.verb == POST && r.url == DocumentUrl(domoUrl, collectionName, "")
      ensures r.body == JsonBody(Wrap(document)) && Unwrap(r.body.value) == document
    {
      Request(POST, DocumentUrl(domoUrl, collectionName, ""), JsonBody(Wrap(document)))
    }

    /** As CreateDocument, for an entity: its format is sent, and the URL names its `collectionName`. */
    function CreateAppDbDocument(doc: Entity): (r: Result<Request>)
      reads this, doc
      ensures r.Throw? <==> doc.format.NoFormat?
      ensures r.Ok? ==>
        && r.value.verb == POST
        && r.value.url == DocumentUrl(domoUrl, TemplateString(Field(doc.fields, "collectionName")), "")
        && r.value.body == JsonBody(Wrap(doc.format.apply(doc.fields)))
        && Unwrap(r.value.body.value) == doc.format.apply(doc.fields)
    {
      match doc.format
      case NoFormat => Throw(NoFormatMethod)
      case Format(apply) =>
        var collectionName := TemplateString(Field(doc.fields, "collectionName"));
        Ok(Request(POST, DocumentUrl(domoUrl, collectionName, ""), JsonBody(Wrap(apply(doc.fields)))))
    }

    /**
     * PUT of the entity's format under its id. Only an undefined id is
     * refused; a null one is interpolated, so the URL ends in "/null".
     */
    function UpdateAppDbDocument(doc: Entity): (r: Result<Request>)
      reads this, doc
      ensures Field(doc.fields, "id") == Undefined ==> r == Throw(AppDbCalls.MissingDocumentId)
      ensures Field(doc.fields, "id") != Undefined && doc.format.NoFormat? ==> r == Throw(NoFormatMethod)
      ensures r.Ok? <==> Field(doc.fields, "id") != Undefined && doc.format.Format?
      ensures r.Ok? ==>
        && r.value.verb == PUT
        && r.value.url == DocumentUrl(domoUrl, TemplateString(Field(doc.fields, "collectionName")),
                                      TemplateString(Field(doc.fields, "id")))
        && r.value.body == JsonBody(Wrap(doc.format.apply(doc.fields)))
        && Unwrap(r.value.body.value) == doc.format.apply(doc.fields)
    {
      var id := Field(doc.fields, "id");
      if id == Undefined then Throw(AppDbCalls.MissingDocumentId)
      else
        match doc.format
        case NoFormat => Throw(NoFormatMethod)
        case Format(apply) =>
          var collectionName := TemplateString(Field(doc.fields, "collectionName"));
          Ok(Request(PUT, DocumentUrl(domoUrl, collectionName, TemplateString(id)), JsonBody(Wrap(apply(doc.fields)))))
    }

    function UpdateDocument(collectionName: string, recordId: string, document: Value): (r: Request)
      reads this
      ensures r.verb == PUT && r.url == DocumentUrl(domoUrl, collectionName, recordId)
      ensures r.body == JsonBody(Wrap(document)) && Unwrap(r.body.value) == document
    {
      Request(PUT, DocumentUrl(domoUrl, collectionName, recordId), JsonBody(Wrap(document)))
    }

    /** The documents already carry their envelopes, so the list is sent unchanged. */
    function UpsertDocuments(collectionName: string, documents: seq<Value>): (r: Request)
      reads this
      ensures r == Request(PUT, BulkUrl(domoUrl, collectionName), JsonBody(Arr(documents)))
    {
      Request(PUT, BulkUrl(domoUrl, collectionName), JsonBody(Arr(documents)))
    }

    function DeleteDocument(collectionName: string, recordId: string): (r: Request)
      reads this
      ensures r.verb == DELETE && r.body == NoBody
      ensures r.url == DocumentUrl(domoUrl, collectionName, recordId)
    {
      Request(DELETE, DocumentUrl(domoUrl, collectionName, recordId), NoBody)
    }

    /** One DELETE for all ids, carried in the query string. */
    function DeleteDocuments(collectionName: string, recordIds: seq<string>): (r: Request)
      reads this
      ensures r.verb == DELETE && r.body == NoBody
      ensures r.url == DeleteDocumentsUrl(domoUrl, collectionName, recordIds)
    {
      Request(DELETE, DeleteDocumentsUrl(domoUrl, collectionName, recordIds), NoBody)
    }

    /**
     * The corrected export trigger: a POST, as the collections module sends,
     * and the client's own reading of the response status.
     */
    function ManuallyExportSyncEnabledCollectionsToDatacenter(response: Response): (r: Exchange<ManualExportStatus>)
      ensures r.request.verb == POST && r.request.url == AppDbCollections.ExportUrl && r.request.body == NoBody
      ensures r.outcome == ExportOutcome(response)
    {
      Exchange(AppDbCollections.SyncRequest(), ExportOutcome(response))
    }

    function CreateCollection(collection: AppDbCollectionSchema): (r: Request)
      reads this
      ensures r.verb == POST && r.url == domoUrl + "/"
      ensures r.body.JsonBody? && SchemaFromJson(r.body.value) == Some(collection)
    {
      AppDbCollections.CreateCollectionRequest(domoUrl, collection)
    }

    function UpdateCollection(collection: AppDbCollectionSchema): (r: Request)
      reads this
      ensures r.verb == PUT && r.url == domoUrl + "/" + collection.name
      ensures r.body.JsonBody? && SchemaFromJson(r.body.value) == Some(collection)
    {
      AppDbCollections.UpdateCollectionRequest(domoUrl, collection)
    }
  }

  /** A null id is not refused: it is interpolated, and the document is put under "null". */
  lemma NullIdPasses(service: DomoDataService, doc: Entity)
    requires Field(doc.fields, "id") == Null && doc.format.Format?
    ensures service.UpdateAppDbDocument(doc).Ok?
    ensures service.UpdateAppDbDocument(doc).value.url ==
      DocumentUrl(service.domoUrl, TemplateString(Field(doc.fields, "collectionName")), "null")
  {
  }

  /** The class's static `instance` slot. */
  class ServiceRegistry {
    var instance: DomoDataService?

    constructor()
      ensures instance == null
    {
      instance := null;
    }

    /** `this.instance || (this.instance = new this())`: created on first access, the same object afterwards. */
    method Instance() returns (s: DomoDataService)
      modifies this
      ensures instance == s
      ensures old(instance) != null ==> s == old(instance)
      ensures old(instance) == null ==> fresh(s) && s.domoUrl == AppDbCollections.DomoUrl
    {
      if instance == null {
        instance := new DomoDataService();
      }
      s := instance;
    }
  }

  /** Two accesses return the same object, which was built at most once. */
  method TwoAccesses(registry: ServiceRegistry) returns (a: DomoDataService, b: DomoDataService)
    modifies registry
    ensures a == b
    ensures old(registry.instance) != null ==> a == old(registry.instance)
  {
    a := registry.Instance();
    b := registry.Instance();
  }
}
