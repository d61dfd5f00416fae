/**
 * Collection management: creating, updating and deleting a collection, and
 * starting a sync of the sync-enabled collections to the Domo Datacenter.
 */
module AppDbCollections {
  import opened JsValues
  import opened Http
  import opened Models
  import Text

  /** The base of every collection URL. */
  const DomoUrl: string := "/domo/datastores/v1/collections"
  const ExportUrl: string := "/domo/datastores/v1/export"

  /** POST of the schema, as it is, to `<base>/`. */
  function CreateCollectionRequest(base: string, collection: AppDbCollectionSchema): (r: Request)
    ensures r.verb == POST && r.url == base + "/"
    ensures r.body.JsonBody? && SchemaFromJson(r.body.value) == Some(collection)
  {
    SchemaRoundTrip(collection);
    Request(POST, base + "/", JsonBody(SchemaToJson(collection)))
  }

  /** PUT of the schema, as it is, to `<base>/<collection.name>`. */
  function UpdateCollectionRequest(base: string, collection: AppDbCollectionSchema): (r: Request)
    ensures r.verb == PUT && r.url == base + "/" + collection.name
    ensures r.body.JsonBody? && SchemaFromJson(r.body.value) == Some(collection)
  {
    SchemaRoundTrip(collection);
    Request(PUT, base + "/" + collection.name, JsonBody(SchemaToJson(collection)))
  }

  function CreateCollection(collection: AppDbCollectionSchema): Request
  {
    CreateCollectionRequest(DomoUrl, collection)
  }

  function UpdateCollection(collection: AppDbCollectionSchema): Request
  {
    UpdateCollectionRequest(DomoUrl, collection)
  }

  /** DELETE of `<base>/<collectionName>`, without a body. */
  function DeleteCollection(collectionName: string): (r: Request)
    ensures r.verb == DELETE && r.body == NoBody
    ensures r.url == DomoUrl + "/" + collectionName
  {
    Request(DELETE, DomoUrl + "/" + collectionName, NoBody)
  }

  /**
   * The collection URLs add the collection name as one last path segment
   * after those of DomoUrl (creation adds an empty one), so distinct names
   * give distinct URLs.
   */
  lemma CollectionUrlSegments(collection: AppDbCollectionSchema)
    requires '/' !in collection.name
    ensures Text.Split(CreateCollection(collection).url, '/') == Text.Split(DomoUrl, '/') + [""]
    ensures Text.Split(UpdateCollection(collection).url, '/') == Text.Split(DomoUrl, '/') + [collection.name]
    ensures Text.Split(DeleteCollection(collection.name).url, '/') == Text.Split(DomoUrl, '/') + [collection.name]
  {
    Text.SplitAround(DomoUrl, "", '/');
    Text.SplitAround(DomoUrl, collection.name, '/');
    Text.SplitNoSeparator(collection.name, '/');
    Text.SplitNoSeparator("", '/');
    assert DomoUrl + "/" == DomoUrl + ['/'] + "";
  }

  /** Updates of two collections go to the same URL only when the names agree. */
  lemma {:induction false} UpdateUrlInjective(a: AppDbCollectionSchema, b: AppDbCollectionSchema)
    ensures UpdateCollection(a).url == UpdateCollection(b).url <==> a.name == b.name
  {
    var p := DomoUrl + "/";
    if UpdateCollection(a).url == UpdateCollection(b).url {
      assert p + a.name == p + b.name;
      assert a.name == (p + a.name)[|p|..];
      assert b.name == (p + b.name)[|p|..];
    }
  }

  /** DeleteCollection resolves to undefined, whatever the status. */
  function DeleteCollectionResult(response: Response): (r: Value)
    ensures r == Undefined
  {
    Undefined
  }

  /** The sync is started with a POST to the export endpoint. */
  function SyncRequest(): (r: Request)
    ensures r == Request(POST, ExportUrl, NoBody)
  {
    Request(POST, ExportUrl, NoBody)
  }

  /** 423 (Locked): a sync is already running; 200: started; any other status: an Error carrying the status text. */
  function SyncOutcome(response: Response): (r: Result<ManualExportStatus>)
    ensures r == Ok(ALREADY_IN_PROGRESS) <==> response.status == 423
    ensures r == Ok(STARTED) <==> response.status == 200
    ensures r.Throw? <==> response.status != 423 && response.status != 200
    ensures r.Throw? ==> r.message == response.statusText
  {
    if response.status == 423 then Ok(ALREADY_IN_PROGRESS)
    else if response.status == 200 then Ok(STARTED)
    else Throw(response.statusText)
  }

  /** Other success codes are errors too: 201 and 204 are not 200. */
  lemma OnlyTwoHundredStarts(statusText: string)
    ensures SyncOutcome(Response(201, statusText)) == Throw(statusText)
    ensures SyncOutcome(Response(204, statusText)).Throw? && IsOk(Response(204, statusText))
  {
  }
}
