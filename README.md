# domoappdb, modelled in Dafny

domoappdb is a TypeScript client for Domo's AppDb document store, as seen
from inside a Domo app. Most of it passes requests through to `fetch`. This
project models the logic that runs before a request is sent and after a
response arrives, and proves properties of it:

- **`jsonDateReviver`** is the reviver the library hands to `JSON.parse`. A
  string that matches an anchored ISO 8601 date/time pattern becomes a Date;
  every other value is returned as it is. The pattern is transcribed as a
  regular-expression term, `JsonDateParsing.IsoPattern`, with an
  anchored-language semantics in `Patterns`. A hand-written character
  matcher, `JsonDateParsing.MatchIso`, is proven to accept exactly the same
  strings. The Date is kept only as a tag, `Revived(text)`.
- **`isAppDbDoc`** is the type guard that tells a server document from a bare
  value.
- **`DomoAppDb` and `SvDomoAppDb`** are the two typed wrappers over the
  `AppDb` helper. The model covers:
  - id validation before any call;
  - the formatting hook and the in-place deletion of `collectionName`;
  - the `forEach`/`push` loops that gather bulk-delete ids;
  - the flattening of `{id, content}` into `{...content, domoAppDbDocId}`.

  Each operation is described by the one `AppDb` call it makes or by the
  error it throws first (`AppDbCalls.Issued`).
- **`DomoDataService`** is the document client, reached through its lazily
  created singleton. The model covers the URLs, methods and bodies it builds,
  and its reading of response statuses. Alongside it are the collection
  functions of `appDbCollections.ts` and the collection-level security
  requests.

JavaScript values are a datatype `JsValues.Value` that includes `undefined`.
A property that is absent reads as `undefined`. Reading a property of
`undefined` or `null` throws, and the model carries that as `Result.Throw`.

The files:

- `text.dfy`: joining and splitting on a separator character.
- `js_values.dfy`: values, property reads, truthiness, template
  interpolation.
- `http.dfy`: requests and responses.
- `models.dfy`: the declared records and enumerations, and the JSON form of a
  collection schema.
- `patterns.dfy`: regular-expression terms.
- `json_date_parsing.dfy`: the reviver.
- `is_app_db_doc.dfy`: the type guard.
- `app_db_calls.dfy`: the wrapper-to-`AppDb` calls and the id-gathering loop.
- `domo_db.dfy` and `sv_domo_app_db.dfy`: the two wrappers.
- `app_db.dfy`, `app_db_collections.dfy` and `collection_security.dfy`: the
  request builders.

## Model

| member | source | states |
|---|---|---|
| JsonDateParsing.MatchIso | src/jsonDateParsing.js:6 | definition: the hand-written recognizer for the pattern; its properties are stated by MatchIsoCorrect |
| JsonDateParsing.MatchIsoCorrect | src/jsonDateParsing.js:6 | the hand-written matcher accepts a string exactly when the anchored ISO pattern matches all of it |
| JsonDateParsing.JsonDateReviver | src/jsonDateParsing.js:5-18 | a non-string is returned unchanged; a revived result carries the very string it was given; an unchanged result carries the given value |
| JsonDateParsing.RevivedIffMatches | src/jsonDateParsing.js:6-17 | a value is revived if and only if it is a string that the anchored pattern matches |
| JsonDateParsing.KeyIgnored | src/jsonDateParsing.js:5-17 | the key never changes the outcome |
| JsonDateParsing.CalendarDateRevived | src/jsonDateParsing.js:6 | a 10-character string is revived exactly when it is YYYY-MM-DD with month 01-12 and day 01-31; every revived string starts with such a date |
| JsonDateParsing.TimeOfDayRevived | src/jsonDateParsing.js:6 | after the date comes 'T' or one whitespace character, then hh:mm with hours 00-23 and minutes 00-59, or exactly 24:00 |
| JsonDateParsing.ForeignCharacterRejected | src/jsonDateParsing.js:6 | a string holding any character outside the pattern's alphabet is returned unchanged, wherever that character stands |
| JsonDateParsing.LeadingCharacterRejected | src/jsonDateParsing.js:6 | the match is anchored at the start: any character in front of a revived string makes it stay a string |
| JsonDateParsing.NotDates | src/jsonDateParsing.js:6-17 | "2024 report", "2024" and " 2024-01-01" stay strings |
| JsonDateParsing.OutOfRangeDates | src/jsonDateParsing.js:6 | month 13, month 00 and day 32 are refused |
| JsonDateParsing.CalendarForms | src/jsonDateParsing.js:6 | "2024-02-31" is revived, because the day is not checked against the month; so is "2024-12-01" |
| JsonDateParsing.TimestampRevived | src/jsonDateParsing.js:6 | the server's timestamp form "2024-03-04T18:47:12.327+0000" is revived |
| JsonDateParsing.MidnightAtTwentyFour | src/jsonDateParsing.js:6 | "T24:00" with seconds is accepted |
| JsonDateParsing.PastMidnightRejected | src/jsonDateParsing.js:6 | "T24:01" is refused |
| JsonDateParsing.SpaceSeparator | src/jsonDateParsing.js:6 | a single space may separate date and time |
| JsonDateParsing.LowerCaseSeparator | src/jsonDateParsing.js:6 | a lower-case 't' may not |
| JsonDateParsing.DoubleSpaceSeparator | src/jsonDateParsing.js:6 | two whitespace characters may not |
| JsonDateParsing.EmptyFractionRejected | src/jsonDateParsing.js:6 | a fraction needs at least one digit |
| JsonDateParsing.FractionWithoutSecondsRejected | src/jsonDateParsing.js:6 | a fraction may only follow seconds |
| JsonDateParsing.ZoneWithBareColon | src/jsonDateParsing.js:6 | "+05:" is accepted: the zone's colon and minutes are optional independently |
| JsonDateParsing.ZoneHourRejected | src/jsonDateParsing.js:6 | a zone hour of 24 is refused |
| AppDbDocGuard.IsAppDbDoc | src/helpers/isAppDbDoc.ts:9-15 | throws exactly on undefined or null; otherwise true if and only if the value is an object whose content, owner, collectionId and datastoreId are all other than undefined |
| AppDbDocGuard.NonObjectsAreNotDocuments | src/helpers/isAppDbDoc.ts:11-14 | strings, numbers, booleans and arrays are never documents |
| AppDbDocGuard.AnyAbsentFieldRejects | src/helpers/isAppDbDoc.ts:11-14 | any one of the four fields absent makes the answer false |
| AppDbDocGuard.OtherFieldsIgnored | src/helpers/isAppDbDoc.ts:11-14 | setting any other property leaves the answer as it was |
| AppDbDocGuard.NullCountsAsPresent | src/helpers/isAppDbDoc.ts:11-14 | the four fields set to null pass the guard |
| AppDbDocGuard.Monotone | src/helpers/isAppDbDoc.ts:11-14 | adding properties never turns true into false |
| JsValues.Prop | src/helpers/isAppDbDoc.ts:11 | reading a property throws exactly on undefined and null; non-objects read as undefined; objects read the field |
| JsValues.TemplateString | src/appDb.ts:64 | definition of `${v}`; its properties are stated by JsValues.TemplateStringForms and AppDb.NullIdPasses |
| JsValues.TemplateStringForms | src/appDb.ts:79 | a string is interpolated as it is, null as "null", undefined as "undefined", a negative number with its sign |
| AppDbCalls.CollectIds | src/domoDb.ts:133-142 | definition of the forEach/push loop; its properties are stated by CollectIdsSnoc, CollectIdsAppend, CollectIdsBound and CollectIdsFails |
| AppDbCalls.CollectIdsSnoc | src/domoDb.ts:134-142 | one more item appends its contribution, unless the loop has already thrown |
| AppDbCalls.CollectIdsAppend | src/domoDb.ts:134-142 | gathering over a + b is gathering over a and then over b |
| AppDbCalls.CollectIdsBound | src/domoDb.ts:134-142 | when each item pushes at most one id, no more ids are gathered than there are items |
| AppDbCalls.CollectIdsFails | src/domoDb.ts:134-142 | the loop throws exactly when some item's contribution throws |
| DomoDb.Formatted | src/domoDb.ts:61 | the hook's result when it is not nullish, else the instance itself |
| DomoDb.Strip | src/domoDb.ts:62 | an object loses collectionName and keeps every other property; a primitive is unchanged |
| DomoDb.Prepare | src/domoDb.ts:61-62 | what is sent is the formatted value without collectionName; when the instance stands for itself, the deletion is on the caller's instance, which is left equal to what is sent; otherwise the instance is untouched |
| DomoDb.StripIfTruthy | src/domoDb.ts:121-123 | a truthy collectionName is removed and otherwise kept; no other property changes |
| DomoDb.StripIfTruthyIdempotent | src/domoDb.ts:120-124 | deleting twice is deleting once |
| DomoDb.EmptyCollectionNameKeptOnlyByBulkUpsert | src/domoDb.ts:62 | an empty collectionName is removed by Create and Update and kept by BulkUpsert |
| DomoDb.RecordId | src/domoDb.ts:137 | with no hook the id is the record's own; a hook returning an object gives that object's id unless it is nullish, and the record's own id then; a hook returning another non-nullish value gives the record's own id; a hook returning nullish throws |
| DomoDb.Contribution | src/domoDb.ts:136-140 | a string contributes itself; a record contributes its RecordId exactly when that is truthy, nothing otherwise, and throws when RecordId throws |
| DomoDb.RecordIds | src/domoDb.ts:133-142 | definition: the ids BulkDelete gathers; its properties are stated by StringsVerbatim, RecordIdsBound, RecordWithIdKept, RecordWithoutIdDropped, HookEmptyIdDrops and NullishFormatThrows |
| DomoDb.StringsVerbatim | src/domoDb.ts:136 | a list of strings is gathered verbatim, the empty string included |
| DomoDb.RecordIdsBound | src/domoDb.ts:132-142 | the ids sent are never more than the records given |
| DomoDb.RecordWithoutIdDropped | src/domoDb.ts:137-140 | a record whose id (the hook's `id ?? the record's own id`, or its own id when there is no hook) is falsy drops out, and the others keep their order |
| DomoDb.HookEmptyIdDrops | src/domoDb.ts:137-140 | a hook returning `{id: ""}` drops a record whose own id is "x", because `"" ?? "x"` is "" |
| DomoDb.RecordWithIdKept | src/domoDb.ts:137-139 | a record whose id is truthy contributes exactly that id, between the ids of the items before and after it |
| DomoDb.NullishFormatThrows | src/domoDb.ts:137 | a hook that returns nullish for any record makes BulkDelete throw |
| DomoDb.DomoAppDb.constructor | src/domoDb.ts:26-29 | the class is kept and the collection name is a fresh instance's |
| DomoDb.DomoAppDb.FetchAll | src/domoDb.ts:34-40 | one call; one hydrated instance per server document, in server order |
| DomoDb.DomoAppDb.FetchDoc | src/domoDb.ts:46-52 | one call for the id; the document hydrated |
| DomoDb.DomoAppDb.Create | src/domoDb.ts:60-68 | sends the prepared value; the caller's instance is left as the preparation says; the reply is hydrated |
| DomoDb.DomoAppDb.Update | src/domoDb.ts:77-87 | an undefined or null id fails with "missing documentId" before formatting, leaving the instance as it was; otherwise one update call under the id with the prepared value |
| DomoDb.DomoAppDb.Delete | src/domoDb.ts:93-107 | a string is the id verbatim; a record with a nullish id fails with "missing documentId"; otherwise its id is used |
| DomoDb.DomoAppDb.Upsert | src/domoDb.ts:109-111 | always fails with "not yet implemented" |
| DomoDb.DomoAppDb.BulkUpsert | src/domoDb.ts:117-126 | one call with one entry per instance, in order, each formatted and without a truthy collectionName; instances sent as themselves lose that property in place, and the others are untouched |
| DomoDb.DomoAppDb.BulkDelete | src/domoDb.ts:132-144 | fails with the first error the gathering meets; otherwise one call with exactly the ids RecordIds gathers |
| DomoDb.DomoAppDb.Query | src/domoDb.ts:150-156 | one call; one hydrated instance per document found, in order |
| DomoDb.DomoAppDb.QueryAggregation | src/domoDb.ts:163-165 | forwards query and parameters, without the date flag |
| DomoDb.DomoAppDb.UpdateWhere | src/domoDb.ts:172-178 | forwards query and operation |
| SvDomoAppDb.Spread | src/svDomoAppDb.ts:28 | definition of `{...v}` on a value; its properties are stated by SvDomoAppDb.Flatten |
| SvDomoAppDb.Flatten | src/svDomoAppDb.ts:28 | the content's properties, every one unchanged, plus domoAppDbDocId set to the document id, which overrides a same-named content field |
| SvDomoAppDb.UnflattenFlatten | src/svDomoAppDb.ts:28 | for object content without its own domoAppDbDocId, the envelope can be recovered from the flat record |
| SvDomoAppDb.DocumentIdOverridesContent | src/svDomoAppDb.ts:28 | a content field named domoAppDbDocId is replaced by the document id |
| SvDomoAppDb.FlattenAll | src/svDomoAppDb.ts:128 | one record per document, in order |
| SvDomoAppDb.FlattenAllIds | src/svDomoAppDb.ts:128 | the ids of the flattened list are the documents' ids in order |
| SvDomoAppDb.Contribution | src/svDomoAppDb.ts:109-115 | a string contributes itself; undefined and null throw; an object contributes its domoAppDbDocId exactly when that is truthy; any other value contributes nothing |
| SvDomoAppDb.RecordIds | src/svDomoAppDb.ts:106-117 | definition: the ids BulkDelete gathers; its properties are stated by RecordIdsBound, RecordWithIdKept, RecordWithoutIdDropped and RecordIdsExample |
| SvDomoAppDb.RecordWithIdKept | src/svDomoAppDb.ts:112-114 | a record with a truthy domoAppDbDocId contributes exactly that id, between the ids of the items before and after it |
| SvDomoAppDb.RecordWithoutIdDropped | src/svDomoAppDb.ts:112-114 | a record without a truthy domoAppDbDocId drops out and the others keep their order |
| SvDomoAppDb.RecordIdsBound | src/svDomoAppDb.ts:105-117 | the ids sent are never more than the records given |
| SvDomoAppDb.RecordIdsExample | src/svDomoAppDb.ts:107-117 | strings, the empty one included, and truthy ids are kept in order; records without an id or with a null id are dropped |
| SvDomoAppDb.SvDomoAppDb.constructor | src/svDomoAppDb.ts:17-20 | the collection name is given, and the date flag starts true |
| SvDomoAppDb.SvDomoAppDb.FetchAll | src/svDomoAppDb.ts:25-31 | passes the current date flag; the documents come back flattened, in order |
| SvDomoAppDb.SvDomoAppDb.FetchDoc | src/svDomoAppDb.ts:37-43 | passes the date flag; the document comes back flattened |
| SvDomoAppDb.SvDomoAppDb.Create | src/svDomoAppDb.ts:49-55 | sends the content as it is, with the date flag; the created document comes back flattened |
| SvDomoAppDb.SvDomoAppDb.Update | src/svDomoAppDb.ts:62-67 | fails when domoAppDbDocId is undefined or null, which is also the case for a primitive; otherwise one update under that id, with the content sent unchanged |
| SvDomoAppDb.SvDomoAppDb.Delete | src/svDomoAppDb.ts:73-84 | a string is the id verbatim; a record needs a non-nullish domoAppDbDocId, else it fails; an issued delete never carries a nullish id |
| SvDomoAppDb.SvDomoAppDb.Upsert | src/svDomoAppDb.ts:86-88 | always fails with "not yet implemented" |
| SvDomoAppDb.SvDomoAppDb.BulkUpsert | src/svDomoAppDb.ts:94-99 | forwards the list unchanged |
| SvDomoAppDb.SvDomoAppDb.BulkDelete | src/svDomoAppDb.ts:105-119 | fails with the first error the gathering meets; otherwise one call with exactly the ids RecordIds gathers |
| SvDomoAppDb.SvDomoAppDb.Query | src/svDomoAppDb.ts:125-131 | passes the date flag; the documents found come back flattened |
| SvDomoAppDb.SvDomoAppDb.QueryAggregation | src/svDomoAppDb.ts:138-140 | forwards query and parameters with the date flag |
| SvDomoAppDb.SvDomoAppDb.UpdateWhere | src/svDomoAppDb.ts:147-153 | forwards query and operation, the one call without the date flag |
| AppDb.Wrap | src/appDb.ts:48 | an object whose only property is content, which reads back as the document |
| AppDb.WrapAll | src/appDb.ts:33 | same length, each element wrapped and reading back as its document |
| AppDb.WrapAllRoundTrip | src/appDb.ts:33 | the server's reading of the bulk body is the documents, in order |
| AppDb.DocumentUrlSegments | src/appDb.ts:26 | a document URL is the base's segments, then the collection, "documents" and the id |
| AppDb.DocumentUrlInjective | src/appDb.ts:26 | under one base, slash-free names and ids give distinct URLs unless both agree |
| AppDb.DeleteDocumentsIds | src/appDb.ts:125 | the bulk-delete URL is the bulk URL, "?ids=", then a list that splits back on ',' into the ids given |
| AppDb.DeleteNoDocuments | src/appDb.ts:125 | no ids gives "?ids=" with nothing after it |
| AppDb.DeleteDocumentResult | src/appDb.ts:116 | true exactly when the status is 2xx |
| AppDb.ExportRequestAsWritten | src/appDb.ts:132-138 | the export trigger as written: a DELETE to the export endpoint |
| AppDb.ExportOutcome | src/appDb.ts:140-150 | 423 exactly gives ALREADY_IN_PROGRESS, 200 exactly gives STARTED, and every other status an error carrying the status text |
| AppDb.ExportOutcomesAgree | src/appDb.ts:140-150 | the client and the collections module read every response status the same way |
| AppDb.ExportMethodsDisagree | src/appDb.ts:136 | this and the collections module's sync address the same endpoint with different methods |
| AppDb.NullIdPasses | src/appDb.ts:70-79 | a null id is not refused; the document is put under "null" |
| AppDb.DomoDataService.constructor | src/appDb.ts:9-12 | the base URL is "/domo/datastores/v1/collections" |
| AppDb.DomoDataService.GetAllDocuments | src/appDb.ts:13-21 | GET of base/c/documents |
| AppDb.DomoDataService.GetDocument | src/appDb.ts:22-30 | GET of base/c/documents/id |
| AppDb.DomoDataService.CreateDocuments | src/appDb.ts:31-44 | POST to base/c/documents/bulk of a list that unwraps to the documents, in order |
| AppDb.DomoDataService.CreateDocument | src/appDb.ts:45-56 | POST to base/c/documents/ of a body that unwraps to the document |
| AppDb.DomoDataService.CreateAppDbDocument | src/appDb.ts:57-68 | throws exactly when there is no format method; otherwise a POST under the interpolated collectionName whose body unwraps to the format |
| AppDb.DomoDataService.UpdateAppDbDocument | src/appDb.ts:69-83 | an undefined id fails with "missing documentId"; a missing format method throws; otherwise, and only then, a PUT to base/collectionName/documents/id, both interpolated, whose body unwraps to the format |
| AppDb.DomoDataService.UpdateDocument | src/appDb.ts:84-95 | PUT to the document URL of a body that unwraps to the document |
| AppDb.DomoDataService.UpsertDocuments | src/appDb.ts:96-107 | PUT of the list unchanged to the bulk URL |
| AppDb.DomoDataService.DeleteDocument | src/appDb.ts:108-118 | DELETE of the document URL, without a body |
| AppDb.DomoDataService.DeleteDocuments | src/appDb.ts:119-129 | DELETE of the bulk URL with the ids in the query, without a body |
| AppDb.DomoDataService.ManuallyExportSyncEnabledCollectionsToDatacenter | src/appDb.ts:132-152 | corrected: a POST to the export endpoint, as the collections module sends, and as outcome the status reading of ExportOutcome |
| AppDb.DomoDataService.CreateCollection | src/appDb.ts:153-164 | POST to base/ of a body that decodes to the schema |
| AppDb.DomoDataService.UpdateCollection | src/appDb.ts:165-176 | PUT to base/name of a body that decodes to the schema |
| AppDb.ServiceRegistry.Instance | src/appDb.ts:6-8 | the first access creates the service, with the default base URL, and stores it; later accesses return the stored one |
| AppDb.TwoAccesses | src/appDb.ts:6-8 | two accesses return the same object |
| Models.DataTypeNameRoundTrip | src/models.ts:2-12 | each column type reads back from its name |
| Models.ColumnsRoundTrip | src/models.ts:16-20 | a column list reads back from its JSON form, in order |
| Models.SchemaRoundTrip | src/models.ts:21-25 | a collection schema reads back from the JSON body sent for it |
| AppDbCollections.CreateCollectionRequest | src/appDbCollections.ts:4-15 | POST to base/ of a body that decodes to the schema given |
| AppDbCollections.UpdateCollectionRequest | src/appDbCollections.ts:17-28 | PUT to base/name of a body that decodes to the schema given |
| AppDbCollections.DeleteCollection | src/appDbCollections.ts:30-37 | DELETE of base/name, without a body |
| AppDbCollections.CollectionUrlSegments | src/appDbCollections.ts:11-36 | the URLs add one last segment to the base: empty for creation, the name for update and delete |
| AppDbCollections.UpdateUrlInjective | src/appDbCollections.ts:24 | two updates share a URL exactly when the names agree |
| AppDbCollections.DeleteCollectionResult | src/appDbCollections.ts:36 | resolves to nothing, whatever the status |
| AppDbCollections.SyncRequest | src/appDbCollections.ts:41-45 | a POST to "/domo/datastores/v1/export" without a body |
| AppDbCollections.SyncOutcome | src/appDbCollections.ts:47-57 | 423 exactly gives ALREADY_IN_PROGRESS, 200 exactly gives STARTED, and every other status an error carrying the status text |
| AppDbCollections.OnlyTwoHundredStarts | src/appDbCollections.ts:47-57 | 201, and 204 although response.ok holds, are errors |
| CollectionSecurity.PermissionName | src/collectionLevelSecurity.ts:5 | each permission's name is non-empty and free of ',' and '/' |
| CollectionSecurity.PermissionNameRoundTrip | src/collectionLevelSecurity.ts:5 | each of the nine permissions reads back from its name |
| CollectionSecurity.PermissionNames | src/collectionLevelSecurity.ts:28 | one name per permission, in order, with no commas in them |
| CollectionSecurity.PermissionNamesRoundTrip | src/collectionLevelSecurity.ts:28 | the list of names reads back as the permissions |
| CollectionSecurity.ModifyCollectionPermissions | src/collectionLevelSecurity.ts:19-30 | PUT of the permission path with "?permissions=" and the names comma-joined in order |
| CollectionSecurity.DeleteCollectionPermissions | src/collectionLevelSecurity.ts:38-48 | DELETE of the permission path, without a query |
| CollectionSecurity.PermissionPathSegments | src/collectionLevelSecurity.ts:28 | the path is the base's segments, then the collection, "permission", the level and the entity id |
| CollectionSecurity.ModifyExtendsDelete | src/collectionLevelSecurity.ts:28-46 | Modify's URL is Delete's plus the query; an empty list gives "?permissions=" |
| CollectionSecurity.PermissionsQueryRoundTrip | src/collectionLevelSecurity.ts:28 | a non-empty list is read back from the query exactly, in order and with duplicates |
| CollectionSecurity.DuplicatesKept | src/collectionLevelSecurity.ts:28 | a repeated permission is sent twice |
| Text.Join | src/appDb.ts:125 | definition of `Array.prototype.join` with a separator; its properties are stated by Text.JoinLength and Text.SplitJoin |
| Text.SplitJoin | src/appDb.ts:125 | splitting a comma-joined list of comma-free strings gives the list back |
| Text.SplitThreeSegments | src/appDb.ts:26 | three separator-free segments appended to a prefix split off as three last pieces |

## Left out

- `fetch`, `Headers`, `response.json()` and the Promise chains are not
  modelled. A request is the method, URL and body `fetch` would be given, and
  a response is its status and status text. The server's answer is a
  parameter, as in `DomoAppDb.FetchAll(docs)`.
- `new Date(value)` in the reviver is not modelled, because Date construction
  is foreign. Only the decision to revive is kept, as the tag `Revived`.
- `JSON.stringify` is left out. A body is a JSON value, not its text.
- The `AppDb` helper that the wrappers call has no code in this model. A
  wrapper operation is stated as the call it makes (`AppDbCalls.Call`);
  URLs, query strings and date parsing on that path are not modelled.
- src/idb.ts is not part of this model. It is IndexedDB browser access
  through event callbacks.
- src/interfaces.ts and src/index.ts hold types and re-exports only. The
  records of src/models.ts appear as datatypes.
- The user hooks, `GetAppDbFormat` and `new collectionClass(doc)`, are
  functions of the instance's properties (`Models.Format`,
  `DomoDb.CollectionClass.hydrate`). The model does not capture a hook that
  reads other state, or the object identity of hydrated instances.
- DomoDb.DomoAppDb.Create, DomoDb.DomoAppDb.Update and DomoDb.DomoAppDb.BulkUpsert:
  the format hook's result is a new value, so deleting `collectionName` from
  it is modelled on that value. A hook that returns the instance itself, or
  an object it keeps and reuses, would alias the caller's state, and that
  aliasing is not modelled.
- Numbers are integers. The library never computes with them, and
  `JsValues.TemplateString` renders them in plain decimal, so exponent forms
  and fractions are not modelled.
- Spreading a string or an array contributes indexed properties in
  JavaScript. `SvDomoAppDb.Spread` gives none, since documents hold objects.
- CollectionSecurity.ModifyCollectionPermissions: the class's public static
  `domoUrl` can be reassigned by any caller. It is therefore a parameter of
  every request, and `CollectionSecurity.InitialDomoUrl` is its starting
  value.
- DomoDb.DomoAppDb.Delete: given `undefined` or `null`, `typeof` is not
  "string" and reading `.id` throws a TypeError. The model's `Item` has no
  such case, because the declared type excludes it.
- DomoDb.DomoAppDb.BulkDelete: an `undefined` or `null` element of the list
  throws a TypeError at its `GetAppDbFormat` read. The model's `Item` has
  no such case either, for the same reason.
- JsValues.Prop: a JavaScript property read also finds inherited
  properties, such as a getter on a class instance's prototype. The model
  reads own properties only, so `isAppDbDoc` and the id reads see an object's
  own fields.
- Header values are not modelled. Every request sends a JSON content type,
  except GetAllDocuments and GetDocument, which send no headers.

## Findings

| source | as written | input that shows it | evidently intended | confidence | as-written member | corrected member |
|---|---|---|---|---|---|---|
| src/appDb.ts:136 | `ManuallyExportSyncEnabledCollectionsToDatacenter` sends `method: "DELETE"` to /domo/datastores/v1/export | any call: the request is a DELETE, while `ManuallyStartAppDbToDatacenterSync` (src/appDbCollections.ts:43) starts the same export with a POST and reads the same 423/200 statuses | a POST, as in the collections module | not executed | AppDb.ExportRequestAsWritten | AppDb.DomoDataService.ManuallyExportSyncEnabledCollectionsToDatacenter |
