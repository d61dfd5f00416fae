/**
 * The type guard that tells a document as the server returns it (an
 * `IAppDbDoc<T>`: metadata around a `content` field) from a bare `T`.
 */
module AppDbDocGuard {
  import opened JsValues

  /** The four metadata fields the guard looks at, in the order it reads them. */
  const GuardFields: seq<string> := ["content", "owner", "collectionId", "datastoreId"]

  /** Property `key` of val, as `val.key !== undefined` tests it, after reading the earlier ones. */
  function Present(val: Value, key: string): Result<bool>
  {
    match Prop(val, key)
    case Throw(e) => Throw(e)
    case Ok(x) => Ok(x != Undefined)
  }

  /**
   * isAppDbDoc(val): `content`, `owner`, `collectionId` and `datastoreId` are
   * all other than undefined, read one after another and stopping at the first
   * that is missing. Reading a property of undefined or null throws.
   */
  function IsAppDbDoc(val: Value): (r: Result<bool>)
    ensures r.Throw? <==> Nullish(val)
    ensures r.Ok? ==> (r.value <==> val.Obj? && forall i :: 0 <= i < |GuardFields| ==> Field(val.fields, GuardFields[i]) != Undefined)
  {
    assert GuardFields[0] == "content" && GuardFields[1] == "owner";
    assert GuardFields[2] == "collectionId" && GuardFields[3] == "datastoreId";
    match Present(val, "content")
    case Throw(e) => Throw(e)
    case Ok(c) =>
      if !c then Ok(false)
      else match Present(val, "owner")
        case Throw(e) => Throw(e)
        case Ok(o) =>
          if !o then Ok(false)
          else match Present(val, "collectionId")
            case Throw(e) => Throw(e)
            case Ok(ci) =>
              if !ci then Ok(false)
              else Present(val, "datastoreId")
  }

  /** A value that is not an object (a string, a number, an array) is never a document. */
  lemma NonObjectsAreNotDocuments(val: Value)
    requires !Nullish(val) && !val.Obj?
    ensures IsAppDbDoc(val) == Ok(false)
  {
  }

  /** If any one of the four fields is absent, the answer is false. */
  lemma AnyAbsentFieldRejects(m: map<string, Value>, key: string)
    requires key in GuardFields && key !in m
    ensures IsAppDbDoc(Obj(m)) == Ok(false)
  {
  }

  /** Only the four fields are consulted: setting any other field (`id`, `createdOn`, ...) changes nothing. */
  lemma OtherFieldsIgnored(m: map<string, Value>, key: string, v: Value)
    requires key !in GuardFields
    ensures IsAppDbDoc(Obj(m[key := v])) == IsAppDbDoc(Obj(m))
  {
    assert forall i :: 0 <= i < |GuardFields| ==> Field(m[key := v], GuardFields[i]) == Field(m, GuardFields[i]);
  }

  /** A field set to null is present: the test is against undefined only. */
  lemma NullCountsAsPresent()
    ensures IsAppDbDoc(Obj(map["content" := Null, "owner" := Null, "collectionId" := Null, "datastoreId" := Null])) == Ok(true)
  {
    var m := map["content" := Null, "owner" := Null, "collectionId" := Null, "datastoreId" := Null];
    assert forall i :: 0 <= i < |GuardFields| ==> GuardFields[i] in m && m[GuardFields[i]] == Null;
  }

  /** m2 has every property of m, with the same value. */
  predicate Extends(m2: map<string, Value>, m: map<string, Value>)
  {
    forall k :: k in m ==> k in m2 && m2[k] == m[k]
  }

  /** Adding properties never turns a document into a non-document. */
  lemma Monotone(m: map<string, Value>, m2: map<string, Value>)
    requires Extends(m2, m) && IsAppDbDoc(Obj(m)) == Ok(true)
    ensures IsAppDbDoc(Obj(m2)) == Ok(true)
  {
    forall i | 0 <= i < |GuardFields| ensures Field(m2, GuardFields[i]) != Undefined {
      assert Field(m, GuardFields[i]) != Undefined;
    }
  }
}
