/**
 * The calls the typed wrappers make into the `AppDb` helper. That helper's
 * own code (how it turns a call into a URL and a query string) is not part of
 * this model, so a call is kept as the operation and the arguments handed to
 * it, and a wrapper operation is described by the call it issues, or by the
 * error it throws before issuing any.
 */
module AppDbCalls {
  import opened JsValues

  /** The optional "parse date strings" argument: left off, or passed. */
  datatype DateFlag = Omitted | Given(parse: bool)

  datatype Call =
    | FetchAll(collection: string, dates: DateFlag)
    | FetchDoc(collection: string, docId: string, dates: DateFlag)
    | Create(collection: string, content: Value, dates: DateFlag)
    | Update(collection: string, documentId: Value, content: Value)
    | Delete(collection: string, documentId: Value)
    | BulkUpsert(collection: string, docs: seq<Value>)
    | BulkDelete(collection: string, ids: seq<Value>)
    | Query(collection: string, query: Value, dates: DateFlag)
    | QueryAggregation(collection: string, query: Value, params: Value, dates: DateFlag)
    | UpdateWhere(collection: string, query: Value, operation: Value)

  /** What a wrapper operation does: throw before calling `AppDb`, or make exactly one call. */
  datatype Issued = Fails(message: string) | Issues(call: Call)

  /** A call together with what the wrapper makes of the server's answer to it. */
  datatype Reply<T> = Reply(call: Call, result: T)

  const MissingDocumentId: string := "missing documentId"
  const NotYetImplemented: string := "not yet implemented"

  // ---------------------------------------------------------------------------
  // Collecting ids for a bulk delete

  /**
   * The ids a `forEach` that pushes each item's contribution gathers, in input
   * order; the first item whose contribution throws ends the loop with that error.
   */
  function CollectIds<T>(items: seq<T>, contribution: T -> Result<seq<Value>>): Result<seq<Value>>
    decreases |items|
  {
    if |items| == 0 then Ok([])
    else
      match CollectIds(items[..|items| - 1], contribution)
      case Throw(e) => Throw(e)
      case Ok(ids) =>
        match contribution(items[|items| - 1])
        case Throw(e) => Throw(e)
        case Ok(c) => Ok(ids + c)
  }

  /** One more item: its contribution is appended, unless the loop has already thrown. */
  lemma CollectIdsSnoc<T>(a: seq<T>, x: T, contribution: T -> Result<seq<Value>>)
    ensures CollectIds(a + [x], contribution) ==
      match CollectIds(a, contribution)
      case Throw(e) => Throw(e)
      case Ok(ids) =>
        match contribution(x)
        case Throw(e) => Throw(e)
        case Ok(c) => Ok(ids + c)
  {
    assert (a + [x])[..|a + [x]| - 1] == a;
  }

  /** Running the loop over a + b is running it over a, then over b. */
  lemma {:induction false} CollectIdsAppend<T>(a: seq<T>, b: seq<T>, contribution: T -> Result<seq<Value>>)
    ensures CollectIds(a + b, contribution) ==
      match CollectIds(a, contribution)
      case Throw(e) => Throw(e)
      case Ok(x) =>
        match CollectIds(b, contribution)
        case Throw(e) => Throw(e)
        case Ok(y) => Ok(x + y)
    decreases |b|
  {
    if |b| == 0 {
      assert a + b == a;
      assert CollectIds(b, contribution) == Ok([]);
      if CollectIds(a, contribution).Ok? {
        assert CollectIds(a, contribution).value + [] == CollectIds(a, contribution).value;
      }
    } else {
      var b' := b[..|b| - 1];
      assert (a + b)[..|a + b| - 1] == a + b';
      assert (a + b)[|a + b| - 1] == b[|b| - 1];
      CollectIdsAppend(a, b', contribution);
      match CollectIds(a, contribution)
      case Throw(_) =>
      case Ok(x) =>
        match CollectIds(b', contribution)
        case Throw(_) =>
        case Ok(y) =>
          match contribution(b[|b| - 1])
          case Throw(_) =>
          case Ok(c) =>
            assert (x + y) + c == x + (y + c);
    }
  }

  /** Each item pushes at most one id. */
  ghost predicate AtMostOneEach<T(!new)>(contribution: T -> Result<seq<Value>>)
  {
    forall x :: contribution(x).Ok? ==> |contribution(x).value| <= 1
  }

  /** When each item pushes at most one id, the list is never longer than the input. */
  lemma {:induction false} CollectIdsBound<T(!new)>(items: seq<T>, contribution: T -> Result<seq<Value>>)
    requires AtMostOneEach(contribution)
    requires CollectIds(items, contribution).Ok?
    ensures |CollectIds(items, contribution).value| <= |items|
    decreases |items|
  {
    if |items| > 0 {
      CollectIdsBound(items[..|items| - 1], contribution);
    }
  }

  /** The loop fails exactly when some item's contribution throws. */
  lemma {:induction false} CollectIdsFails<T>(items: seq<T>, contribution: T -> Result<seq<Value>>)
    ensures CollectIds(items, contribution).Throw? <==> exists i :: 0 <= i < |items| && contribution(items[i]).Throw?
    decreases |items|
  {
    if |items| > 0 {
      var init := items[..|items| - 1];
      CollectIdsFails(init, contribution);
      if exists i :: 0 <= i < |init| && contribution(init[i]).Throw? {
        var i :| 0 <= i < |init| && contribution(init[i]).Throw?;
        assert items[i] == init[i];
      }
      if exists i :: 0 <= i < |items| && contribution(items[i]).Throw? {
        var i :| 0 <= i < |items| && contribution(items[i]).Throw?;
        if i < |init| {
          assert init[i] == items[i];
        }
      }
    }
  }
}
