/** The request a `fetch` call would send, and the parts of its response the library inspects. */
module Http {
  import opened JsValues

  datatype Method = GET | POST | PUT | DELETE

  /** The body of a request before `JSON.stringify`, or none. */
  datatype Body = NoBody | JsonBody(value: Value)

  /** One `fetch(url, { method, body })`, with the method as `verb`; headers are not modelled. */
  datatype Request = Request(verb: Method, url: string, body: Body)

  datatype Response = Response(status: int, statusText: string)

  /** A request together with what the caller makes of the response to it. */
  datatype Exchange<T> = Exchange(request: Request, outcome: Result<T>)

  /** `response.ok`: the status is in the 2xx range. */
  predicate IsOk(r: Response)
  {
    200 <= r.status <= 299
  }
}
