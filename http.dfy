/**
 * What one `requests.get(url, timeout=5)` call yields, as seen by main.py:
 * either the call raised (connection error, timeout) or a response came back
 * with a status code and a body that `response.json()` can or cannot parse.
 */
module Http {
  import opened Wrappers
  import opened PyJson

  /** `body` is None when `response.json()` would raise on it. */
  datatype Response = Response(status: int, body: Option<Value>)

  datatype Outcome = Raised | Got(response: Response)

  /**
   * The common prelude of every call site: get, check `status_code == 200`,
   * then parse. Ok(None) means "not 200: nothing to do"; Ok(Some(data)) is the
   * parsed body of a 200 response.
   */
  function Fetch(o: Outcome): (r: Result<Option<Value>>)
    ensures r == Ok(None) <==> o.Got? && o.response.status != 200
    ensures r.Raise? <==> o.Raised? || (o.response.status == 200 && o.response.body.None?)
    ensures r.Ok? && r.value.Some? ==> o == Got(Response(200, r.value))
  {
    match o
    case Raised => Raise(RequestError)
    case Got(resp) =>
      if resp.status != 200 then Ok(None)
      else if resp.body.None? then Raise(DecodeError)
      else Ok(resp.body)
  }

  /** A 200 response whose body parsed. */
  predicate Delivered(o: Outcome) {
    o.Got? && o.response.status == 200 && o.response.body.Some?
  }

  function Payload(o: Outcome): Value
    requires Delivered(o)
  {
    o.response.body.value
  }
}
