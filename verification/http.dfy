/**
 * The HTTP and JSON boundary of the gateway, reduced to values: a request is
 * what the code hands to its HTTP client, a reply is what the network answered.
 * Transport, timeouts and (de)serialisation are not modelled beyond this.
 */
module Http {
  import opened Common

  /** `StatusCode::as_u16()`. */
  type StatusCode = u16

  /** `StatusCode::is_success`: the 2xx range. */
  predicate IsSuccess(status: StatusCode) {
    200 <= status < 300
  }

  /** `StatusCode::from_u16` accepts exactly the three-digit codes. */
  predicate IsValidStatus(n: u16) {
    100 <= n < 1000
  }

  /** A JSON value (`serde_json::Value`); numbers are real numbers here. */
  datatype Json =
    | JNull
    | JBool(b: bool)
    | JNumber(n: real)
    | JString(s: string)
    | JArray(items: seq<Json>)
    | JObject(fields: map<string, Json>)

  /** A vector of floats as a JSON array of numbers. */
  function VectorJson(v: seq<real>): (j: Json)
    ensures j.JArray? && |j.items| == |v|
    ensures forall i :: 0 <= i < |v| ==> j.items[i] == JNumber(v[i])
  {
    JArray(seq(|v|, i requires 0 <= i < |v| => JNumber(v[i])))
  }

  datatype Method = Get | Put | Post

  /** An outgoing request: method, full URL, the headers the code sets itself, and the JSON body. */
  datatype Request = Request(verb: Method, url: string, headers: map<string, string>, body: Option<Json>)

  /**
   * What the network answered one request with: a transport failure (connection
   * refused, timeout, ...) or a response whose body text is `None` when it
   * could not be read.
   */
  datatype Reply =
    | TransportError(reason: string)
    | Response(status: StatusCode, body: Option<string>)
}
