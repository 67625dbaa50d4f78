/** What goes over the wire through a `requests.Session`, as records. The session
    itself is modelled by the clients as the sequence of requests sent so far and a
    `Server` that answers the n-th request (counting from 0). */
module Http {
  import opened Exceptions
  import opened Json
  import opened Text

  /** Query parameter values: every call site passes an int or a str. */
  datatype ParamValue = PInt(i: int) | PStr(s: string)

  /** `str(v)`, which is how f-strings and `requests` render a parameter value. */
  function ParamText(v: ParamValue): string {
    match v
    case PInt(i) => IntToDecimal(i)
    case PStr(s) => s
  }

  type Params = map<string, ParamValue>
  type Headers = map<string, string>

  /** `session.request(method, url, params=..., json=..., data=..., headers=...)` */
  datatype HttpRequest = HttpRequest(
    httpMethod: string,
    url: string,
    params: Option<Params>,
    json: Option<Object>,
    data: Option<Object>,
    headers: Option<Headers>)

  /** A `requests.Response`: status code, raw text, and the decoded JSON object that
      `.json()` returns. */
  datatype HttpReply = HttpReply(statusCode: int, text: string, body: Object) {
    /** `response.ok`: false exactly for 4xx and 5xx status codes. */
    predicate Ok() {
      !(400 <= statusCode < 600)
    }
  }

  /** The remote service: the reply to the n-th request of a session. */
  type Server = (nat, HttpRequest) -> HttpReply
}
