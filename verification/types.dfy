/** The values pn_request consumes and produces: the request options built by
    the endpoint operations, the HTTP method enumeration, the PNERR_* error
    constants and the PubNubException they are raised with. */
module PubNubTypes {

  datatype Option<+T> = None | Some(value: T)

  /** A parsed JSON document. The core never looks inside it; it only hands
      it back to the caller. */
  datatype Json =
    | JNull
    | JBool(b: bool)
    | JNumber(n: int)
    | JString(s: string)
    | JArray(items: seq<Json>)
    | JObject(fields: map<string, Json>)

  /** HttpMethod: pn_request only distinguishes POST from everything else. */
  datatype HttpMethod = GET | POST

  /** HttpMethod.string: the verb passed to the transport. */
  function MethodName(m: HttpMethod): (name: string)
    ensures |name| > 0
    ensures name == "GET" <==> m == GET
    ensures name == "POST" <==> m == POST
  {
    match m
    case GET => "GET"
    case POST => "POST"
  }

  /** RequestOptions: what an endpoint operation hands to the core.
      `data` is Python's optional body (None when the operation set none). */
  datatype RequestOptions = RequestOptions(
    path: string,
    params: map<string, string>,
    httpMethod: HttpMethod,
    data: Option<string>)

  /** The PNERR_* constants a PubNubException can carry. */
  datatype PnError =
    | ConnectionError      // PNERR_CONNECTION_ERROR
    | HttpError            // PNERR_HTTP_ERROR (raised for urllib3's HTTPError)
    | ClientTimeout        // PNERR_CLIENT_TIMEOUT
    | TooManyRedirects     // PNERR_TOO_MANY_REDIRECTS_ERROR
    | ServerError          // PNERR_SERVER_ERROR
    | ClientError          // PNERR_CLIENT_ERROR
    | UnknownError         // PNERR_UNKNOWN_ERROR

  /** PubNubException(pn_error, errormsg, status_code=None). */
  datatype PubNubException = PubNubException(
    pnError: PnError,
    errorMessage: string,
    statusCode: Option<int>)
}
