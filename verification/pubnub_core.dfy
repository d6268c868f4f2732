/** The transport core of the PubNub Python SDK: how pn_request turns request
    options into the arguments of one HTTP call, how it classifies what the
    call produced into a payload or a PubNubException, and the User-Agent
    header every client sends. */
module PubNubCore {
  import opened PubNubTypes

  // ---------------------------------------------------------------------------
  // User-Agent
  // ---------------------------------------------------------------------------

  const SdkVersion: string := "4.0.0"
  const SdkNameBase: string := "PubNub-Python"
  const UserAgentKey: string := "User-Agent"

  /** Header names mapped to their (possibly several) values. */
  type Headers = map<string, seq<string>>

  /** The `sdk_name` property: base name, the client variant's platform
      discriminator, a slash and the version. */
  function SdkName(platform: string): (name: string)
    ensures |name| == |SdkNameBase| + |platform| + 1 + |SdkVersion|
    ensures name[..|SdkNameBase|] == SdkNameBase
    ensures name[|SdkNameBase|..|SdkNameBase| + |platform|] == platform
    ensures name[|SdkNameBase| + |platform|..] == "/" + SdkVersion
  {
    SdkNameBase + platform + "/" + SdkVersion
  }

  /** Recovers the platform discriminator from a name of SdkName's shape. */
  function PlatformOf(name: string): (platform: string)
    requires |name| >= |SdkNameBase| + 1 + |SdkVersion|
    ensures |platform| == |name| - |SdkNameBase| - 1 - |SdkVersion|
  {
    name[|SdkNameBase|..|name| - 1 - |SdkVersion|]
  }

  /** The platform can be read back out of the SDK name. */
  lemma PlatformOfSdkName(platform: string)
    ensures |SdkName(platform)| >= |SdkNameBase| + 1 + |SdkVersion|
    ensures PlatformOf(SdkName(platform)) == platform
  {
  }

  /** Different client variants announce themselves differently. */
  lemma SdkNameInjective(p1: string, p2: string)
    ensures SdkName(p1) == SdkName(p2) <==> p1 == p2
  {
  }

  /** The `headers` property: exactly one header, User-Agent, whose value is
      the one-element list holding the SDK name. */
  function UserAgentHeaders(platform: string): (h: Headers)
    ensures h.Keys == {UserAgentKey}
    ensures h[UserAgentKey] == [SdkName(platform)]
  {
    map[UserAgentKey := [SdkName(platform)]]
  }

  // ---------------------------------------------------------------------------
  // Request-argument construction
  // ---------------------------------------------------------------------------

  /** The keyword arguments of `session.request(**args)`. `data` is None when
      the key is absent and Some(d) when it is present with value d (which
      may itself be Python's None). */
  datatype RequestArgs = RequestArgs(
    verb: string,
    headers: Headers,
    url: string,
    params: map<string, string>,
    timeout: (real, real),
    data: Option<Option<string>>)

  /** The first half of pn_request: the URL is the scheme-and-host with the
      path appended, headers, params and the (connect, read) timeout pair go
      through untouched, and a data entry is added only for POST. */
  function BuildArgs(schemeAndHost: string, headers: Headers, options: RequestOptions,
                     connectTimeout: real, readTimeout: real): (args: RequestArgs)
    ensures args.url == schemeAndHost + options.path
    ensures args.verb == MethodName(options.httpMethod)
    ensures args.headers == headers && args.params == options.params
    ensures args.timeout.0 == connectTimeout && args.timeout.1 == readTimeout
    ensures args.data.Some? <==> options.httpMethod == POST
    ensures args.data.Some? ==> args.data.value == options.data
  {
    var base := RequestArgs(MethodName(options.httpMethod), headers, schemeAndHost + options.path,
                            options.params, (connectTimeout, readTimeout), None);
    if options.httpMethod == POST then base.(data := Some(options.data)) else base
  }

  /** No separator is inserted: the host is a prefix of the URL and the path
      is exactly what follows it, so different paths give different URLs. */
  lemma UrlSplitsIntoHostAndPath(schemeAndHost: string, headers: Headers, o1: RequestOptions,
                                 o2: RequestOptions, connectTimeout: real, readTimeout: real)
    ensures var u1 := BuildArgs(schemeAndHost, headers, o1, connectTimeout, readTimeout).url;
            u1[..|schemeAndHost|] == schemeAndHost && u1[|schemeAndHost|..] == o1.path
    ensures BuildArgs(schemeAndHost, headers, o1, connectTimeout, readTimeout).url
              == BuildArgs(schemeAndHost, headers, o2, connectTimeout, readTimeout).url
            <==> o1.path == o2.path
  {
  }

  /** Outside POST the options' data never reaches the transport: two option
      values that differ only in their data produce the same arguments. */
  lemma NonPostDataIgnored(schemeAndHost: string, headers: Headers, options: RequestOptions,
                           other: Option<string>, connectTimeout: real, readTimeout: real)
    requires options.httpMethod != POST
    ensures BuildArgs(schemeAndHost, headers, options.(data := other), connectTimeout, readTimeout)
            == BuildArgs(schemeAndHost, headers, options, connectTimeout, readTimeout)
    ensures BuildArgs(schemeAndHost, headers, options, connectTimeout, readTimeout).data == None
  {
  }

  // ---------------------------------------------------------------------------
  // Outcome classification
  // ---------------------------------------------------------------------------

  /** The `except` clauses guarding `session.request`, other than the final
      `except Exception`. HttpErrorClause is urllib3's HTTPError
      (`requests.packages.urllib3.exceptions.HTTPError`), not requests' own
      `requests.exceptions.HTTPError`. An exception of the latter class
      matches none of the four clauses (its set is empty) and so ends as an
      unknown error. */
  datatype Clause = ConnectionErrorClause | HttpErrorClause | TimeoutClause | TooManyRedirectsClause

  /** The clauses in the order they are written. */
  const ExceptClauses: seq<Clause> :=
    [ConnectionErrorClause, HttpErrorClause, TimeoutClause, TooManyRedirectsClause]

  /** Every clause is one of the four written ones. */
  lemma ClausesAreExhaustive(matches: set<Clause>)
    ensures matches <= {ConnectionErrorClause, HttpErrorClause, TimeoutClause, TooManyRedirectsClause}
  {
    forall c | c in matches
      ensures c in {ConnectionErrorClause, HttpErrorClause, TimeoutClause, TooManyRedirectsClause}
    {
      match c
      case ConnectionErrorClause =>
      case HttpErrorClause =>
      case TimeoutClause =>
      case TooManyRedirectsClause =>
    }
  }

  /** The error constant each clause raises. */
  function ClauseError(c: Clause): (e: PnError)
    ensures e !in {ServerError, ClientError, UnknownError}
  {
    match c
    case ConnectionErrorClause => ConnectionError
    case HttpErrorClause => HttpError
    case TimeoutClause => ClientTimeout
    case TooManyRedirectsClause => TooManyRedirects
  }

  /** The response the transport returned. `json` is the result of
      `res.json()`: None when parsing the body fails. */
  datatype Response = Response(statusCode: int, text: Option<string>, json: Option<Json>)

  /** What `session.request(**args)` did: it raised an Exception, given by
      the set of clauses whose class the exception is an instance of (empty
      for any other Exception; a connect timeout is both a ConnectionError
      and a Timeout) and by str(e); or it returned a response. */
  datatype TransportOutcome =
    | Raised(matches: set<Clause>, message: string)
    | Responded(response: Response)

  /** What pn_request ends in: the parsed payload, a raised PubNubException,
      or the failure of `res.json()`, which escapes unclassified. */
  datatype RequestResult =
    | Payload(json: Json)
    | Failed(exception: PubNubException)
    | ParseFailure

  /** requests.codes.ok */
  const StatusOk: int := 200

  /** Reference definition of Python's `except` chain: the index of the first
      clause in `clauses` that matches, if any. */
  function FirstMatch(clauses: seq<Clause>, matches: set<Clause>): (r: Option<nat>)
    ensures r.Some? ==> r.value < |clauses| && clauses[r.value] in matches
    ensures r.Some? ==> forall j :: 0 <= j < r.value ==> clauses[j] !in matches
    ensures r.None? ==> forall j :: 0 <= j < |clauses| ==> clauses[j] !in matches
  {
    if clauses == [] then None
    else if clauses[0] in matches then Some(0)
    else
      match FirstMatch(clauses[1..], matches)
      case None => None
      case Some(i) => Some(i + 1)
  }

  /** The except chain of pn_request: the first clause the exception matches
      decides the error; anything else is an unknown error. The message is
      str(e) and no status code is attached. */
  function ClassifyRaised(matches: set<Clause>, message: string): (e: PubNubException)
    ensures e.errorMessage == message && e.statusCode == None
    ensures e.pnError == ConnectionError <==> ConnectionErrorClause in matches
    ensures e.pnError == HttpError
            <==> ConnectionErrorClause !in matches && HttpErrorClause in matches
    ensures e.pnError == ClientTimeout
            <==> ConnectionErrorClause !in matches && HttpErrorClause !in matches && TimeoutClause in matches
    ensures e.pnError == TooManyRedirects
            <==> ConnectionErrorClause !in matches && HttpErrorClause !in matches
                 && TimeoutClause !in matches && TooManyRedirectsClause in matches
    ensures e.pnError == UnknownError <==> matches == {}
  {
    var err :=
      if ConnectionErrorClause in matches then ConnectionError
      else if HttpErrorClause in matches then HttpError
      else if TimeoutClause in matches then ClientTimeout
      else if TooManyRedirectsClause in matches then TooManyRedirects
      else UnknownError;
    ClausesAreExhaustive(matches);
    PubNubException(err, message, None)
  }

  /** The except chain agrees with the first-match reference over the clauses
      in their written order. */
  lemma {:induction false} ClassifyRaisedIsFirstMatch(matches: set<Clause>, message: string)
    ensures ClassifyRaised(matches, message).pnError ==
            match FirstMatch(ExceptClauses, matches)
            case Some(i) => ClauseError(ExceptClauses[i])
            case None => UnknownError
  {
    ClausesAreExhaustive(matches);
    var r := FirstMatch(ExceptClauses, matches);
    if r.None? {
      assert ExceptClauses[0] !in matches && ExceptClauses[1] !in matches;
      assert ExceptClauses[2] !in matches && ExceptClauses[3] !in matches;
      assert matches == {};
    } else if r.value >= 1 {
      assert ExceptClauses[0] !in matches;
      if r.value >= 2 {
        assert ExceptClauses[1] !in matches;
        if r.value == 3 {
          assert ExceptClauses[2] !in matches;
        }
      }
    }
  }

  /** First match wins: an exception that matches an earlier clause is never
      reported with the error of a later one. */
  lemma EarlierClauseWins(matches: set<Clause>, message: string, i: nat, j: nat)
    requires i < j < |ExceptClauses|
    requires ExceptClauses[i] in matches
    ensures ClassifyRaised(matches, message).pnError != ClauseError(ExceptClauses[j])
  {
  }

  /** The message of a failed response: the response text, or "N/A" when
      there is none. */
  function ErrorText(text: Option<string>): (msg: string)
    ensures text.Some? ==> msg == text.value
    ensures text.None? ==> msg == "N/A"
  {
    match text
    case None => "N/A"
    case Some(t) => t
  }

  /** The status check of pn_request: only the exact OK status yields the
      parsed body; any other status raises with that status attached, a
      server error from 500 up and a client error below. */
  function ClassifyResponse(res: Response): (r: RequestResult)
    ensures res.statusCode == StatusOk ==> !r.Failed?
    ensures res.statusCode == StatusOk && res.json.Some? ==> r == Payload(res.json.value)
    ensures res.statusCode == StatusOk && res.json.None? ==> r == ParseFailure
    ensures res.statusCode != StatusOk ==> r.Failed? && r.exception.statusCode == Some(res.statusCode)
    ensures res.statusCode != StatusOk ==> (r.exception.pnError == ServerError <==> res.statusCode >= 500)
    ensures res.statusCode != StatusOk ==> (r.exception.pnError == ClientError <==> res.statusCode < 500)
    ensures res.statusCode != StatusOk ==> r.exception.errorMessage == ErrorText(res.text)
  {
    if res.statusCode != StatusOk then
      var err := if res.statusCode >= 500 then ServerError else ClientError;
      Failed(PubNubException(err, ErrorText(res.text), Some(res.statusCode)))
    else
      match res.json
      case Some(j) => Payload(j)
      case None => ParseFailure
  }

  /** Transport outcome to result, transport exceptions first. */
  function Classify(outcome: TransportOutcome): (r: RequestResult)
    ensures r.Payload? <==> outcome.Responded? && outcome.response.statusCode == StatusOk
                            && outcome.response.json.Some?
    ensures r.Failed? <==> outcome.Raised? || outcome.response.statusCode != StatusOk
    ensures r.ParseFailure? <==> outcome.Responded? && outcome.response.statusCode == StatusOk
                                 && outcome.response.json.None?
  {
    match outcome
    case Raised(matches, message) => Failed(ClassifyRaised(matches, message))
    case Responded(res) => ClassifyResponse(res)
  }

  /** The error record is well formed: a status code is attached exactly when
      the error is a server or client error, and those two arise only from a
      response, never from a transport exception. */
  lemma StatusCodeOnlyForResponseErrors(outcome: TransportOutcome)
    requires Classify(outcome).Failed?
    ensures var e := Classify(outcome).exception;
            e.statusCode.Some? <==> e.pnError in {ServerError, ClientError}
    ensures var e := Classify(outcome).exception;
            e.pnError in {ServerError, ClientError} <==> outcome.Responded?
  {
  }

  /** Only None falls back to "N/A": an empty response text stays empty. */
  lemma EmptyTextStaysEmpty(status: int, json: Option<Json>)
    requires status != StatusOk
    ensures Classify(Responded(Response(status, Some(""), json))).exception.errorMessage == ""
    ensures Classify(Responded(Response(status, None, json))).exception.errorMessage == "N/A"
  {
  }

  /** Other success-range statuses are not accepted: 201 and 204 are client
      errors, 301 too. */
  lemma OnlyExactOkSucceeds(text: Option<string>, json: Option<Json>)
    ensures forall s :: s in {201, 204, 301} ==>
              Classify(Responded(Response(s, text, json))) ==
              Failed(PubNubException(ClientError, ErrorText(text), Some(s)))
  {
  }

  /** A connect timeout is both a ConnectionError and a Timeout; the clause
      written first decides, so it is reported as a connection error. */
  lemma ConnectTimeoutIsConnectionError(message: string)
    ensures Classify(Raised({ConnectionErrorClause, TimeoutClause}, message))
            == Failed(PubNubException(ConnectionError, message, None))
  {
  }

  // ---------------------------------------------------------------------------
  // pn_request and request_sync
  // ---------------------------------------------------------------------------

  /** One call of pn_request: the arguments handed to the transport and what
      pn_request made of the transport's outcome. */
  datatype Exchange = Exchange(sent: RequestArgs, result: RequestResult)

  /** pn_request. `request` stands for `session.request`: it is called once,
      with the arguments BuildArgs constructs, and its outcome is classified. */
  function PnRequest(request: RequestArgs -> TransportOutcome, schemeAndHost: string,
                     headers: Headers, options: RequestOptions,
                     connectTimeout: real, readTimeout: real): (x: Exchange)
    ensures x.sent.url == schemeAndHost + options.path
    ensures x.sent.headers == headers && x.sent.params == options.params
    ensures x.sent.timeout == (connectTimeout, readTimeout)
    ensures x.sent.verb == MethodName(options.httpMethod)
    ensures x.sent.data.Some? <==> options.httpMethod == POST
    ensures x.sent.data.Some? ==> x.sent.data.value == options.data
    ensures x.sent == BuildArgs(schemeAndHost, headers, options, connectTimeout, readTimeout)
    ensures x.result == Classify(request(x.sent))
    ensures x.result.Payload? ==> request(x.sent).Responded? && request(x.sent).response.statusCode == StatusOk
    ensures x.result.Failed? && request(x.sent).Raised? ==>
              x.result.exception.errorMessage == request(x.sent).message
  {
    var args := BuildArgs(schemeAndHost, headers, options, connectTimeout, readTimeout);
    Exchange(args, Classify(request(args)))
  }

  /** The client settings pn_request reads. `schemeAndHost` stands for
      `config.scheme_and_host()`. */
  datatype Config = Config(schemeAndHost: string, connectTimeout: real,
                           nonSubscribeRequestTimeout: real)

  /** request_sync: pn_request with the client's own headers, host and the
      connect and non-subscribe timeouts from its configuration. */
  function RequestSync(request: RequestArgs -> TransportOutcome, config: Config, platform: string,
                       options: RequestOptions): (x: Exchange)
    ensures x.sent.url == config.schemeAndHost + options.path
    ensures x.sent.headers.Keys == {UserAgentKey}
    ensures x.sent.headers[UserAgentKey] == [SdkName(platform)]
    ensures x.sent.timeout == (config.connectTimeout, config.nonSubscribeRequestTimeout)
    ensures x.sent.verb == MethodName(options.httpMethod) && x.sent.params == options.params
    ensures x.sent.data.Some? <==> options.httpMethod == POST
    ensures x.sent.data.Some? ==> x.sent.data.value == options.data
    ensures x.sent == BuildArgs(config.schemeAndHost, UserAgentHeaders(platform), options,
                                config.connectTimeout, config.nonSubscribeRequestTimeout)
    ensures x.result == Classify(request(x.sent))
  {
    PnRequest(request, config.schemeAndHost, UserAgentHeaders(platform), options,
              config.connectTimeout, config.nonSubscribeRequestTimeout)
  }

  /** A host that answers 403 "Forbidden" to a GET makes the call fail with a
      client error carrying 403 and the text. */
  lemma ForbiddenScenario(request: RequestArgs -> TransportOutcome, config: Config, platform: string,
                          path: string)
    requires forall a :: request(a) == Responded(Response(403, Some("Forbidden"), None))
    ensures RequestSync(request, config, platform, RequestOptions(path, map[], GET, None)).result
            == Failed(PubNubException(ClientError, "Forbidden", Some(403)))
  {
  }

  /** A host that answers 200 with a presence document makes the call return
      exactly that document. */
  lemma OkScenario(request: RequestArgs -> TransportOutcome, config: Config, platform: string)
    requires forall a :: request(a) == Responded(Response(200, Some("{\"status\":200,\"uuids\":[\"u1\"]}"), Some(PresenceDoc())))
    ensures RequestSync(request, config, platform,
                        RequestOptions("/v2/presence/sub-key/demo/channel/room1", map[], GET, None)).result
            == Payload(PresenceDoc())
  {
  }

  /** {"status": 200, "uuids": ["u1"]} */
  function PresenceDoc(): Json {
    JObject(map["status" := JNumber(200), "uuids" := JArray([JString("u1")])])
  }
}
