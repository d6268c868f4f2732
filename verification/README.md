# PubNub Python SDK transport core, in Dafny

This project models `pn_request` in `pubnub/pubnub_core.py`. That function:

- builds the keyword arguments of one `session.request` call from a `RequestOptions`;
- classifies what the call produced, giving either the parsed JSON payload or a `PubNubException`;
- the exception carries a `PNERR_*` error constant, a message and, for HTTP status failures, the status code.

The project also models the `sdk_name` / `headers` properties, which build the User-Agent header, and `request_sync`, which wires the client's configuration into `pn_request`.

Everything is a pure function, because the source keeps no state across calls:

- `types.dfy` (module `PubNubTypes`) holds the values `pn_request` consumes and produces: `RequestOptions`, `HttpMethod`, the `PNERR_*` constants as the datatype `PnError`, and `PubNubException`.
- `pubnub_core.dfy` (module `PubNubCore`) holds the User-Agent, argument construction, classification, `pn_request` and `request_sync`.

How the model stands in for what it cannot see:

- **The HTTP call.** `session.request(**args)` is a function parameter `request: RequestArgs -> TransportOutcome`. `PnRequest` returns an `Exchange`, which pairs the arguments sent with the result. Contracts can therefore speak of both.
- **Raised exceptions.** A raised exception is given by the set of `except` clauses whose class it is an instance of, plus `str(e)`. An exception that matches none of the four named clauses has the empty set and falls to `except Exception`. The HTTP-error clause is urllib3's `HTTPError`, the class the source imports; `requests.exceptions.HTTPError` does not match it and ends as an unknown error. A set is used rather than a single kind because one exception can match several clauses: a connect timeout is both a `ConnectionError` and a `Timeout`. The set lets the model state that the first clause written wins.
- **JSON parsing.** `res.json()` is the `json` field of `Response`. `None` means parsing failed. That failure happens outside the `try` block, so it reaches the caller unclassified, as `ParseFailure`.

## Model

| member | source | states |
|---|---|---|
| `PubNubCore.SdkName` | pubnub/pubnub_core.py:51-53 | the name is exactly the base "PubNub-Python", the platform discriminator, "/" and the version "4.0.0", laid out in that order and with that total length |
| `PubNubCore.PlatformOfSdkName` | pubnub/pubnub_core.py:51-53 | the platform discriminator can be recovered from the SDK name (round trip) |
| `PubNubCore.SdkNameInjective` | pubnub/pubnub_core.py:51-53 | two client variants have the same SDK name if and only if they have the same platform discriminator |
| `PubNubCore.UserAgentHeaders` | pubnub/pubnub_core.py:58-63 | the headers have exactly one key, User-Agent, and its value is the one-element list holding the SDK name |
| `PubNubTypes.MethodName` | pubnub/pubnub_core.py:73 | the verb sent is non-empty; it is "GET" exactly for GET and "POST" exactly for POST |
| `PubNubCore.BuildArgs` | pubnub/pubnub_core.py:70-84 | the URL is scheme-and-host followed by the path; headers and params pass through unchanged; the timeout is the ordered pair (connect, read); a data entry is present if and only if the method is POST, and then it equals the options' data |
| `PubNubCore.UrlSplitsIntoHostAndPath` | pubnub/pubnub_core.py:72 | no separator is inserted: the host is a prefix of the URL and the rest is exactly the path, so for one host two URLs are equal if and only if the paths are |
| `PubNubCore.NonPostDataIgnored` | pubnub/pubnub_core.py:83-87 | for a non-POST request there is no data entry, and changing the options' data does not change the arguments sent |
| `PubNubCore.ClauseError` | pubnub/pubnub_core.py:92-111 | each named except clause raises a transport error constant, never a server, client or unknown error |
| `PubNubCore.FirstMatch` | pubnub/pubnub_core.py:90-116 | reference semantics of an except chain: the index returned is that of a clause the exception matches, and no earlier clause matches; None means no clause matches |
| `PubNubCore.ClassifyRaised` | pubnub/pubnub_core.py:90-116 | a transport exception gives ConnectionError if it is a connection error; otherwise HttpError if it is an HTTP error; otherwise ClientTimeout if it is a timeout; otherwise TooManyRedirects if it is a redirect error; otherwise UnknownError (exactly when no clause matches); each case is stated as if-and-only-if; the message is str(e) and there is no status code |
| `PubNubCore.ClassifyRaisedIsFirstMatch` | pubnub/pubnub_core.py:90-116 | the except chain agrees with the first-match reference over the clauses in their written order |
| `PubNubCore.EarlierClauseWins` | pubnub/pubnub_core.py:90-116 | an exception matching an earlier clause is never reported with the error of a later clause |
| `PubNubCore.ConnectTimeoutIsConnectionError` | pubnub/pubnub_core.py:92-106 | an exception that is both a connection error and a timeout is reported as PNERR_CONNECTION_ERROR with its message and no status code |
| `PubNubCore.ErrorText` | pubnub/pubnub_core.py:120-123 | the message of a failed response is its text, or "N/A" when the text is None |
| `PubNubCore.ClassifyResponse` | pubnub/pubnub_core.py:118-135 | status exactly 200 never fails: it yields the parsed body, or the unclassified parse failure; any other status fails with that status code attached; the error is ServerError if and only if the status is at least 500 and ClientError if and only if it is below 500; the message is the text, or "N/A" |
| `PubNubCore.Classify` | pubnub/pubnub_core.py:89-135 | every transport outcome has exactly one result: the payload exactly when a response has status 200 and a body that parses; a PubNubException exactly when the call raised or the status is not 200; the parse failure exactly when status is 200 and parsing fails |
| `PubNubCore.StatusCodeOnlyForResponseErrors` | pubnub/pubnub_core.py:92-133 | a failure carries a status code if and only if it is a server or client error, and those errors arise if and only if a response was received |
| `PubNubCore.EmptyTextStaysEmpty` | pubnub/pubnub_core.py:120-123 | only a missing text becomes "N/A"; an empty response text gives an empty message |
| `PubNubCore.OnlyExactOkSucceeds` | pubnub/pubnub_core.py:119-128 | statuses 201, 204 and 301 are client errors carrying their status, not successes |
| `PubNubCore.PnRequest` | pubnub/pubnub_core.py:70-135 | the arguments sent are exactly those BuildArgs builds: the URL is host followed by path; the verb is the method's name; headers and params are unchanged; the timeout is the (connect, read) pair; data is present only for POST and then equals the options' data; the result is the classification of the outcome of that one call; a payload implies a 200 response; a transport failure carries the exception's message |
| `PubNubCore.RequestSync` | pubnub/pubnub_core.py:33-35 | the synchronous request sends exactly the arguments BuildArgs builds from the unchanged options: the client's User-Agent header as its only header, the configuration's host, connect timeout and non-subscribe timeout, the options' verb and params, and POST-only data equal to the options' data; it classifies the outcome |
| `PubNubCore.ForbiddenScenario` | pubnub/pubnub_core.py:119-133 | a GET answered with 403 "Forbidden" fails with PNERR_CLIENT_ERROR, status 403 and message "Forbidden" |
| `PubNubCore.OkScenario` | pubnub/pubnub_core.py:119-135 | a presence GET answered with 200 and a JSON document returns exactly that document |

## Left out

- The HTTP transport itself: `requests.Session()` and `session.request` are network I/O. The model takes the call's outcome as a function of the arguments.
- The `requests` exception class hierarchy. The model takes, for each raised exception, the set of except clauses it matches. It does not derive that set from class names.
- Exceptions that are not `Exception`s (`BaseException` subclasses such as `KeyboardInterrupt`): they escape every clause. The model assumes every raised error reaches `except Exception`.
- The JSON parser: `res.json()` is an input (parsed document or failure). JSON text is not parsed, and the parse error's message is not kept.
- Logging: the `logger.debug` lines in `pn_request` are side effects with no behaviour to verify.
- `request_async` and `request_deferred`: they are abstract in this file and implemented by client variants that are not part of this model. Their callback and future semantics concern concurrency.
- `sdk_platform`: abstract here. The platform discriminator is a parameter.
- The constructor (`config.validate()`, session creation), `scheme_and_host()` and the `uuid` accessor belong to the configuration object, which is not part of this model. `Config.schemeAndHost` stands for the value `scheme_and_host()` returns.
- The `here_now` and `publish` builders: the endpoint operations are not part of this model. They appear only as the `RequestOptions` they produce.
- `HttpMethod.string` lives in `pubnub/enums.py`, which is not part of this model. It is modelled as the two verbs `pn_request` distinguishes, GET and POST.
- `tests/integrational/tornado/test_fire.py`: an asynchronous test against a recorded HTTP exchange for an endpoint that is not part of this model. It has no logic of its own to model.
- Timeouts are passed through as `real` numbers. The model does not check them against Python's numeric types.
- The "N/A" fallback follows the code: only a missing text (`None`) becomes "N/A". An empty text stays empty.
