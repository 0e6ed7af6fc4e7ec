# freshpy request core, modelled in Dafny

freshpy is a read-only Python client for the Freshservice REST API. All of its
traffic goes through two pieces of logic, and this project models both and proves
properties about them.

- **The retrying GET executor** (`get_request_with_retries`, module `Api`). It calls
  the HTTP GET until a call completes, up to six times, with the counter `retries`
  running from 0 while `retries <= 5`. An exception whose lower-cased class name
  contains `"connect"` is reported and retried. Any other exception becomes a
  `RuntimeError("<Name>: <msg>")` at once. After six connection-class failures an
  `APIConnectionError` carrying the remediation message is raised. Once a response
  is obtained, it is handed back in one of four ways:
  - raw, when `return_json` is false;
  - the fixed 404 envelope;
  - the decoded body;
  - the decode-failure envelope.
- **Session construction** (`FreshPy.__init__`, module `Core`). A missing or empty
  domain or API key raises `MissingRequiredDataError("init")`. Otherwise the domain
  is rewritten in three steps:
  - `https://` is prefixed unless the domain starts with `http`;
  - one trailing `/` is stripped;
  - `/api/v2/` is appended to form `base_url`.

  The `Agents` and `Tickets` facades are created and point back to the client.
  Then `get` forwards to the executor, and `close` does nothing.

The network is an oracle, `transport: nat -> Attempt`: `transport(k)` is what the
k-th GET call does, either `Got(Response(status, body))` or
`Raised(typeName, message)`. Reading a body as JSON is a second oracle,
`decode: string -> Decoding`. The executor method returns three things:
- its result, a `Result` that is either the returned value or the raised exception;
- the requests it issued;
- the failures it reported.

Its postcondition ties all three to spec functions. `AttemptsFrom`/`AttemptsMade`
count the calls made. `ReportCount` counts the reports, and `Outcome` gives what
one execution returns or raises. The lemmas state the source's promises about
these functions.

In two places the code does something other than its own text suggests, and the
model follows the code:

- A response with status 429 when `return_json` is true does not back off. The
  source computes `5**i`, and no `i` is bound there (src/freshpy/api.py:87-88), so
  the call raises `NameError`. The model returns `Failure(NameError(..))` for that
  case and does not invent a backoff policy.
- The executor makes six calls in all, although the message says "five
  consecutive API timeouts" and the reports read "(Attempt 0 of 5)" through
  "(Attempt 5 of 5)".

Files: `wrappers.dfy` (Option, Result), `pystr.dfy` (the Python string
operations used), `api.dfy`, `core.dfy`.

## Model

| member | source | states |
|---|---|---|
| Api.DefineHeaders | src/freshpy/api.py:21-27 | the default headers are the single entry Content-Type: application/json |
| Api.DefineAuth | src/freshpy/api.py:30-36 | the credentials are the pair (api_key, "X") |
| Api.EffectiveHeaders | src/freshpy/api.py:65 | headers are never empty; caller headers are kept unless they are None or empty, in which case the default entry is used |
| Api.ReportFailedAttempt | src/freshpy/api.py:110-133 | the report succeeds exactly when the lower-cased class name contains "connect", and then carries the attempt number passed in, its "(Attempt r of 5)" text and the exception; otherwise the result is RuntimeError("<Name>: <msg>") |
| Api.ConnectionClassIff | src/freshpy/api.py:125-126 | an exception class is retried exactly when "connect" occurs at some index of its lower-cased name |
| Api.RepeatedTimeoutsError | src/freshpy/api.py:136-148 | the error is an APIConnectionError carrying the "run the script again or contact Freshservice Support" message |
| Api.AttemptsFrom | src/freshpy/api.py:74-83 | from counter r < 6 the number of calls n satisfies r < n <= 6 |
| Api.AttemptsFromSpec | src/freshpy/api.py:74-83 | every call before the last raised a connection-class exception, and if fewer than six calls were made the last one did not |
| Api.Normalize | src/freshpy/api.py:86-107 | what becomes of the response obtained: it is an error exactly when return_json is set and the status is 429, and then a NameError for the unbound `i`; the raw response comes back exactly when return_json is false, unchanged (the envelopes and the decoded body are stated by RawResponseUntouched, NotFoundIgnoresBody and DecodedOrEnveloped) |
| Api.StopsAt | src/freshpy/api.py:76-83 | once a call does not raise a connection-class exception the loop ends with that call: one call more than the counter, and only the earlier failures reported |
| Api.RunsOut | src/freshpy/api.py:75-85 | with the counter at 6 and the sixth call a connection-class failure, six calls were made, all six reported, and the execution counts as exhausted |
| Api.GetRequestWithRetries | src/freshpy/api.py:39-107 | the method makes between 1 and 6 calls, as many as AttemptsMade gives; each call is GET base_url+uri with the effective headers, (api_key, "X") and verify_ssl; every call but the last raised a connection-class exception; one report per connection-class failure, numbered by the pre-increment counter; the result is Outcome |
| Api.RecoversAfterConnectFailures | src/freshpy/api.py:74-83 | k <= 5 connection-class failures followed by a response give exactly k+1 calls and k reports, and the normalised (k+1)-th response is returned |
| Api.ExhaustsAfterSixConnectFailures | src/freshpy/api.py:74-85 | six connection-class failures give exactly six calls (no seventh) and six reports, and raise APIConnectionError with the remediation message |
| Api.AbortsOnOtherException | src/freshpy/api.py:76-83 | a non-connection-class exception on call k+1 (k <= 5) stops there: k+1 calls, only k reports, and RuntimeError("<Name>: <msg>") |
| Api.OutcomeShapes | src/freshpy/api.py:84-107 | every execution ends in exactly one of these ways: raw response (return_json false), 404 envelope, decoded body, decode-failure envelope, RuntimeError, APIConnectionError after six calls, or NameError on 429 |
| Api.ReportedAttemptNumbers | src/freshpy/api.py:125-128 | the k-th report carries attempt number k <= 5, and its attempt text reads "(Attempt k of 5)" |
| Api.RawResponseUntouched | src/freshpy/api.py:86-107 | with return_json false the raw response is returned whatever its status |
| Api.NotFoundIgnoresBody | src/freshpy/api.py:92-97 | a 404 with return_json gives the envelope {"status": "error", "status_code": 404, "error_message": "Data not found"} whatever the body and the decoder |
| Api.DecodedOrEnveloped | src/freshpy/api.py:98-106 | for any other status except 429: the decoded body, or {"status": "exception", "status_code": None, "error_message": <exc>} when decoding fails |
| Api.ConnectPrefixConnectionClass | src/freshpy/api.py:125-126 | a class name beginning with "connect" in any letter case is retried |
| Api.NoLetterCNotConnectionClass | src/freshpy/api.py:125-127 | a class name with no c/C in it, such as ReadTimeout or SSLError, is never retried and so becomes a RuntimeError |
| Api.RetriedClassExamples | src/freshpy/api.py:125-126 | ConnectionError and ConnectTimeout are retried |
| PyStr.ToLower | src/freshpy/api.py:126 | lowering keeps the length and lowers each character in place |
| PyStr.Contains | src/freshpy/api.py:126 | the left-to-right scan of `sub in s` holds exactly when the substring occurs at some index |
| PyStr.StartsWithIff | src/freshpy/core.py:37 | `s.startswith(p)` holds exactly when s is p followed by some string |
| PyStr.EndsWithIff | src/freshpy/core.py:39 | `s.endswith(x)` holds exactly when s is some string followed by x |
| PyStr.NatToString | src/freshpy/api.py:128 | the text of the attempt number is nonempty decimal digits with no leading zero, a single digit below 10 |
| PyStr.NatToStringRoundTrip | src/freshpy/api.py:128 | reading back the digits of the attempt number gives the number |
| Core.WithScheme | src/freshpy/core.py:36-38 | for the non-empty domains that reach it: the result begins with "http"; an address already beginning with "http" is kept; any other address gets "https://" in front |
| Core.StripTrailingSlash | src/freshpy/core.py:39 | exactly one final '/' is removed when present; otherwise the address is unchanged |
| Core.NormalizeDomain | src/freshpy/core.py:36-40 | the stored domain begins with "http"; it is the prefixed address minus one final '/' exactly when that address ends in '/', and the prefixed address itself exactly when it does not |
| Core.BaseUrlShape | src/freshpy/core.py:42-43 | base_url begins with "http" and ends in "/api/v2/" |
| Core.NormalizeAgainWithoutSlash | src/freshpy/core.py:36-40 | normalising a stored domain that does not end in '/' again leaves it unchanged |
| Core.BareHost | src/freshpy/core.py:36-43 | a host name without scheme or final '/' gets "https://" in front and nothing else, and its base_url is "https://" + host + "/api/v2/" |
| Core.DoubleSlashHost | src/freshpy/core.py:36-40 | a host followed by "//" keeps one '/' after normalisation and loses it on a second pass, so the rewriting is not idempotent |
| Core.ExampleDomain | src/freshpy/core.py:36-40 | "example.freshservice.com" gives domain "https://example.freshservice.com" |
| Core.ExampleBaseUrl | src/freshpy/core.py:36-43 | "example.freshservice.com" gives base_url "https://example.freshservice.com/api/v2/" |
| Core.FreshPy.Init | src/freshpy/core.py:23-50 | construction fails with MissingRequiredDataError("init") exactly when the domain or the key is None or empty, and then no client exists; otherwise the fresh client holds the normalised domain, base_url = domain + "/api/v2/" and the key |
| Core.FreshPy.constructor | src/freshpy/core.py:35-50 | the domain is rewritten step by step and the fields are set; the two facades are fresh and point back to this client |
| Core.Agents.constructor | src/freshpy/core.py:92-100 | the facade holds a back-reference to the client that created it |
| Core.Tickets.constructor | src/freshpy/core.py:193-201 | the facade holds a back-reference to the client that created it |
| Core.FreshPy.Get | src/freshpy/core.py:66-87 | on a constructed client, get forwards uri, headers, return_json and verify_ssl unchanged, using the client's own base_url and key; every call it issues targets domain + "/api/v2/" + uri, a URL that begins with "http", and its result is the executor's Outcome |
| Core.FreshPy.Close | src/freshpy/core.py:316-320 | close changes nothing, so it can be called any number of times |

## Left out

- The HTTP call (`requests.get`). It is the `transport` oracle; timeouts, TLS and connection pooling are not modelled.
- JSON decoding (`response.json()`). It is the `decode` oracle over the body; decoder exceptions are modelled by their text.
- The backoff on 429 (time.sleep, random.random and the float delay). In the source this code raises NameError before any pause, and the model keeps that behaviour.
- Output to the error stream and logging. Only the attempt number, its "(Attempt r of 5)" text, the class name and the message of each retried failure are recorded; the full eprint text and the `request_type.upper()` prefix are not built.
- Exceptions that `except Exception` does not catch. `Raised` stands only for subclasses of `Exception`; a `BaseException` such as `KeyboardInterrupt` or `SystemExit` would propagate from `requests.get` unchanged, and the model has no way to express it.
- Default arguments. `headers=None, return_json=True, verify_ssl=True` of the executor and of `get`, and `domain=None, api_key=None` of the constructor, are not modelled as defaults; every member takes each argument explicitly, and `Api.EffectiveHeaders`, `Core.FreshPy.Init` take `None` as `Option.None`.
- Core.WithScheme: the `domain and` guard is not modelled; the function requires a non-empty domain, as construction refuses an empty one before the rewriting.
- Api.ReportFailedAttempt: its request-type argument (always "get") is not modelled, because it appears only in the printed text.
- PyStr.ToLower: only ASCII letters are lowered. Python's `str.lower` covers all of Unicode; exception class names are ASCII identifiers.
- The `fresh_object` argument of the executor is seen only through the two fields it reads, `base_url` and `api_key`.
- `self.version = version.get_full_version()`. This is a call into a module that is not part of this model.
- The Agents and Tickets facade methods (get_requesters, get_ticket, get_tickets, ...). They forward to `agents` and `tickets` modules, which are not part of this model.
- `__del__` and garbage collection. `close` itself is modelled.
- Python's dynamic typing. The domain and key are modelled as optional strings, and a non-string argument is not modelled.
