/** The request layer of the Freshservice client: headers, credentials and the
    retrying GET executor. The network is an oracle: `transport(k)` is what the
    k-th call to the HTTP GET does (answer with a response, or raise), and
    `decode(body)` is what reading the body as JSON does. */
module Api {
  import opened Wrappers
  import opened PyStr

  /** The loop keeps trying while `retries <= MaxRetries`. */
  const MaxRetries: nat := 5
  /** Hence at most this many GET calls in one execution. */
  const AttemptLimit: nat := MaxRetries + 1

  const TimeoutMessage: string :=
    "The script was unable to complete successfully after five consecutive API timeouts. "
    + "Please run the script again or contact Freshservice Support for further assistance."

  /** The message Python gives when the rate-limit branch evaluates the unbound name `i`. */
  const UnboundNameMessage: string := "name 'i' is not defined"

  datatype Response = Response(statusCode: int, body: string)

  /** One call of the HTTP GET: it returns a response or raises an exception
      of the named class with the given message. `Raised` stands only for
      subclasses of Python's `Exception`, the ones `except Exception` catches;
      a `BaseException` such as `KeyboardInterrupt` is not modelled. */
  datatype Attempt = Got(response: Response) | Raised(typeName: string, message: string)

  /** The JSON values a decoded body, or a synthetic envelope, is made of. */
  datatype Json =
    | JNull
    | JBool(b: bool)
    | JInt(n: int)
    | JStr(s: string)
    | JArray(items: seq<Json>)
    | JObject(fields: map<string, Json>)

  /** Reading a body as JSON: a value, or the exception (as its text) the decoder raised. */
  datatype Decoding = Parsed(value: Json) | Undecodable(error: string)

  /** What the executor hands back: the raw response, or JSON-shaped data. */
  datatype Returned = RawResponse(response: Response) | JsonData(data: Json)

  datatype ApiError =
    | RuntimeError(message: string)
    | APIConnectionError(message: string)
    | NameError(message: string)

  /** The arguments of one call of the HTTP GET. */
  datatype Request = Request(url: string, headers: map<string, string>, auth: (string, string), verify: bool)

  /** What is written to the error stream for one retried failure: the
      attempt number, the text that names it, and the exception. */
  datatype FailureReport = FailureReport(attempt: nat, attemptText: string, typeName: string, message: string)

  /** The default headers: one content-type entry. */
  function DefineHeaders(): (h: map<string, string>)
    ensures h.Keys == {"Content-Type"} && h["Content-Type"] == "application/json"
  {
    map["Content-Type" := "application/json"]
  }

  /** Basic-auth credentials: the key as user name, a fixed placeholder password. */
  function DefineAuth(apiKey: string): (c: (string, string))
    ensures c.0 == apiKey && c.1 == "X"
  {
    (apiKey, "X")
  }

  /** `headers or define_headers()`: `None` and `{}` are both falsy. */
  function EffectiveHeaders(headers: Option<map<string, string>>): (h: map<string, string>)
    ensures h != map[]
    ensures headers.Some? && headers.value != map[] ==> h == headers.value
    ensures headers.None? || headers.value == map[] ==> h == DefineHeaders()
  {
    if headers.None? || headers.value == map[] then DefineHeaders() else headers.value
  }

  /** The exception class names the executor retries: those whose lower-cased
      name contains "connect". */
  predicate IsConnectionClass(typeName: string) {
    Contains(ToLower(typeName), "connect")
  }

  /** The test holds exactly when "connect" occurs somewhere in the lower-cased name. */
  lemma ConnectionClassIff(typeName: string)
    ensures IsConnectionClass(typeName) <==> exists i: nat :: OccursAt(ToLower(typeName), "connect", i)
  {
    var lower := ToLower(typeName);
    assert forall i: nat :: OccursAt(lower, "connect", i) == OccursAt(ToLower(typeName), "connect", i);
  }

  predicate IsConnectFailure(a: Attempt) {
    a.Raised? && IsConnectionClass(a.typeName)
  }

  /** The text naming the attempt in a report. */
  function AttemptLabel(retries: nat): string {
    "(Attempt " + NatToString(retries) + " of 5)"
  }

  /** `_report_failed_attempt`: a connection-class exception is reported with
      the current attempt number; any other exception becomes a RuntimeError. */
  function ReportFailedAttempt(typeName: string, message: string, retries: nat): (r: Result<FailureReport, ApiError>)
    ensures r.Success? <==> IsConnectionClass(typeName)
    ensures r.Success? ==> r.value.attempt == retries && r.value.typeName == typeName && r.value.message == message
    ensures r.Success? ==> r.value.attemptText == AttemptLabel(retries)
    ensures r.Failure? ==> r.error == RuntimeError(typeName + ": " + message)
  {
    if !IsConnectionClass(typeName) then Failure(RuntimeError(typeName + ": " + message))
    else Success(FailureReport(retries, AttemptLabel(retries), typeName, message))
  }

  /** `_raise_exception_for_repeated_timeouts`. */
  function RepeatedTimeoutsError(): (e: ApiError)
    ensures e.APIConnectionError? && e.message == TimeoutMessage
  {
    APIConnectionError(TimeoutMessage)
  }

  /** The envelope returned in place of a body when the status is 404. */
  function NotFoundEnvelope(): Json {
    JObject(map["status" := JStr("error"), "status_code" := JInt(404), "error_message" := JStr("Data not found")])
  }

  /** The envelope returned in place of a body that cannot be read as JSON. */
  function DecodeFailureEnvelope(error: string): Json {
    JObject(map["status" := JStr("exception"), "status_code" := JNull, "error_message" := JStr(error)])
  }

  /** What becomes of the response once one was obtained. With `returnJson`
      a 429 first evaluates `5**i`, and `i` is unbound at that point. */
  function Normalize(response: Response, returnJson: bool, decode: string -> Decoding): (r: Result<Returned, ApiError>)
    ensures r.Failure? <==> returnJson && response.statusCode == 429
    ensures r.Failure? ==> r.error == NameError(UnboundNameMessage)
    ensures r.Success? ==> (r.value.RawResponse? <==> !returnJson)
    ensures r.Success? && r.value.RawResponse? ==> r.value.response == response
  {
    if !returnJson then Success(RawResponse(response))
    else if response.statusCode == 429 then Failure(NameError(UnboundNameMessage))
    else if response.statusCode == 404 then Success(JsonData(NotFoundEnvelope()))
    else match decode(response.body)
      case Parsed(v) => Success(JsonData(v))
      case Undecodable(e) => Success(JsonData(DecodeFailureEnvelope(e)))
  }

  /** The number of GET calls made when the counter stands at `retries`:
      calls go on while they raise a connection-class exception and fewer
      than `AttemptLimit` calls have been made. */
  function AttemptsFrom(transport: nat -> Attempt, retries: nat): (n: nat)
    requires retries <= AttemptLimit
    ensures retries <= n <= AttemptLimit
    ensures retries < AttemptLimit ==> retries < n
    decreases AttemptLimit - retries
  {
    if retries == AttemptLimit then AttemptLimit
    else if IsConnectFailure(transport(retries)) then AttemptsFrom(transport, retries + 1)
    else retries + 1
  }

  /** From counter `retries`, every call but the last raised a
      connection-class exception, and the last did not unless the limit
      was reached. */
  lemma {:induction false} AttemptsFromSpec(transport: nat -> Attempt, retries: nat)
    requires retries <= AttemptLimit
    ensures var n := AttemptsFrom(transport, retries);
      (forall i :: retries <= i < n - 1 ==> IsConnectFailure(transport(i)))
      && (retries < n < AttemptLimit ==> !IsConnectFailure(transport(n - 1)))
    decreases AttemptLimit - retries
  {
    if retries < AttemptLimit && IsConnectFailure(transport(retries)) {
      AttemptsFromSpec(transport, retries + 1);
    }
  }

  /** The number of GET calls one execution makes. */
  function AttemptsMade(transport: nat -> Attempt): nat
  {
    AttemptsFrom(transport, 0)
  }

  /** Every call raised a connection-class exception. */
  predicate Exhausted(transport: nat -> Attempt) {
    IsConnectFailure(transport(AttemptsMade(transport) - 1))
  }

  /** The number of failures reported: every connection-class one. */
  function ReportCount(transport: nat -> Attempt): nat {
    if Exhausted(transport) then AttemptsMade(transport) else AttemptsMade(transport) - 1
  }

  /** The report written for the k-th call, which raised. */
  function ReportOf(transport: nat -> Attempt, k: nat): FailureReport
    requires transport(k).Raised?
  {
    FailureReport(k, AttemptLabel(k), transport(k).typeName, transport(k).message)
  }

  /** What one execution returns or raises; it depends only on the last call. */
  function Outcome(transport: nat -> Attempt, returnJson: bool, decode: string -> Decoding): Result<Returned, ApiError> {
    match transport(AttemptsMade(transport) - 1)
    case Got(response) => Normalize(response, returnJson, decode)
    case Raised(name, message) =>
      if IsConnectionClass(name) then Failure(RepeatedTimeoutsError())
      else Failure(RuntimeError(name + ": " + message))
  }

  /** The execution stops at call `r` when that call is not a connection-class
      failure: `r + 1` calls, the earlier `r` of them reported. */
  lemma StopsAt(transport: nat -> Attempt, r: nat)
    requires r < AttemptLimit && AttemptsFrom(transport, r) == AttemptsMade(transport)
    requires !IsConnectFailure(transport(r))
    ensures AttemptsMade(transport) == r + 1 && !Exhausted(transport) && ReportCount(transport) == r
  {
  }

  /** The execution runs out after six connection-class failures. */
  lemma RunsOut(transport: nat -> Attempt)
    requires AttemptsFrom(transport, AttemptLimit) == AttemptsMade(transport)
    requires IsConnectFailure(transport(AttemptLimit - 1))
    ensures AttemptsMade(transport) == AttemptLimit && Exhausted(transport) && ReportCount(transport) == AttemptLimit
  {
  }

  /** Appending the report of call `r`, a connection-class failure, keeps the
      reports in step with the calls. */
  lemma ReportsExtended(transport: nat -> Attempt, reports: seq<FailureReport>, r: nat)
    requires |reports| == r && IsConnectFailure(transport(r))
    requires forall k :: 0 <= k < r ==> IsConnectFailure(transport(k)) && reports[k] == ReportOf(transport, k)
    ensures var extended := reports + [ReportOf(transport, r)];
      forall k :: 0 <= k < r + 1 ==> IsConnectFailure(transport(k)) && extended[k] == ReportOf(transport, k)
  {
  }

  /** `get_request_with_retries`. Besides the result it yields the calls made to
      the HTTP GET and the failures reported on the error stream. */
  method GetRequestWithRetries(
    baseUrl: string, apiKey: string, uri: string, headers: Option<map<string, string>>,
    returnJson: bool, verifySsl: bool, transport: nat -> Attempt, decode: string -> Decoding)
    returns (result: Result<Returned, ApiError>, issued: seq<Request>, reports: seq<FailureReport>)
    ensures |issued| == AttemptsMade(transport)
    ensures 1 <= |issued| <= AttemptLimit
    ensures forall k :: 0 <= k < |issued| ==>
      issued[k] == Request(baseUrl + uri, EffectiveHeaders(headers), DefineAuth(apiKey), verifySsl)
    ensures forall k :: 0 <= k < |issued| - 1 ==> IsConnectFailure(transport(k))
    ensures |reports| == ReportCount(transport)
    ensures forall k :: 0 <= k < |reports| ==> IsConnectFailure(transport(k)) && reports[k] == ReportOf(transport, k)
    ensures result == Outcome(transport, returnJson, decode)
  {
    var hdrs := EffectiveHeaders(headers);
    var credentials := DefineAuth(apiKey);
    var queryUrl := baseUrl + uri;
    var request := Request(queryUrl, hdrs, credentials, verifySsl);

    var retries: nat, response: Option<Response> := 0, None;
    issued, reports := [], [];
    while retries <= MaxRetries
      invariant retries <= AttemptLimit
      invariant response.None?
      invariant AttemptsFrom(transport, retries) == AttemptsMade(transport)
      invariant |issued| == retries && forall k :: 0 <= k < retries ==> issued[k] == request
      invariant |reports| == retries
      invariant forall k :: 0 <= k < retries ==> IsConnectFailure(transport(k)) && reports[k] == ReportOf(transport, k)
    {
      issued := issued + [request];
      match transport(retries)
      case Got(r) =>
        StopsAt(transport, retries);
        response := Some(r);
        break;
      case Raised(name, message) =>
        var reported := ReportFailedAttempt(name, message, retries);
        if reported.Failure? {
          StopsAt(transport, retries);
          result := Failure(reported.error);
          return;
        }
        assert reported.value == ReportOf(transport, retries);
        ReportsExtended(transport, reports, retries);
        reports := reports + [reported.value];
        retries := retries + 1;
    }
    if retries == AttemptLimit {
      RunsOut(transport);
      result := Failure(RepeatedTimeoutsError());
      return;
    }
    result := Normalize(response.value, returnJson, decode);
  }

  // ---------------------------------------------------------------------
  // Properties of one execution

  /** k <= 5 connection-class failures and then a response: k + 1 calls,
      k reports, and the normalised response of the last call. */
  lemma {:induction false} RecoversAfterConnectFailures(
    transport: nat -> Attempt, k: nat, returnJson: bool, decode: string -> Decoding)
    requires k <= MaxRetries
    requires forall i :: 0 <= i < k ==> IsConnectFailure(transport(i))
    requires transport(k).Got?
    ensures AttemptsMade(transport) == k + 1
    ensures !Exhausted(transport) && ReportCount(transport) == k
    ensures Outcome(transport, returnJson, decode) == Normalize(transport(k).response, returnJson, decode)
  {
  }

  /** Six connection-class failures in a row: six calls, no seventh, six
      reports, and an APIConnectionError with the remediation message. */
  lemma {:induction false} ExhaustsAfterSixConnectFailures(
    transport: nat -> Attempt, returnJson: bool, decode: string -> Decoding)
    requires forall i :: 0 <= i < AttemptLimit ==> IsConnectFailure(transport(i))
    ensures AttemptsMade(transport) == AttemptLimit
    ensures Exhausted(transport) && ReportCount(transport) == AttemptLimit
    ensures Outcome(transport, returnJson, decode) == Failure(APIConnectionError(TimeoutMessage))
  {
  }

  /** An exception of another class on call k ends the execution there with a
      RuntimeError, after only the k earlier failures were reported. */
  lemma {:induction false} AbortsOnOtherException(
    transport: nat -> Attempt, k: nat, returnJson: bool, decode: string -> Decoding)
    requires k <= MaxRetries
    requires forall i :: 0 <= i < k ==> IsConnectFailure(transport(i))
    requires transport(k).Raised? && !IsConnectionClass(transport(k).typeName)
    ensures AttemptsMade(transport) == k + 1
    ensures !Exhausted(transport) && ReportCount(transport) == k
    ensures Outcome(transport, returnJson, decode)
         == Failure(RuntimeError(transport(k).typeName + ": " + transport(k).message))
  {
  }

  /** Every execution ends in exactly one of these ways. */
  lemma OutcomeShapes(transport: nat -> Attempt, returnJson: bool, decode: string -> Decoding)
    ensures var last := transport(AttemptsMade(transport) - 1);
      match Outcome(transport, returnJson, decode)
      case Success(RawResponse(r)) => !returnJson && last == Got(r)
      case Success(JsonData(j)) =>
        returnJson && last.Got? && last.response.statusCode != 429 &&
        if last.response.statusCode == 404 then j == NotFoundEnvelope()
        else (match decode(last.response.body)
          case Parsed(v) => j == v
          case Undecodable(e) => j == DecodeFailureEnvelope(e))
      case Failure(RuntimeError(m)) =>
        last.Raised? && !IsConnectionClass(last.typeName) && m == last.typeName + ": " + last.message
      case Failure(APIConnectionError(m)) =>
        Exhausted(transport) && AttemptsMade(transport) == AttemptLimit && m == TimeoutMessage
      case Failure(NameError(_)) => returnJson && last.Got? && last.response.statusCode == 429
  {
  }

  /** The attempt numbers reported are the counter before its increment:
      0, 1, ... up to 5, each printed as "(Attempt r of 5)". */
  lemma ReportedAttemptNumbers(transport: nat -> Attempt, k: nat)
    requires k < ReportCount(transport)
    ensures transport(k).Raised? && ReportOf(transport, k).attempt == k <= MaxRetries
    ensures ReportOf(transport, k).attemptText == "(Attempt " + [DigitChar(k)] + " of 5)"
  {
  }

  // ---------------------------------------------------------------------
  // Properties of the normalisation of a response

  /** Without `returnJson` the response comes back untouched, whatever its status. */
  lemma RawResponseUntouched(response: Response, decode: string -> Decoding)
    ensures Normalize(response, false, decode) == Success(RawResponse(response))
  {
  }

  /** A 404 yields the fixed envelope, whatever the body and the decoder. */
  lemma NotFoundIgnoresBody(body1: string, body2: string, decode1: string -> Decoding, decode2: string -> Decoding)
    ensures Normalize(Response(404, body1), true, decode1) == Normalize(Response(404, body2), true, decode2)
    ensures Normalize(Response(404, body1), true, decode1) == Success(JsonData(NotFoundEnvelope()))
  {
  }

  /** Any other status (save 429) yields the decoded body, or the
      decode-failure envelope carrying the decoder's exception. */
  lemma DecodedOrEnveloped(response: Response, decode: string -> Decoding)
    requires response.statusCode != 404 && response.statusCode != 429
    ensures decode(response.body).Parsed? ==>
      Normalize(response, true, decode) == Success(JsonData(decode(response.body).value))
    ensures decode(response.body).Undecodable? ==>
      Normalize(response, true, decode) == Success(JsonData(DecodeFailureEnvelope(decode(response.body).error)))
  {
  }

  /** A name that starts with "connect", in any letter case, is connection-class. */
  lemma ConnectPrefixConnectionClass(typeName: string)
    requires |typeName| >= 7
    requires forall i :: 0 <= i < 7 ==> LowerChar(typeName[i]) == "connect"[i]
    ensures IsConnectionClass(typeName)
  {
    var lower := ToLower(typeName);
    assert lower[..7] == "connect";
  }

  /** Two exception classes of the HTTP library that are retried. */
  lemma RetriedClassExamples()
    ensures IsConnectionClass("ConnectionError")
    ensures IsConnectionClass("ConnectTimeout")
  {
    ConnectPrefixConnectionClass("ConnectionError");
    ConnectPrefixConnectionClass("ConnectTimeout");
  }

  /** A name with no 'c' or 'C' in it is never connection-class. */
  lemma {:induction false} NoLetterCNotConnectionClass(typeName: string)
    requires forall i :: 0 <= i < |typeName| ==> typeName[i] != 'c' && typeName[i] != 'C'
    ensures !IsConnectionClass(typeName)
  {
    var lower := ToLower(typeName);
    assert forall i :: 0 <= i < |lower| ==> lower[i] != 'c';
    forall i: nat ensures !OccursAt(lower, "connect", i) {
      if i + 7 <= |lower| {
        assert lower[i..i + 7][0] == lower[i];
      }
    }
  }

}
