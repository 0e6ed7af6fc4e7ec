/** The client object: it validates and normalises the service address at
    construction, keeps the credential, wires up the two resource facades and
    sends every GET through the retrying executor. */
module Core {
  import opened Wrappers
  import opened PyStr
  import Api

  datatype CoreError = MissingRequiredDataError(context: string)

  /** The versioned path every request goes under. */
  const ApiPath: string := "/api/v2/"

  /** Python's `not value` for an optional string: `None` or empty. */
  predicate Falsy(value: Option<string>) {
    value.None? || value.value == ""
  }

  /** The first rewriting step: a scheme is put in front unless the address
      already starts with "http". The source guards it with `domain and`; the
      address is never empty here, as construction has already refused "". */
  function WithScheme(domain: string): (r: string)
    requires domain != ""
    ensures StartsWith(r, "http")
    ensures StartsWith(domain, "http") ==> r == domain
    ensures !StartsWith(domain, "http") ==> r == "https://" + domain
  {
    if !StartsWith(domain, "http") then "https://" + domain else domain
  }

  /** The second rewriting step: one final '/' is dropped, and only one. */
  function StripTrailingSlash(domain: string): (r: string)
    ensures EndsWith(domain, "/") ==> r + "/" == domain
    ensures !EndsWith(domain, "/") ==> r == domain
  {
    if EndsWith(domain, "/") then domain[..|domain| - 1] else domain
  }

  /** The stored domain: it always begins with "http", and it is the prefixed
      address with one final '/' taken off exactly when that address ends in '/'. */
  function NormalizeDomain(domain: string): (r: string)
    requires domain != ""
    ensures StartsWith(r, "http")
    ensures EndsWith(WithScheme(domain), "/") <==> r + "/" == WithScheme(domain)
    ensures !EndsWith(WithScheme(domain), "/") <==> r == WithScheme(domain)
  {
    var prefixed := WithScheme(domain);
    var r := StripTrailingSlash(prefixed);
    if EndsWith(prefixed, "/") then
      assert prefixed[..4] == "http" && prefixed[..4][3] == prefixed[3] == 'p';
      assert r[..4] == prefixed[..4];
      assert |r| != |prefixed|;
      r
    else
      r
  }

  function BaseUrl(domain: string): string {
    domain + ApiPath
  }

  /** The base URL begins with "http" and ends in the versioned API path. */
  lemma BaseUrlShape(domain: string)
    requires domain != ""
    ensures StartsWith(BaseUrl(NormalizeDomain(domain)), "http")
    ensures EndsWith(BaseUrl(NormalizeDomain(domain)), ApiPath)
  {
    var r := NormalizeDomain(domain);
    assert BaseUrl(r)[..4] == r[..4];
    assert BaseUrl(r)[|BaseUrl(r)| - |ApiPath|..] == ApiPath;
  }

  /** Normalising a stored domain again changes nothing, as long as it does
      not itself end in '/'. */
  lemma {:induction false} NormalizeAgainWithoutSlash(domain: string)
    requires domain != "" && !EndsWith(NormalizeDomain(domain), "/")
    ensures NormalizeDomain(NormalizeDomain(domain)) == NormalizeDomain(domain)
  {
  }

  /** A bare host name (no scheme, no final '/') gets the scheme and nothing else. */
  lemma BareHost(host: string)
    requires host != "" && !StartsWith(host, "http") && !EndsWith(host, "/")
    ensures NormalizeDomain(host) == "https://" + host
    ensures BaseUrl(NormalizeDomain(host)) == "https://" + host + "/api/v2/"
  {
    var prefixed := "https://" + host;
    assert prefixed[|prefixed| - 1..] == host[|host| - 1..];
  }

  /** A bare host name followed by "//" keeps one '/' after normalisation, and
      loses it only when normalised a second time: the rewriting is not idempotent. */
  lemma DoubleSlashHost(host: string)
    requires host != "" && !StartsWith(host, "http") && !EndsWith(host, "/")
    ensures NormalizeDomain(host + "//") == "https://" + host + "/"
    ensures NormalizeDomain(NormalizeDomain(host + "//")) == "https://" + host
    ensures NormalizeDomain(NormalizeDomain(host + "//")) != NormalizeDomain(host + "//")
  {
    var d := host + "//";
    assert !StartsWith(d, "http") by {
      if |host| >= 4 {
        assert d[..4] == host[..4];
      } else if |d| >= 4 {
        assert d[..4][|host|] == d[|host|] == '/';
      }
    }
    var prefixed := "https://" + d;
    assert EndsWith(prefixed, "/");
    var once := "https://" + host + "/";
    assert prefixed[..|prefixed| - 1] == once;
    assert once[..4] == "http";
    assert EndsWith(once, "/");
    assert once[..|once| - 1] == "https://" + host;
    assert |once[..|once| - 1]| != |once|;
  }

  /** The documented example: a bare host name. */
  lemma ExampleDomain()
    ensures NormalizeDomain("example.freshservice.com") == "https://example.freshservice.com"
  {
    var host := "example.freshservice.com";
    assert host[..4][0] == 'e';
    assert host[|host| - 1..][0] == 'm';
    BareHost(host);
  }

  /** The base URL of the documented example. */
  lemma ExampleBaseUrl()
    ensures BaseUrl(NormalizeDomain("example.freshservice.com")) == "https://example.freshservice.com/api/v2/"
  {
    ExampleDomain();
  }

  /** The Agents facade: a back-reference to the client it belongs to. */
  class Agents {
    const freshpy: FreshPy

    constructor (freshpy: FreshPy)
      ensures this.freshpy == freshpy
    {
      this.freshpy := freshpy;
    }
  }

  /** The Tickets facade: a back-reference to the client it belongs to. */
  class Tickets {
    const freshpy: FreshPy

    constructor (freshpy: FreshPy)
      ensures this.freshpy == freshpy
    {
      this.freshpy := freshpy;
    }
  }

  class FreshPy {
    var domain: string
    var baseUrl: string
    var apiKey: string
    var agents: Agents?
    var tickets: Tickets?

    /** A constructed client: a normalised domain, the base URL under it, a
        credential, and two facades that both point back to this client. */
    ghost predicate Valid()
      reads this
    {
      && StartsWith(domain, "http")
      && baseUrl == BaseUrl(domain)
      && apiKey != ""
      && agents != null && agents.freshpy == this
      && tickets != null && tickets.freshpy == this
    }

    /** `FreshPy(domain, api_key)`: the check that both are given, then the
        construction. */
    static method Init(domain: Option<string>, apiKey: Option<string>) returns (r: Result<FreshPy, CoreError>)
      ensures r.Failure? <==> Falsy(domain) || Falsy(apiKey)
      ensures r.Failure? ==> r.error == MissingRequiredDataError("init")
      ensures r.Success? ==> (fresh(r.value) && r.value.Valid()
        && r.value.domain == NormalizeDomain(domain.value)
        && r.value.baseUrl == r.value.domain + ApiPath
        && r.value.apiKey == apiKey.value)
    {
      if Falsy(domain) || Falsy(apiKey) {
        return Failure(MissingRequiredDataError("init"));
      }
      var client := new FreshPy(domain.value, apiKey.value);
      r := Success(client);
    }

    /** The part of `__init__` after validation: the domain is rewritten step
        by step, then the fields and the facades are set. */
    constructor (domainIn: string, apiKeyIn: string)
      requires domainIn != "" && apiKeyIn != ""
      ensures Valid()
      ensures domain == NormalizeDomain(domainIn) && baseUrl == domain + ApiPath && apiKey == apiKeyIn
      ensures fresh(agents) && fresh(tickets)
    {
      var d := if !StartsWith(domainIn, "http") then "https://" + domainIn else domainIn;
      d := if EndsWith(d, "/") then d[..|d| - 1] else d;
      assert d == NormalizeDomain(domainIn);
      domain := d;
      baseUrl := d + ApiPath;
      apiKey := apiKeyIn;
      agents, tickets := null, null;
      new;
      agents := new Agents(this);
      tickets := new Tickets(this);
    }

    /** `get`: the request is handed unchanged to the executor, with this
        client's base URL and credential. */
    method Get(uri: string, headers: Option<map<string, string>>, returnJson: bool, verifySsl: bool,
               transport: nat -> Api.Attempt, decode: string -> Api.Decoding)
      returns (result: Result<Api.Returned, Api.ApiError>, issued: seq<Api.Request>, reports: seq<Api.FailureReport>)
      requires Valid()
      ensures result == Api.Outcome(transport, returnJson, decode)
      ensures |issued| == Api.AttemptsMade(transport)
      ensures forall k :: 0 <= k < |issued| ==>
        issued[k] == Api.Request(baseUrl + uri, Api.EffectiveHeaders(headers), Api.DefineAuth(apiKey), verifySsl)
      ensures forall k :: 0 <= k < |issued| ==>
        issued[k].url == domain + ApiPath + uri && StartsWith(issued[k].url, "http")
      ensures |reports| == Api.ReportCount(transport)
      ensures forall k :: 0 <= k < |reports| ==> Api.IsConnectFailure(transport(k)) && reports[k] == Api.ReportOf(transport, k)
    {
      result, issued, reports := Api.GetRequestWithRetries(baseUrl, apiKey, uri, headers, returnJson, verifySsl, transport, decode);
      assert (domain + ApiPath + uri)[..4] == domain[..4];
    }

    /** `close`: releases nothing and changes nothing, so it may be called
        any number of times. */
    method Close()
      ensures unchanged(this)
    {
    }
  }
}
