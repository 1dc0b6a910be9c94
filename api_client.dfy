/**
 * The client for Statistics Iceland's PX-Web API (`APIClient`): the base
 * URL is kept without trailing slashes, endpoints are joined to it with
 * exactly one slash, and a request answered with 400 is retried once on
 * the same endpoint with its ".px" suffix toggled.
 *
 * The HTTP exchange itself is a parameter: `Server` answers a request for
 * a URL with a status code and a body.
 */
module ApiClient {
  import opened Text

  /** The request: a GET, or a POST carrying a JSON body (as text). */
  datatype Verb = Get | Post(body: string)

  datatype Response = Response(status: int, text: string)

  /** What the network answers to a request for a URL. */
  type Server = (Verb, string) -> Response

  /** The parsed reply, or the `HTTPError` raised for a final status of 400 or more. */
  datatype Reply =
    | Json(document: string)
    | HttpError(verb: Verb, url: string, status: int, text: string)

  /** `APIClient(base_url)`: the base URL with trailing slashes removed. */
  function NewClient(baseUrl: string): (c: Client)
    ensures c.Valid()
    ensures |c.baseUrl| <= |baseUrl| && baseUrl[..|c.baseUrl|] == c.baseUrl
    ensures forall i :: |c.baseUrl| <= i < |baseUrl| ==> baseUrl[i] == '/'
  {
    Client(TrimRight(baseUrl, '/'))
  }

  /** `endpoint.endswith(".px")`: drop the suffix, otherwise add it, after stripping slashes. */
  function AlternateEndpoint(endpoint: string): (r: string)
    ensures var s := Strip(endpoint, '/');
            (EndsWith(s, ".px") ==> r + ".px" == s) && (!EndsWith(s, ".px") ==> r == s + ".px")
  {
    var s := Strip(endpoint, '/');
    if EndsWith(s, ".px") then s[..|s| - 3] else s + ".px"
  }

  predicate NoOuterSlash(s: string) {
    s == [] || (s[0] != '/' && s[|s| - 1] != '/')
  }

  datatype Client = Client(baseUrl: string) {

    /** The state `__init__` leaves: no slash at the end of the base URL. */
    predicate Valid() {
      baseUrl == [] || baseUrl[|baseUrl| - 1] != '/'
    }

    /** `_url`: base, one slash, and the endpoint with its outer slashes stripped. */
    function Url(endpoint: string): (r: string)
      ensures |r| > |baseUrl| && r[..|baseUrl| + 1] == baseUrl + "/"
      ensures NoOuterSlash(r[|baseUrl| + 1..])
      ensures Valid() && |baseUrl| > 0 ==> r[|baseUrl| - 1] != '/'
    {
      var r := baseUrl + "/" + Strip(endpoint, '/');
      assert r[|baseUrl| + 1..] == Strip(endpoint, '/');
      r
    }

    /**
     * What `get` and `post` promise: the first request goes to the
     * endpoint; a second one goes to the alternate endpoint exactly when
     * the first was answered with 400 and the alternate differs; the last
     * answer decides between the parsed reply and an `HTTPError`.
     */
    predicate RetriedOnce(verb: Verb, endpoint: string, server: Server, r: Reply, urls: seq<string>) {
      && 1 <= |urls| <= 2
      && urls[0] == Url(endpoint)
      && (|urls| == 2 <==> server(verb, urls[0]).status == 400 && AlternateEndpoint(endpoint) != endpoint)
      && (|urls| == 2 ==> urls[1] == Url(AlternateEndpoint(endpoint)))
      && var last := server(verb, urls[|urls| - 1]);
         (last.status >= 400 ==> r == HttpError(verb, urls[|urls| - 1], last.status, last.text))
         && (last.status < 400 ==> r == Json(last.text))
    }

    /** The request logic shared by `get` and `post`; `urls` lists the URLs requested, in order. */
    method Send(verb: Verb, endpoint: string, server: Server) returns (r: Reply, urls: seq<string>)
      ensures RetriedOnce(verb, endpoint, server, r, urls)
    {
      var url := Url(endpoint);
      urls := [url];
      var response := server(verb, url);
      if response.status == 400 {
        var alt := AlternateEndpoint(endpoint);
        if alt != endpoint {
          url := Url(alt);
          urls := urls + [url];
          response := server(verb, url);
        }
      }
      if response.status >= 400 {
        return HttpError(verb, url, response.status, response.text), urls;
      }
      r := Json(response.text);
    }

    /** `get(endpoint)` */
    method GetJson(endpoint: string, server: Server) returns (r: Reply, urls: seq<string>)
      ensures RetriedOnce(Get, endpoint, server, r, urls)
    {
      r, urls := Send(Get, endpoint, server);
    }

    /** `post(endpoint, json_body)` */
    method PostJson(endpoint: string, body: string, server: Server) returns (r: Reply, urls: seq<string>)
      ensures RetriedOnce(Post(body), endpoint, server, r, urls)
    {
      r, urls := Send(Post(body), endpoint, server);
    }
  }

  /** With a valid client, the URL has exactly one slash where base and endpoint meet. */
  lemma UrlOneSlash(c: Client, endpoint: string)
    requires c.Valid()
    ensures var r := c.Url(endpoint);
            r[|c.baseUrl|] == '/' &&
            (|c.baseUrl| > 0 ==> r[|c.baseUrl| - 1] != '/') &&
            (|r| > |c.baseUrl| + 1 ==> r[|c.baseUrl| + 1] != '/')
  {
    var r := c.Url(endpoint);
    assert r[..|c.baseUrl| + 1][|c.baseUrl|] == '/';
    if |r| > |c.baseUrl| + 1 {
      assert r[|c.baseUrl| + 1..][0] == r[|c.baseUrl| + 1];
    }
  }

  /** Toggling twice gives back a slash-free endpoint that has no ".px" suffix. */
  lemma AlternateRoundTrip(endpoint: string)
    requires NoOuterSlash(endpoint) && !EndsWith(endpoint, ".px")
    ensures AlternateEndpoint(AlternateEndpoint(endpoint)) == endpoint
  {
    StripUnchanged(endpoint, '/');
    var a := endpoint + ".px";
    assert a[|a| - 3..] == ".px";
    StripUnchanged(a, '/');
    assert a[..|a| - 3] == endpoint;
  }

  /**
   * Toggling twice gives back an endpoint ending in a single ".px" whose
   * stem has no outer slash. A doubled suffix does not come back:
   * "a.px.px" toggles to "a.px" and then to "a".
   */
  lemma AlternateRoundTripPx(stem: string)
    requires NoOuterSlash(stem) && !EndsWith(stem, ".px")
    ensures AlternateEndpoint(AlternateEndpoint(stem + ".px")) == stem + ".px"
  {
    var e := stem + ".px";
    assert e[|e| - 3..] == ".px";
    StripUnchanged(e, '/');
    assert e[..|e| - 3] == stem;
    StripUnchanged(stem, '/');
  }

  /**
   * The guard `alt != endpoint` always holds: toggling the suffix changes
   * every endpoint, so an answer of 400 is always retried once.
   */
  lemma AlternateNeverEqual(endpoint: string)
    ensures AlternateEndpoint(endpoint) != endpoint
  {
  }

  /** Every answer of 400 leads to exactly one retry, on the alternate endpoint. */
  lemma RetryOn400(c: Client, verb: Verb, endpoint: string, server: Server, r: Reply, urls: seq<string>)
    requires c.RetriedOnce(verb, endpoint, server, r, urls)
    ensures |urls| == 2 <==> server(verb, c.Url(endpoint)).status == 400
    ensures r.HttpError? <==> server(verb, urls[|urls| - 1]).status >= 400
  {
    AlternateNeverEqual(endpoint);
  }
}
