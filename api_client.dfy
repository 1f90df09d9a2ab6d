/**
 * src/components/DevBar/apiClient.ts: the backend base URL derived from the
 * backend cookie or the page's host, the request options `apiRequest`
 * builds, and the `api` verb helpers. The page's protocol, host and cookie
 * are parameters; `fetch` is left out, so a request is returned as a value.
 */
module ApiClient {
  import opened Wrappers
  import opened Text
  import opened Subdomain
  import opened Hosts

  /** The fixed domain every backend lives under, with its leading dot. */
  const ApiDomain := ".api.discovery.wang"

  /** `getBackendBaseUrl()`: the cookie's slug, or else the page's first label, under `api.discovery.wang`. */
  function BackendBaseUrl(protocol: string, hostname: string, backendCookie: Option<string>): string
  {
    var subdomain := if Truthy(backendCookie) then BranchToSubdomain(backendCookie.value) else FirstLabel(hostname);
    protocol + "//" + subdomain + ApiDomain
  }

  /** `getCurrentBackendBranch()`: the raw cookie, or else the page's first label; never `main` by default. */
  function CurrentBackendBranch(hostname: string, backendCookie: Option<string>): (branch: string)
    ensures Truthy(backendCookie) ==> branch == backendCookie.value
    ensures !Truthy(backendCookie) ==> '.' !in branch && |branch| <= |hostname| && branch == hostname[..|branch|]
  {
    if Truthy(backendCookie) then backendCookie.value else FirstLabel(hostname)
  }

  /** The host of a backend URL has exactly the labels `[lbl, "api", "discovery", "wang"]`. */
  lemma ApiHostLabels(lbl: string)
    requires '.' !in lbl
    ensures Labels(lbl + ApiDomain) == [lbl, "api", "discovery", "wang"]
  {
    var parts := [lbl, "api", "discovery", "wang"];
    assert Join(parts, '.') == lbl + ApiDomain by {
      assert parts[1..][1..][1..] == ["wang"];
      assert Join(parts[1..][1..], '.') == "discovery" + "." + "wang";
      assert Join(parts[1..], '.') == "api" + "." + "discovery.wang";
      assert ApiDomain == "." + "api.discovery.wang";
    }
    SplitJoin(parts, '.');
  }

  /**
   * The base URL is the page's protocol, `//`, and a host whose labels are
   * the backend label followed by `api.discovery.wang`, whatever the page's
   * own domain. The label is the slug of the cookie when there is one, and
   * otherwise the raw first label of the page's host.
   */
  lemma BaseUrlShape(protocol: string, hostname: string, backendCookie: Option<string>)
    ensures var url := BackendBaseUrl(protocol, hostname, backendCookie);
      var lbl := if Truthy(backendCookie) then BranchToSubdomain(backendCookie.value) else CurrentBackendBranch(hostname, backendCookie);
      && url[..|protocol| + 2] == protocol + "//"
      && Labels(url[|protocol| + 2..]) == [lbl, "api", "discovery", "wang"]
  {
    var lbl := if Truthy(backendCookie) then BranchToSubdomain(backendCookie.value) else FirstLabel(hostname);
    var url := BackendBaseUrl(protocol, hostname, backendCookie);
    assert url == (protocol + "//") + (lbl + ApiDomain);
    assert url[|protocol| + 2..] == lbl + ApiDomain;
    ApiHostLabels(lbl);
  }

  /**
   * Without a cookie on a review host, the backend is the frontend branch
   * named in the URL; on `localhost` it is `localhost`.
   */
  lemma DefaultBackendFollowsFrontend(hostname: string, backendCookie: Option<string>)
    requires !Truthy(backendCookie)
    ensures GetBranchFromUrl(hostname).Some? ==> CurrentBackendBranch(hostname, backendCookie) == GetBranchFromUrl(hostname).value
    ensures CurrentBackendBranch("localhost", backendCookie) == "localhost"
  {
    FirstLabelWhole("localhost");
  }

  /** An own property of an options object: missing, present with value `undefined`, or defined. */
  datatype Prop<T> = Absent | Undefined | Defined(value: T)

  /** The `RequestInit` fields the client sets (`verb` is `method`), plus every other field by name. */
  datatype RequestInit = RequestInit(
    verb: Prop<string>,
    headers: Prop<map<string, string>>,
    body: Prop<string>,
    others: map<string, string>)

  /** `{}`; also what `options` is when a caller omits it, since spreading `undefined` adds nothing. */
  const NoOptions := RequestInit(Absent, Absent, Absent, map[])

  /** A request as handed to `fetch`. */
  datatype Request = Request(url: string, init: RequestInit)

  /** `{ ...a, ...b }` on one property: `b`'s own property wins, even when it holds `undefined`. */
  function Override<T>(a: Prop<T>, b: Prop<T>): (r: Prop<T>)
    ensures r == a || r == b
    ensures b != Absent ==> r == b
  {
    if b.Absent? then a else b
  }

  /** `{ ...a, ...b }`. */
  function Spread(a: RequestInit, b: RequestInit): (r: RequestInit)
    ensures r.others.Keys == a.others.Keys + b.others.Keys
    ensures forall k :: k in b.others ==> r.others[k] == b.others[k]
  {
    RequestInit(Override(a.verb, b.verb), Override(a.headers, b.headers), Override(a.body, b.body), a.others + b.others)
  }

  /** The headers `apiRequest` builds first: JSON content type, overridden by the caller's headers. */
  function MergedHeaders(options: RequestInit): (h: map<string, string>)
    ensures "Content-Type" in h
    ensures options.headers.Defined? ==> forall k :: k in options.headers.value ==> k in h && h[k] == options.headers.value[k]
    ensures !(options.headers.Defined? && "Content-Type" in options.headers.value) ==> h["Content-Type"] == "application/json"
  {
    var defaults := map["Content-Type" := "application/json"];
    if options.headers.Defined? then defaults + options.headers.value else defaults
  }

  /** `apiRequest(endpoint, options)` as written: the caller's own `headers` replace the merged ones. */
  function ApiRequestAsWritten(baseUrl: string, endpoint: string, options: RequestInit): (r: Request)
    ensures r.url == baseUrl + endpoint
  {
    var defaultOptions := RequestInit(Absent, Defined(MergedHeaders(options)), Absent, map[]);
    Request(baseUrl + endpoint, Spread(defaultOptions, options))
  }

  /**
   * As written, the JSON content type reaches `fetch` only when the caller
   * passes no `headers` property: any headers object of the caller's that
   * does not name `Content-Type` loses it.
   */
  lemma AsWrittenKeepsContentTypeOnlyWithoutHeaders(baseUrl: string, endpoint: string, options: RequestInit)
    ensures var h := ApiRequestAsWritten(baseUrl, endpoint, options).init.headers;
      (h.Defined? && "Content-Type" in h.value) <==>
      (options.headers.Absent? || (options.headers.Defined? && "Content-Type" in options.headers.value))
  {
  }

  /** A call with an `Authorization` header sends no `Content-Type`. */
  lemma AsWrittenDropsContentType()
    ensures var options := RequestInit(Absent, Defined(map["Authorization" := "Bearer t"]), Absent, map[]);
      var r := ApiRequestAsWritten("https://main.api.discovery.wang", "/users", options);
      r.init.headers.Defined? && "Content-Type" !in r.init.headers.value
  {
    var options := RequestInit(Absent, Defined(map["Authorization" := "Bearer t"]), Absent, map[]);
    assert "Content-Type" != "Authorization";
    AsWrittenKeepsContentTypeOnlyWithoutHeaders("https://main.api.discovery.wang", "/users", options);
  }

  /**
   * `apiRequest(endpoint, options)` with the headers merged last, as its
   * comments intend: every caller header is sent, `Content-Type` defaults to
   * JSON, and every other option is the caller's.
   */
  function ApiRequest(baseUrl: string, endpoint: string, options: RequestInit): (r: Request)
    ensures r.url == baseUrl + endpoint
    ensures r.init.headers.Defined? && "Content-Type" in r.init.headers.value
    ensures options.headers.Defined? ==> forall k :: k in options.headers.value ==>
      k in r.init.headers.value && r.init.headers.value[k] == options.headers.value[k]
    ensures !(options.headers.Defined? && "Content-Type" in options.headers.value) ==>
      r.init.headers.value["Content-Type"] == "application/json"
    ensures r.init.verb == options.verb && r.init.body == options.body && r.init.others == options.others
  {
    Request(baseUrl + endpoint, Spread(options, RequestInit(Absent, Defined(MergedHeaders(options)), Absent, map[])))
  }

  /** The corrected request differs from the written one only in its headers. */
  lemma CorrectionOnlyTouchesHeaders(baseUrl: string, endpoint: string, options: RequestInit)
    ensures var a := ApiRequestAsWritten(baseUrl, endpoint, options);
      var b := ApiRequest(baseUrl, endpoint, options);
      a.url == b.url && a.init.verb == b.init.verb && a.init.body == b.init.body && a.init.others == b.init.others
    ensures options.headers.Absent? ==> ApiRequestAsWritten(baseUrl, endpoint, options) == ApiRequest(baseUrl, endpoint, options)
  {
  }

  /** A JavaScript value handed to a helper as `data`. Numbers are integers here. */
  datatype JsValue = JsUndefined | JsNull | JsBool(b: bool) | JsNumber(n: int) | JsString(s: string) | JsObject(id: nat)

  /** `data ? .. : ..`. */
  predicate JsTruthy(v: JsValue)
  {
    match v
    case JsUndefined => false
    case JsNull => false
    case JsBool(b) => b
    case JsNumber(n) => n != 0
    case JsString(s) => s != ""
    case JsObject(_) => true
  }

  /** `{ ...options, method: m }`. */
  function WithMethod(options: RequestInit, m: string): (r: RequestInit)
    ensures r.verb == Defined(m) && r.headers == options.headers && r.body == options.body && r.others == options.others
  {
    Spread(options, RequestInit(Defined(m), Absent, Absent, map[]))
  }

  /** `{ ...options, method: m, body: data ? JSON.stringify(data) : undefined }`, with `JSON.stringify` as a parameter. */
  function WithMethodAndBody(options: RequestInit, m: string, data: JsValue, stringify: JsValue -> string): (r: RequestInit)
    ensures r.verb == Defined(m) && r.headers == options.headers && r.others == options.others
    ensures JsTruthy(data) <==> r.body.Defined?
    ensures JsTruthy(data) ==> r.body == Defined(stringify(data))
    ensures !JsTruthy(data) ==> r.body == Undefined
  {
    Spread(options, RequestInit(Defined(m), Absent, if JsTruthy(data) then Defined(stringify(data)) else Undefined, map[]))
  }

  /** `api.get`, which calls `apiRequest` as written. */
  function Get(baseUrl: string, endpoint: string, options: RequestInit): Request
  {
    ApiRequestAsWritten(baseUrl, endpoint, WithMethod(options, "GET"))
  }

  /** `api.post`, which calls `apiRequest` as written. */
  function Post(baseUrl: string, endpoint: string, data: JsValue, options: RequestInit, stringify: JsValue -> string): Request
  {
    ApiRequestAsWritten(baseUrl, endpoint, WithMethodAndBody(options, "POST", data, stringify))
  }

  /** `api.put`, which calls `apiRequest` as written. */
  function Put(baseUrl: string, endpoint: string, data: JsValue, options: RequestInit, stringify: JsValue -> string): Request
  {
    ApiRequestAsWritten(baseUrl, endpoint, WithMethodAndBody(options, "PUT", data, stringify))
  }

  /** `api.delete`, which calls `apiRequest` as written. */
  function Delete(baseUrl: string, endpoint: string, options: RequestInit): Request
  {
    ApiRequestAsWritten(baseUrl, endpoint, WithMethod(options, "DELETE"))
  }

  /** `api.patch`, which calls `apiRequest` as written. */
  function Patch(baseUrl: string, endpoint: string, data: JsValue, options: RequestInit, stringify: JsValue -> string): Request
  {
    ApiRequestAsWritten(baseUrl, endpoint, WithMethodAndBody(options, "PATCH", data, stringify))
  }

  /**
   * Each helper sends its own verb whatever `options.verb` says, keeps the
   * caller's body only for `get` and `delete`, and for the others sends the
   * JSON of `data` exactly when `data` is truthy.
   */
  lemma VerbHelpers(baseUrl: string, endpoint: string, data: JsValue, options: RequestInit, stringify: JsValue -> string)
    ensures Get(baseUrl, endpoint, options).init.verb == Defined("GET")
    ensures Delete(baseUrl, endpoint, options).init.verb == Defined("DELETE")
    ensures Get(baseUrl, endpoint, options).init.body == options.body
    ensures Post(baseUrl, endpoint, data, options, stringify).init.verb == Defined("POST")
    ensures Put(baseUrl, endpoint, data, options, stringify).init.verb == Defined("PUT")
    ensures Patch(baseUrl, endpoint, data, options, stringify).init.verb == Defined("PATCH")
    ensures var body := Post(baseUrl, endpoint, data, options, stringify).init.body;
      (JsTruthy(data) ==> body == Defined(stringify(data))) && (!JsTruthy(data) ==> body == Undefined)
    ensures Post(baseUrl, endpoint, data, options, stringify).url == baseUrl + endpoint
  {
  }

  /**
   * The helpers inherit the dropped `Content-Type`: a helper's request
   * carries it exactly when the caller passes no headers or names it, and
   * without caller headers each helper sends what the corrected request
   * would.
   */
  lemma HelpersKeepContentTypeOnlyWithoutHeaders(baseUrl: string, endpoint: string, data: JsValue, options: RequestInit,
                                                 stringify: JsValue -> string)
    ensures var h := Get(baseUrl, endpoint, options).init.headers;
      (h.Defined? && "Content-Type" in h.value) <==>
      (options.headers.Absent? || (options.headers.Defined? && "Content-Type" in options.headers.value))
    ensures var h := Post(baseUrl, endpoint, data, options, stringify).init.headers;
      (h.Defined? && "Content-Type" in h.value) <==>
      (options.headers.Absent? || (options.headers.Defined? && "Content-Type" in options.headers.value))
    ensures options.headers.Absent? ==>
      && Get(baseUrl, endpoint, options) == ApiRequest(baseUrl, endpoint, WithMethod(options, "GET"))
      && Delete(baseUrl, endpoint, options) == ApiRequest(baseUrl, endpoint, WithMethod(options, "DELETE"))
      && Post(baseUrl, endpoint, data, options, stringify) == ApiRequest(baseUrl, endpoint, WithMethodAndBody(options, "POST", data, stringify))
      && Put(baseUrl, endpoint, data, options, stringify) == ApiRequest(baseUrl, endpoint, WithMethodAndBody(options, "PUT", data, stringify))
      && Patch(baseUrl, endpoint, data, options, stringify) == ApiRequest(baseUrl, endpoint, WithMethodAndBody(options, "PATCH", data, stringify))
  {
    AsWrittenKeepsContentTypeOnlyWithoutHeaders(baseUrl, endpoint, WithMethod(options, "GET"));
    AsWrittenKeepsContentTypeOnlyWithoutHeaders(baseUrl, endpoint, WithMethodAndBody(options, "POST", data, stringify));
    CorrectionOnlyTouchesHeaders(baseUrl, endpoint, WithMethod(options, "GET"));
    CorrectionOnlyTouchesHeaders(baseUrl, endpoint, WithMethod(options, "DELETE"));
    CorrectionOnlyTouchesHeaders(baseUrl, endpoint, WithMethodAndBody(options, "POST", data, stringify));
    CorrectionOnlyTouchesHeaders(baseUrl, endpoint, WithMethodAndBody(options, "PUT", data, stringify));
    CorrectionOnlyTouchesHeaders(baseUrl, endpoint, WithMethodAndBody(options, "PATCH", data, stringify));
  }

  /** A falsy `data` drops a body the caller put in `options`. */
  lemma FalsyDataDropsCallerBody(baseUrl: string, endpoint: string, options: RequestInit, stringify: JsValue -> string)
    requires options.body.Defined?
    ensures Post(baseUrl, endpoint, JsNumber(0), options, stringify).init.body == Undefined
    ensures Post(baseUrl, endpoint, JsString("x"), options, stringify).init.body == Defined(stringify(JsString("x")))
  {
  }
}
