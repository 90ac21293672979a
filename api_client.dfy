/** The `fetch` wrapper (src/shared/api/api.client.ts): the header record every
    request starts from, the merge of caller options over the defaults, and
    the per-verb option builders. */
module ApiClient {
  import opened Wrappers
  import opened Js
  import opened Dom
  import opened AuthApi

  /** The `RequestInit` fields the wrappers use; `None` is a property the
      object does not have. */
  datatype RequestInit = RequestInit(
    httpMethod: Option<string>,
    headers: Option<map<string, string>>,
    body: Option<string>,
    credentials: Option<string>)

  /** `{...base, ...over}`: every property `over` has replaces the one of `base`. */
  function Spread(base: RequestInit, over: RequestInit): (r: RequestInit)
    ensures r.httpMethod == (if over.httpMethod.Some? then over.httpMethod else base.httpMethod)
    ensures r.headers == (if over.headers.Some? then over.headers else base.headers)
    ensures r.body == (if over.body.Some? then over.body else base.body)
    ensures r.credentials == (if over.credentials.Some? then over.credentials else base.credentials)
  {
    RequestInit(
      if over.httpMethod.Some? then over.httpMethod else base.httpMethod,
      if over.headers.Some? then over.headers else base.headers,
      if over.body.Some? then over.body else base.body,
      if over.credentials.Some? then over.credentials else base.credentials)
  }

  /** `getAuthToken`: the same reader as the session layer's `getAccessToken`. */
  method GetAuthToken(w: Window, mobile: bool, uriDecode: string -> string) returns (r: Option<string>)
    ensures r == StoredToken(mobile, w.storage, w.Cookie(), "access_token", uriDecode)
  {
    r := ReadToken(w, mobile, "access_token", uriDecode);
  }

  /** The record `createApiHeaders` builds for a token: `Content-Type` JSON
      unless the caller sets it, the caller's headers, and `Authorization`
      for a non-empty token. */
  function AuthHeaders(additional: map<string, string>, token: Option<string>): (h: map<string, string>)
    ensures h.Keys == additional.Keys + {"Content-Type"}
      + (if token.Some? && token.value != [] then {"Authorization"} else {})
    ensures h["Content-Type"] == (if "Content-Type" in additional then additional["Content-Type"] else "application/json")
    ensures token.Some? && token.value != [] ==> h["Authorization"] == "Bearer " + token.value
    ensures forall k :: k in additional && k != "Authorization" ==> h[k] == additional[k]
    ensures (token.None? || token.value == []) && "Authorization" in additional ==> h["Authorization"] == additional["Authorization"]
  {
    var headers := map["Content-Type" := "application/json"] + additional;
    if token.Some? && token.value != [] then headers["Authorization" := "Bearer " + token.value] else headers
  }

  /** `createApiHeaders`: starts from the defaults spread with the caller's
      record, then assigns `Authorization` in place when a token is present. */
  method CreateApiHeaders(w: Window, mobile: bool, uriDecode: string -> string, additional: map<string, string>)
    returns (headers: map<string, string>)
    ensures headers == AuthHeaders(additional, StoredToken(mobile, w.storage, w.Cookie(), "access_token", uriDecode))
  {
    headers := map["Content-Type" := "application/json"] + additional;
    var token := GetAuthToken(w, mobile, uriDecode);
    headers := Authorize(headers, additional, token);
  }

  /** `if (token) headers['Authorization'] = ...` on the record built from
      the defaults and `additional`. */
  method Authorize(headers: map<string, string>, additional: map<string, string>, token: Option<string>)
    returns (r: map<string, string>)
    requires headers == map["Content-Type" := "application/json"] + additional
    ensures r == AuthHeaders(additional, token)
  {
    r := headers;
    if token.Some? && token.value != [] {
      r := r["Authorization" := "Bearer " + token.value];
    }
  }

  /** `apiRequest`: the options handed to `fetch`. The computed headers and
      `credentials: 'include'` come first and every caller option is spread
      over them, so caller headers replace the computed record wholesale,
      Authorization included. */
  method ApiRequest(w: Window, mobile: bool, uriDecode: string -> string, options: RequestInit)
    returns (init: RequestInit)
    ensures var token := StoredToken(mobile, w.storage, w.Cookie(), "access_token", uriDecode);
      init == Spread(RequestInit(None, Some(AuthHeaders(options.headers.GetOr(map[]), token)), None, Some("include")), options)
    ensures init.credentials == Some(options.credentials.GetOr("include"))
    ensures options.headers.Some? ==> init.headers == options.headers
    ensures init.httpMethod == options.httpMethod && init.body == options.body
  {
    var headers := CreateApiHeaders(w, mobile, uriDecode, options.headers.GetOr(map[]));
    init := Spread(RequestInit(None, Some(headers), None, Some("include")), options);
  }

  /** Without caller headers, the request carries the Bearer token exactly
      when a non-empty one is stored. */
  lemma DefaultRequestAuthorization(w: Window, mobile: bool, uriDecode: string -> string, options: RequestInit, init: RequestInit)
    requires options.headers.None?
    requires init == Spread(RequestInit(None, Some(AuthHeaders(map[], StoredToken(mobile, w.storage, w.Cookie(), "access_token", uriDecode))), None, Some("include")), options)
    ensures var token := StoredToken(mobile, w.storage, w.Cookie(), "access_token", uriDecode);
      && init.headers.Some?
      && ("Authorization" in init.headers.value <==> token.Some? && token.value != [])
      && init.headers.value["Content-Type"] == "application/json"
  {
  }

  /** The body rule of `apiPost` and `apiPut`: the JSON text of truthy data,
      no body otherwise. */
  function JsonBody(data: JsValue, stringify: JsValue -> string): (body: Option<string>)
    ensures body.Some? <==> Truthy(data)
    ensures body.Some? ==> body.value == stringify(data)
  {
    if Truthy(data) then Some(stringify(data)) else None
  }

  /** The four method wrappers of the client. */
  datatype Verb = Get | Post(data: JsValue) | Put(data: JsValue) | Delete

  /** The options `apiGet`, `apiPost`, `apiPut` and `apiDelete` pass to
      `apiRequest`: the method, and for POST and PUT the body rule. */
  function RequestOptions(verb: Verb, stringify: JsValue -> string): (o: RequestInit)
    ensures o.headers.None? && o.credentials.None?
    ensures o.httpMethod == Some(match verb case Get => "GET" case Post(_) => "POST" case Put(_) => "PUT" case Delete => "DELETE")
    ensures (verb.Get? || verb.Delete?) ==> o.body.None?
    ensures (verb.Post? || verb.Put?) ==> (o.body.Some? <==> Truthy(verb.data))
    ensures (verb.Post? || verb.Put?) && o.body.Some? ==> o.body.value == stringify(verb.data)
  {
    match verb
    case Get => RequestInit(Some("GET"), None, None, None)
    case Post(data) => RequestInit(Some("POST"), None, JsonBody(data, stringify), None)
    case Put(data) => RequestInit(Some("PUT"), None, JsonBody(data, stringify), None)
    case Delete => RequestInit(Some("DELETE"), None, None, None)
  }

  /** Every wrapper request goes out with the session: the computed headers
      and `credentials: 'include'` survive the spread, because no wrapper
      sets either; only the method and the body come from the wrapper. */
  lemma WrapperRequestCarriesSession(verb: Verb, stringify: JsValue -> string, token: Option<string>)
    ensures var init := Spread(RequestInit(None, Some(AuthHeaders(map[], token)), None, Some("include")), RequestOptions(verb, stringify));
      && init.credentials == Some("include")
      && init.headers == Some(AuthHeaders(map[], token))
      && init.httpMethod == RequestOptions(verb, stringify).httpMethod
      && (init.body.Some? <==> (verb.Post? || verb.Put?) && Truthy(verb.data))
  {
  }
}
