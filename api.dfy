/** The shared axios instance (src/shared/api/api.ts): a request interceptor
    that attaches the `'token'` entry of `localStorage` as a Bearer header, and
    a response interceptor that sends the user to the login page on a 401.
    The transport itself is a parameter: what the server answered, or that it
    did not answer. */
module Api {
  import opened Wrappers
  import opened Strings
  import opened Js
  import opened Dom

  /** An axios request config: the URL and the header record, which the
      request interceptor extends in place. */
  class RequestConfig {
    var url: string
    var headers: map<string, string>

    constructor (url: string, headers: map<string, string>)
      ensures this.url == url && this.headers == headers
    {
      this.url := url;
      this.headers := headers;
    }
  }

  /** What the server answered: status, parsed body, and the URL requested. */
  datatype HttpResponse = HttpResponse(status: int, data: JsValue, url: string)

  /** What the transport produced for one request. */
  datatype Transport = Reply(status: int, data: JsValue) | NoResponse

  /** A rejected call; `response` is `error.response`, absent when the server
      did not answer. */
  datatype AxiosError = AxiosError(response: Option<HttpResponse>)

  /** The headers every request of the instance starts from. */
  const DefaultHeaders: map<string, string> := map["Content-Type" := "application/json"]

  /** The Bearer value the request interceptor attaches, if any: only for a
      non-empty `'token'` entry and a URL that does not mention `/auth`. */
  function InterceptorBearer(storage: map<string, string>, url: string): (r: Option<string>)
    ensures r.Some? <==> "token" in storage && storage["token"] != [] && !Contains(url, "/auth")
    ensures r.Some? ==> r.value == "Bearer " + storage["token"]
  {
    if "token" in storage && storage["token"] != [] && !Contains(url, "/auth")
    then Some("Bearer " + storage["token"])
    else None
  }

  /** The request interceptor: it adds `Authorization` as described by
      `InterceptorBearer` and leaves everything else in the config alone. */
  method InterceptRequest(w: Window, config: RequestConfig)
    modifies config
    ensures config.url == old(config.url)
    ensures InterceptorBearer(w.storage, config.url).Some? ==>
      config.headers == old(config.headers)["Authorization" := InterceptorBearer(w.storage, config.url).value]
    ensures InterceptorBearer(w.storage, config.url).None? ==> config.headers == old(config.headers)
  {
    var token := w.GetItem("token");
    if token.Some? && token.value != [] && !Contains(config.url, "/auth") {
      config.headers := config.headers["Authorization" := "Bearer " + token.value];
    }
  }

  /** Axios accepts exactly the 2xx statuses; everything else rejects. */
  function Classify(url: string, t: Transport): (r: Result<HttpResponse, AxiosError>)
    ensures r.Success? <==> t.Reply? && 200 <= t.status < 300
    ensures r.Success? ==> r.value == HttpResponse(t.status, t.data, url)
    ensures r.Failure? && t.Reply? ==> r.error == AxiosError(Some(HttpResponse(t.status, t.data, url)))
    ensures t.NoResponse? ==> r == Failure(AxiosError(None))
  {
    match t
    case NoResponse => Failure(AxiosError(None))
    case Reply(status, data) =>
      if 200 <= status < 300 then Success(HttpResponse(status, data, url))
      else Failure(AxiosError(Some(HttpResponse(status, data, url))))
  }

  /** The response interceptor's condition for leaving the page: a 401 for a
      URL that does not mention `password`, seen anywhere but on `/login`. */
  predicate SendsToLogin(pathname: string, e: AxiosError) {
    && e.response.Some?
    && e.response.value.status == 401
    && !Contains(e.response.value.url, "password")
    && pathname != "/login"
  }

  /** The response interceptor's error handler: it may drop `'token'` and
      navigate to `/login`, and it always rejects with the error it was given. */
  method InterceptError(w: Window, e: AxiosError) returns (rejected: AxiosError)
    modifies w
    ensures rejected == e
    ensures w.jar == old(w.jar) && w.pathname == old(w.pathname)
    ensures SendsToLogin(old(w.pathname), e) ==> w.storage == old(w.storage) - {"token"} && w.href == "/login"
    ensures !SendsToLogin(old(w.pathname), e) ==> w.storage == old(w.storage) && w.href == old(w.href)
  {
    if e.response.Some? && e.response.value.status == 401
      && !Contains(e.response.value.url, "password") && w.pathname != "/login"
    {
      w.RemoveItem("token");
      w.Navigate("/login");
    }
    rejected := e;
  }

  /** The storage the response interceptors leave behind for an outcome. */
  function StorageAfter(storage: map<string, string>, pathname: string, r: Result<HttpResponse, AxiosError>)
    : (s: map<string, string>)
    ensures r.Success? ==> s == storage
    ensures s.Keys <= storage.Keys
    ensures forall k :: k in s ==> s[k] == storage[k]
  {
    if r.Failure? && SendsToLogin(pathname, r.error) then storage - {"token"} else storage
  }

  /** Where the page is once a call settled as `r`: `/login` when the
      response interceptor sent the user there, otherwise where it was. */
  function HrefAfter(href: string, pathname: string, r: Result<HttpResponse, AxiosError>): (h: string)
    ensures r.Success? ==> h == href
    ensures h == "/login" || h == href
    ensures r.Failure? && SendsToLogin(pathname, r.error) ==> h == "/login"
  {
    if r.Failure? && SendsToLogin(pathname, r.error) then "/login" else href
  }

  /** One request through the instance: defaults merged, request interceptor,
      transport, response interceptors. The caller gets exactly what the
      transport produced (a 2xx response unchanged, anything else rejected):
      nothing is refreshed and nothing is retried. */
  method Send(w: Window, url: string, headers: map<string, string>, t: Transport)
    returns (sent: map<string, string>, r: Result<HttpResponse, AxiosError>)
    modifies w
    ensures r == Classify(url, t)
    ensures var base := DefaultHeaders + headers;
      sent == (match InterceptorBearer(old(w.storage), url)
               case Some(b) => base["Authorization" := b]
               case None => base)
    ensures w.storage == StorageAfter(old(w.storage), old(w.pathname), r)
    ensures w.jar == old(w.jar) && w.pathname == old(w.pathname)
    ensures w.href == HrefAfter(old(w.href), old(w.pathname), r)
  {
    var config := new RequestConfig(url, DefaultHeaders + headers);
    InterceptRequest(w, config);
    sent := config.headers;
    r := Classify(url, t);
    if r.Failure? {
      var e := InterceptError(w, r.error);
      r := Failure(e);
    }
  }

  /** A login-page request never leaves the page, whatever it answers. */
  lemma NoRedirectOnLoginPage(e: AxiosError)
    ensures !SendsToLogin("/login", e)
  {
  }

  /** A password request that fails with 401 keeps the user where they are. */
  lemma NoRedirectForPasswordRequests(pathname: string, e: AxiosError)
    requires e.response.Some? && Contains(e.response.value.url, "password")
    ensures !SendsToLogin(pathname, e)
  {
  }

  /** The interceptor reads `'token'` only: whatever the session layer keeps
      under `'access_token'` never reaches its header. */
  lemma InterceptorIgnoresAccessToken(storage: map<string, string>, url: string, v: string)
    ensures InterceptorBearer(storage["access_token" := v], url) == InterceptorBearer(storage, url)
    ensures InterceptorBearer(storage - {"access_token"}, url) == InterceptorBearer(storage, url)
  {
  }
}
