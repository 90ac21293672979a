/** The session layer (src/shared/api/auth.api.ts): where the access and
    refresh tokens live (`localStorage` on mobile devices, cookies on the
    desktop), the refresh exchange and logout, and the session queries built
    on the JWT reader. */
module AuthApi {
  import opened Wrappers
  import opened Strings
  import opened Js
  import opened Dom
  import opened Jwt
  import opened Api

  /** The library primitives the session layer calls: `decodeURIComponent`,
      `atob` and `JSON.parse` (`None` where they throw). */
  datatype Primitives = Primitives(
    uriDecode: string -> string,
    atob: string -> Option<string>,
    parse: string -> Option<JsValue>)

  // ---------------------------------------------------------------- reading a token

  /** The name part of a cookie entry: the first piece of `entry.trim().split('=')`. */
  function EntryName(entry: string): string {
    Split(Trim(entry), '=')[0]
  }

  /** The value part: the second piece of the same split, or `undefined` when
      there is none, which `decodeURIComponent` reads as the text "undefined". */
  function EntryValue(entry: string): string {
    var parts := Split(Trim(entry), '=');
    if |parts| >= 2 then parts[1] else "undefined"
  }

  /** The cookie scan: the decoded value of the first entry named `key`. */
  function CookieLookup(entries: seq<string>, key: string, uriDecode: string -> string): (r: Option<string>)
    ensures r.None? <==> forall j :: 0 <= j < |entries| ==> EntryName(entries[j]) != key
  {
    if entries == [] then None
    else if EntryName(entries[0]) == key then Some(uriDecode(EntryValue(entries[0])))
    else CookieLookup(entries[1..], key, uriDecode)
  }

  /** The token stored under `key`: the `localStorage` entry on mobile, the
      cookie of that name on the desktop. */
  function StoredToken(mobile: bool, storage: map<string, string>, cookie: string, key: string, uriDecode: string -> string)
    : (r: Option<string>)
    ensures mobile ==> (r.Some? <==> key in storage) && (r.Some? ==> r.value == storage[key])
    ensures !mobile ==> r == CookieLookup(Split(cookie, ';'), key, uriDecode)
  {
    if mobile then (if key in storage then Some(storage[key]) else None)
    else CookieLookup(Split(cookie, ';'), key, uriDecode)
  }

  /** The reader shared by `getAccessToken` and `getRefreshToken`: on mobile a
      storage read, on the desktop a scan of the cookie entries that returns at
      the first entry with the right name. */
  method ReadToken(w: Window, mobile: bool, key: string, uriDecode: string -> string) returns (r: Option<string>)
    ensures r == StoredToken(mobile, w.storage, w.Cookie(), key, uriDecode)
  {
    if mobile {
      return w.GetItem(key);
    }
    var cookies := Split(w.Cookie(), ';');
    var i := 0;
    while i < |cookies|
      invariant 0 <= i <= |cookies|
      invariant CookieLookup(cookies[i..], key, uriDecode) == CookieLookup(cookies, key, uriDecode)
    {
      assert cookies[i..][0] == cookies[i] && cookies[i..][1..] == cookies[i + 1..];
      var parts := Split(Trim(cookies[i]), '=');
      var name := parts[0];
      var value := if |parts| >= 2 then parts[1] else "undefined";
      if name == key {
        return Some(uriDecode(value));
      }
      i := i + 1;
    }
    return None;
  }

  /** `getAccessToken`. */
  method GetAccessToken(w: Window, mobile: bool, uriDecode: string -> string) returns (r: Option<string>)
    ensures r == StoredToken(mobile, w.storage, w.Cookie(), "access_token", uriDecode)
  {
    r := ReadToken(w, mobile, "access_token", uriDecode);
  }

  /** `getRefreshToken`. */
  method GetRefreshToken(w: Window, mobile: bool, uriDecode: string -> string) returns (r: Option<string>)
    ensures r == StoredToken(mobile, w.storage, w.Cookie(), "refresh_token", uriDecode)
  {
    r := ReadToken(w, mobile, "refresh_token", uriDecode);
  }

  /** The scan answers with the first entry whose name matches. */
  lemma {:induction false} CookieLookupFirst(entries: seq<string>, key: string, uriDecode: string -> string, i: nat)
    requires i < |entries| && EntryName(entries[i]) == key
    requires forall j :: 0 <= j < i ==> EntryName(entries[j]) != key
    ensures CookieLookup(entries, key, uriDecode) == Some(uriDecode(EntryValue(entries[i])))
  {
    if i > 0 {
      CookieLookupFirst(entries[1..], key, uriDecode, i - 1);
    }
  }

  /** A cookie value is only the text between the first and the second '='
      of the trimmed entry. */
  lemma EntryParts(entry: string, name: string, tail: string)
    requires Trim(entry) == name + "=" + tail && '=' !in name
    ensures EntryName(entry) == name
    ensures EntryValue(entry) == Split(tail, '=')[0]
  {
    SplitAtFirst(name, '=', tail);
  }

  /** An entry without '=' is all name, and its value reads as "undefined". */
  lemma EntryWithoutEquals(entry: string)
    requires '=' !in Trim(entry)
    ensures EntryName(entry) == Trim(entry)
    ensures EntryValue(entry) == "undefined"
  {
    SplitNoSep(Trim(entry), '=');
  }

  /** What a well-formed cookie's entry in `document.cookie` reads back as. */
  lemma CookieEntryReads(c: Cookie, lead: string)
    requires WellFormed(c) && (lead == "" || lead == " ")
    ensures EntryName(lead + Serialize(c)) == c.name
    ensures EntryValue(lead + Serialize(c)) == Split(c.value, '=')[0]
  {
    var e := Serialize(c);
    assert e[0] == c.name[0];
    assert e[|e| - 1] == if c.value == [] then '=' else c.value[|c.value| - 1];
    TrimIdentity(e);
    if lead == " " {
      TrimSkipsLeadingSpace(' ', e);
    } else {
      assert lead + e == e;
    }
    assert Trim(lead + e) == e;
    EntryParts(lead + e, c.name, c.value);
  }

  /** The cookie value as the scan returns it: the text up to the first '=',
      decoded. */
  function ScannedValue(v: Option<string>, uriDecode: string -> string): Option<string> {
    match v
    case None => None
    case Some(s) => Some(uriDecode(Split(s, '=')[0]))
  }

  lemma {:induction false} LookupAgrees(entries: seq<string>, jar: seq<Cookie>, key: string, uriDecode: string -> string)
    requires |entries| == |jar|
    requires forall i :: 0 <= i < |jar| ==>
      EntryName(entries[i]) == jar[i].name && EntryValue(entries[i]) == Split(jar[i].value, '=')[0]
    ensures CookieLookup(entries, key, uriDecode) == ScannedValue(JarLookup(jar, key), uriDecode)
  {
    if jar != [] && jar[0].name != key {
      LookupAgrees(entries[1..], jar[1..], key, uriDecode);
    }
  }

  /** Reading a token out of the string the browser serialises its jar into
      finds the first cookie of that name, cut at its first '='. */
  lemma CookieReadsJar(jar: seq<Cookie>, key: string, uriDecode: string -> string)
    requires WellFormedJar(jar) && key != []
    ensures CookieLookup(Split(DocumentCookie(jar), ';'), key, uriDecode) == ScannedValue(JarLookup(jar, key), uriDecode)
  {
    if jar == [] {
      assert Split(DocumentCookie(jar), ';') == [""];
      assert EntryName("") == "";
    } else {
      var entries := CookieEntries(jar);
      forall k | 0 <= k < |entries|
        ensures ';' !in entries[k]
      {
        assert entries[k] == (if k == 0 then "" else " ") + (jar[k].name + "=" + jar[k].value);
      }
      SplitJoin(entries, ';');
      forall i | 0 <= i < |jar|
        ensures EntryName(entries[i]) == jar[i].name && EntryValue(entries[i]) == Split(jar[i].value, '=')[0]
      {
        CookieEntryReads(jar[i], if i == 0 then "" else " ");
      }
      LookupAgrees(entries, jar, key, uriDecode);
    }
  }

  // ---------------------------------------------------------------- refresh and logout

  /** A request as handed to the transport. */
  datatype Request = Request(url: string, headers: map<string, string>)

  /** The session endpoints: "/api/v1/auth/refresh?use_cookies=<flag>" and
      "/api/v1/auth/logout?clear_cookies=<flag>". */
  const ApiPrefix := "/api/v1"
  const AuthSegment := "/auth"

  function RefreshUrl(mobile: bool): string {
    ApiPrefix + AuthSegment + "/refresh?use_cookies=" + (if mobile then "false" else "true")
  }

  function LogoutUrl(mobile: bool): string {
    ApiPrefix + AuthSegment + "/logout?clear_cookies=" + (if mobile then "false" else "true")
  }

  /** A string that lacks one of the characters of `sub` does not contain it. */
  lemma MissingCharNotContained(s: string, sub: string, k: nat)
    requires k < |sub| && sub[k] !in s
    ensures !Contains(s, sub)
  {
    forall j
      ensures !OccursAt(s, sub, j)
    {
      if 0 <= j && j + |sub| <= |s| {
        assert s[j..j + |sub|][k] == s[j + k];
      }
    }
  }

  /** Neither session URL mentions `password`, so a 401 from either sends the
      user to `/login` from any other page. */
  lemma SessionCallsRedirectOn401(mobile: bool, pathname: string, href: string, data: JsValue)
    requires pathname != "/login"
    ensures HrefAfter(href, pathname, Classify(RefreshUrl(mobile), Reply(401, data))) == "/login"
    ensures HrefAfter(href, pathname, Classify(LogoutUrl(mobile), Reply(401, data))) == "/login"
  {
    SessionUrlsLackW(mobile);
    assert "password"[4] == 'w';
    MissingCharNotContained(RefreshUrl(mobile), "password", 4);
    MissingCharNotContained(LogoutUrl(mobile), "password", 4);
  }

  /** No session URL has a 'w' in it. */
  lemma SessionUrlsLackW(mobile: bool)
    ensures 'w' !in RefreshUrl(mobile) && 'w' !in LogoutUrl(mobile)
  {
    var flag := if mobile then "false" else "true";
    var head := ApiPrefix + AuthSegment;
    assert 'w' !in flag;
    assert 'w' !in head;
    NotInAppend('w', head, "/refresh?use_cookies=");
    NotInAppend('w', head + "/refresh?use_cookies=", flag);
    NotInAppend('w', head, "/logout?clear_cookies=");
    NotInAppend('w', head + "/logout?clear_cookies=", flag);
  }

  lemma NotInAppend(c: char, a: string, b: string)
    requires c !in a && c !in b
    ensures c !in a + b
  {
    forall i | 0 <= i < |a + b|
      ensures (a + b)[i] != c
    {
      if i < |a| { assert (a + b)[i] == a[i]; } else { assert (a + b)[i] == b[i - |a|]; }
    }
  }

  /** The session endpoints all lie under `/auth`, so the interceptor never
      attaches its header to them. */
  lemma SessionUrlsSkipInterceptor(mobile: bool, storage: map<string, string>)
    ensures InterceptorBearer(storage, RefreshUrl(mobile)).None?
    ensures InterceptorBearer(storage, LogoutUrl(mobile)).None?
  {
    var flag := if mobile then "false" else "true";
    var refresh := ApiPrefix + AuthSegment + "/refresh?use_cookies=" + flag;
    var logout := ApiPrefix + AuthSegment + "/logout?clear_cookies=" + flag;
    assert refresh[|ApiPrefix|..|ApiPrefix| + |AuthSegment|] == AuthSegment;
    assert logout[|ApiPrefix|..|ApiPrefix| + |AuthSegment|] == AuthSegment;
    assert OccursAt(RefreshUrl(mobile), "/auth", 7);
    assert OccursAt(LogoutUrl(mobile), "/auth", 7);
  }

  /** The exchange counts as a success when a 2xx reply carries a truthy
      `success`; a `null` body makes that read throw, which counts as failure. */
  predicate ExchangeSucceeded(out: Result<HttpResponse, AxiosError>) {
    out.Success? && !Nullish(out.value.data) && Truthy(Field(out.value.data, "success"))
  }

  /** The mobile store after a successful exchange: `access_token` written
      when the body has a truthy one, `refresh_token` only alongside it and
      only when the body has a truthy one too. */
  function StoreRefreshed(storage: map<string, string>, data: JsValue): (s: map<string, string>)
    requires !Nullish(data)
    ensures !Truthy(Field(data, "access_token")) ==> s == storage
    ensures Truthy(Field(data, "access_token")) ==> "access_token" in s && s["access_token"] == ToStr(Field(data, "access_token"))
    ensures "refresh_token" in s && !("refresh_token" in storage && s["refresh_token"] == storage["refresh_token"])
      ==> Truthy(Field(data, "access_token")) && Truthy(Field(data, "refresh_token"))
          && s["refresh_token"] == ToStr(Field(data, "refresh_token"))
    ensures s.Keys <= storage.Keys + {"access_token", "refresh_token"}
  {
    var access := Field(data, "access_token");
    var refresh := Field(data, "refresh_token");
    if !Truthy(access) then storage
    else if Truthy(refresh) then storage["access_token" := ToStr(access)]["refresh_token" := ToStr(refresh)]
    else storage["access_token" := ToStr(access)]
  }

  /** `refreshAccessToken`. Without a (non-empty) refresh token it fails with
      'No refresh token available' and touches nothing. Otherwise it posts to
      the refresh endpoint (the token in a `refresh-token` header on mobile)
      and always resolves: a successful exchange stores the new tokens on
      mobile and changes nothing on the desktop; any other outcome removes
      both tokens, from storage on mobile and as expired cookies on the
      desktop, after whatever the response interceptor did. */
  method RefreshAccessToken(w: Window, mobile: bool, uriDecode: string -> string, t: Transport)
    returns (sent: Option<Request>, r: Result<(), string>)
    modifies w
    ensures var token := StoredToken(mobile, old(w.storage), DocumentCookie(old(w.jar)), "refresh_token", uriDecode);
      token.None? || token.value == [] ==>
        && r == Failure("No refresh token available") && sent.None?
        && w.storage == old(w.storage) && w.jar == old(w.jar) && w.href == old(w.href)
    ensures var token := StoredToken(mobile, old(w.storage), DocumentCookie(old(w.jar)), "refresh_token", uriDecode);
      token.Some? && token.value != [] ==>
        && r.Success?
        && sent == Some(Request(RefreshUrl(mobile),
             DefaultHeaders + (if mobile then map["refresh-token" := token.value] else map[])))
    ensures var token := StoredToken(mobile, old(w.storage), DocumentCookie(old(w.jar)), "refresh_token", uriDecode);
      var out := Classify(RefreshUrl(mobile), t);
      var s1 := StorageAfter(old(w.storage), old(w.pathname), out);
      token.Some? && token.value != [] ==>
        && (ExchangeSucceeded(out) && mobile ==> w.storage == StoreRefreshed(old(w.storage), out.value.data) && w.jar == old(w.jar))
        && (ExchangeSucceeded(out) && !mobile ==> w.storage == old(w.storage) && w.jar == old(w.jar))
        && (!ExchangeSucceeded(out) && mobile ==> w.storage == s1 - {"access_token", "refresh_token"} && w.jar == old(w.jar))
        && (!ExchangeSucceeded(out) && !mobile ==> w.storage == s1 && w.jar == Expire(Expire(old(w.jar), "access_token"), "refresh_token"))
    ensures var token := StoredToken(mobile, old(w.storage), DocumentCookie(old(w.jar)), "refresh_token", uriDecode);
      token.Some? && token.value != [] ==> w.href == HrefAfter(old(w.href), old(w.pathname), Classify(RefreshUrl(mobile), t))
    ensures w.pathname == old(w.pathname)
  {
    var token := ReadToken(w, mobile, "refresh_token", uriDecode);
    if token.None? || token.value == [] {
      return None, Failure("No refresh token available");
    }
    var headers: map<string, string> := map[];
    if mobile {
      headers := headers["refresh-token" := token.value];
    }
    SessionUrlsSkipInterceptor(mobile, w.storage);
    var sentHeaders, out := Send(w, RefreshUrl(mobile), headers, t);
    sent := Some(Request(RefreshUrl(mobile), sentHeaders));
    if ExchangeSucceeded(out) {
      if mobile && Truthy(Field(out.value.data, "access_token")) {
        w.SetItem("access_token", ToStr(Field(out.value.data, "access_token")));
        if Truthy(Field(out.value.data, "refresh_token")) {
          w.SetItem("refresh_token", ToStr(Field(out.value.data, "refresh_token")));
        }
      }
    } else if mobile {
      w.RemoveItem("access_token");
      w.RemoveItem("refresh_token");
    } else {
      w.ExpireCookie("access_token");
      w.ExpireCookie("refresh_token");
    }
    r := Success(());
  }

  /** `logout`: posts with `clear_cookies` set on the desktop only; when the
      call resolves, mobile drops both stored tokens and the body is returned;
      when it rejects, the error propagates and only the response interceptor
      has acted. */
  method Logout(w: Window, mobile: bool, t: Transport) returns (sent: Request, r: Result<JsValue, AxiosError>)
    modifies w
    ensures sent == Request(LogoutUrl(mobile), DefaultHeaders)
    ensures var out := Classify(LogoutUrl(mobile), t);
      r == (if out.Success? then Success(out.value.data) else Failure(out.error))
    ensures r.Success? && mobile ==> w.storage == old(w.storage) - {"access_token", "refresh_token"}
    ensures r.Success? && !mobile ==> w.storage == old(w.storage)
    ensures r.Failure? ==> w.storage == StorageAfter(old(w.storage), old(w.pathname), Classify(LogoutUrl(mobile), t))
    ensures w.href == HrefAfter(old(w.href), old(w.pathname), Classify(LogoutUrl(mobile), t))
    ensures r.Success? ==> w.href == old(w.href)
    ensures w.jar == old(w.jar) && w.pathname == old(w.pathname)
  {
    SessionUrlsSkipInterceptor(mobile, w.storage);
    var headers, out := Send(w, LogoutUrl(mobile), map[], t);
    sent := Request(LogoutUrl(mobile), headers);
    if out.Failure? {
      return sent, Failure(out.error);
    }
    if mobile {
      w.RemoveItem("access_token");
      w.RemoveItem("refresh_token");
    }
    r := Success(out.value.data);
  }

  // ---------------------------------------------------------------- session queries

  /** `isAuthenticated` (and `checkAuthStatus`, which resolves to it): a
      non-empty access token that `isTokenExpired` accepts. */
  function IsAuthenticated(mobile: bool, storage: map<string, string>, cookie: string, nowMs: int, p: Primitives)
    : (r: bool)
    ensures var token := StoredToken(mobile, storage, cookie, "access_token", p.uriDecode);
      r <==> token.Some? && token.value != [] && !IsTokenExpired(token.value, nowMs, p.atob, p.parse)
  {
    var token := StoredToken(mobile, storage, cookie, "access_token", p.uriDecode);
    if token.None? || token.value == [] then false
    else !IsTokenExpired(token.value, nowMs, p.atob, p.parse)
  }

  /** `getCurrentUser`: no user without a non-empty access token, otherwise
      the projection `getUserFromToken` makes of it. */
  function GetCurrentUser(mobile: bool, storage: map<string, string>, cookie: string, p: Primitives)
    : (r: Option<User>)
    ensures var token := StoredToken(mobile, storage, cookie, "access_token", p.uriDecode);
      token.None? || token.value == [] ==> r.None?
    ensures var token := StoredToken(mobile, storage, cookie, "access_token", p.uriDecode);
      token.Some? && token.value != [] ==> r == UserFromToken(token.value, p.atob, p.parse)
  {
    var token := StoredToken(mobile, storage, cookie, "access_token", p.uriDecode);
    if token.None? || token.value == [] then None
    else UserFromToken(token.value, p.atob, p.parse)
  }

  /** An authenticated session always has a current user. */
  lemma AuthenticatedHasUser(mobile: bool, storage: map<string, string>, cookie: string, nowMs: int, p: Primitives)
    requires IsAuthenticated(mobile, storage, cookie, nowMs, p)
    ensures GetCurrentUser(mobile, storage, cookie, p).Some?
  {
    var token := StoredToken(mobile, storage, cookie, "access_token", p.uriDecode).value;
    if UserFromToken(token, p.atob, p.parse).None? {
      NoUserMeansExpired(token, nowMs, p.atob, p.parse);
    }
  }

  /** After a failed refresh the access token is gone: from storage on
      mobile, and from the jar (hence from `document.cookie`) on the desktop,
      so the session is signed out. */
  lemma FailedRefreshSignsOut(storage: map<string, string>, cookie: string, jar: seq<Cookie>, nowMs: int, p: Primitives)
    requires WellFormedJar(jar)
    ensures var dropped := storage - {"access_token", "refresh_token"};
      && !IsAuthenticated(true, dropped, cookie, nowMs, p)
      && GetCurrentUser(true, dropped, cookie, p).None?
    ensures var cleared := Expire(Expire(jar, "access_token"), "refresh_token");
      && !IsAuthenticated(false, storage, DocumentCookie(cleared), nowMs, p)
      && GetCurrentUser(false, storage, DocumentCookie(cleared), p).None?
  {
    var once := Expire(jar, "access_token");
    var cleared := Expire(once, "refresh_token");
    ExpireHides(jar, "access_token");
    ExpireKeepsOthers(once, "refresh_token", "access_token");
    ExpireWellFormed(jar, "access_token");
    ExpireWellFormed(once, "refresh_token");
    CookieReadsJar(cleared, "access_token", p.uriDecode);
  }
}
