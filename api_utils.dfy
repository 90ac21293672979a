/** Classifying `fetch` responses and devices (src/shared/api/api.utils.ts). */
module ApiUtils {
  import opened Wrappers
  import opened Strings
  import opened Js

  /** The parts of a `fetch` `Response` the classifier reads: status, status
      text and the `content-type` header (`None` when absent). */
  datatype FetchResponse = FetchResponse(status: int, statusText: string, contentType: Option<string>)

  /** `response.ok`. */
  predicate Ok(r: FetchResponse) {
    200 <= r.status <= 299
  }

  /** A content type is present, non-empty and mentions JSON. */
  predicate IsJsonResponse(r: FetchResponse) {
    r.contentType.Some? && r.contentType.value != [] && Contains(r.contentType.value, "application/json")
  }

  /** The record thrown for a failed response without a JSON body. */
  function HttpErrorRecord(r: FetchResponse, timestamp: string): (e: JsValue)
    ensures e.Obj? && "error" in e.fields && e.fields["error"].Obj?
    ensures var inner := e.fields["error"].fields;
      && inner.Keys == {"detail", "error_type", "status_code", "timestamp", "request_id", "extra"}
      && inner["detail"] == Str("HTTP " + IntToString(r.status) + ": " + r.statusText)
      && inner["error_type"] == Str("http_error")
      && inner["status_code"] == Num(r.status)
      && inner["request_id"] == Str("unknown")
  {
    Obj(map["error" := Obj(map[
      "detail" := Str("HTTP " + IntToString(r.status) + ": " + r.statusText),
      "error_type" := Str("http_error"),
      "status_code" := Num(r.status),
      "timestamp" := Str(timestamp),
      "request_id" := Str("unknown"),
      "extra" := Obj(map[])])])
  }

  /** `parseJsonResponse`. `body` is what `response.json()` settles to (a
      value, or the error it rejects with); `Failure` is what the call throws.
      A failed response always throws: its JSON body if it has one, otherwise
      the HTTP error record. A successful one yields its JSON body, or `null`
      when it is not JSON. */
  function ParseJsonResponse(r: FetchResponse, body: Result<JsValue, JsValue>, timestamp: string)
    : (out: Result<JsValue, JsValue>)
    ensures out.Success? ==> Ok(r)
    ensures Ok(r) && IsJsonResponse(r) ==> out == body
    ensures Ok(r) && !IsJsonResponse(r) ==> out == Success(Null)
    ensures !Ok(r) && IsJsonResponse(r) ==> out == Failure(if body.Success? then body.value else body.error)
    ensures !Ok(r) && !IsJsonResponse(r) ==> out == Failure(HttpErrorRecord(r, timestamp))
  {
    if !Ok(r) then
      if IsJsonResponse(r) then Failure(if body.Success? then body.value else body.error)
      else Failure(HttpErrorRecord(r, timestamp))
    else if IsJsonResponse(r) then body
    else Success(Null)
  }

  /** A response that is not JSON never has its body read. */
  lemma NonJsonIgnoresBody(r: FetchResponse, b1: Result<JsValue, JsValue>, b2: Result<JsValue, JsValue>, timestamp: string)
    requires !IsJsonResponse(r)
    ensures ParseJsonResponse(r, b1, timestamp) == ParseJsonResponse(r, b2, timestamp)
  {
  }

  /** The device words of the user-agent test, lower-cased. */
  const MobileTokens: seq<string> :=
    ["android", "webos", "iphone", "ipad", "ipod", "blackberry", "iemobile", "opera mini"]

  /** Whether `s` contains one of `tokens`. */
  function ContainsAny(s: string, tokens: seq<string>): (r: bool)
    ensures r <==> exists i :: 0 <= i < |tokens| && Contains(s, tokens[i])
  {
    if tokens == [] then false
    else Contains(s, tokens[0]) || ContainsAny(s, tokens[1..])
  }

  /** `isMobileDevice`: the user agent mentions one of the device words, in
      any letter case. The expression has no `u` flag, so case folding is
      ASCII-only. */
  function IsMobileDevice(userAgent: string): (r: bool)
    ensures r <==> exists i :: 0 <= i < |MobileTokens| && Contains(LowerAscii(userAgent), MobileTokens[i])
  {
    ContainsAny(LowerAscii(userAgent), MobileTokens)
  }

  lemma LowerAsciiIdempotent(s: string)
    ensures LowerAscii(LowerAscii(s)) == LowerAscii(s)
  {
  }

  /** The test ignores letter case. */
  lemma MobileCaseInsensitive(userAgent: string)
    ensures IsMobileDevice(LowerAscii(userAgent)) == IsMobileDevice(userAgent)
  {
    LowerAsciiIdempotent(userAgent);
  }

  /** A user agent naming an iPhone counts as mobile. */
  lemma IPhoneIsMobile(prefix: string, suffix: string)
    ensures IsMobileDevice(prefix + "iPhone" + suffix)
  {
    var ua := prefix + "iPhone" + suffix;
    var low := LowerAscii(ua);
    assert low[|prefix|..|prefix| + 6] == "iphone";
    assert OccursAt(low, MobileTokens[2], |prefix|);
  }
}
