/** Reading a JWT's payload without checking its signature
    (src/shared/utils/jwt.utils.ts). `atob` and `JSON.parse` are library
    primitives and come in as parameters; `None` from either stands for the
    exception the source catches. */
module Jwt {
  import opened Wrappers
  import opened Strings
  import opened Js

  /** `String.prototype.repeat` on a one-character string. */
  function Repeat(c: char, n: nat): (s: string)
    ensures |s| == n
    ensures forall i :: 0 <= i < n ==> s[i] == c
  {
    if n == 0 then [] else [c] + Repeat(c, n - 1)
  }

  /** The base64 padding added to the payload segment: enough '=' to reach a
      multiple of four characters, so never more than three. */
  function Padding(payload: string): (pad: string)
    ensures |pad| <= 3
    ensures (|payload| + |pad|) % 4 == 0
    ensures forall i :: 0 <= i < |pad| ==> pad[i] == '='
    ensures |payload| % 4 == 0 ==> pad == []
  {
    Repeat('=', (4 - |payload| % 4) % 4)
  }

  /** The middle segment of a token with exactly two dots, padded for `atob`. */
  function PaddedPayload(token: string): (padded: string)
    requires Count(token, '.') == 2
    ensures |padded| % 4 == 0
    ensures |Split(token, '.')[1]| <= |padded|
    ensures padded[..|Split(token, '.')[1]|] == Split(token, '.')[1]
  {
    var payload := Split(token, '.')[1];
    payload + Padding(payload)
  }

  /** `decodeJWT`: `None` for the empty token, for a token that does not split
      into exactly three parts, and whenever `atob` or `JSON.parse` throws;
      otherwise whatever `JSON.parse` produced (which may itself be `null`). */
  function DecodeJwt(token: string, atob: string -> Option<string>, parse: string -> Option<JsValue>)
    : (r: Option<JsValue>)
    ensures token == [] ==> r.None?
    ensures |Split(token, '.')| != 3 ==> r.None?
    ensures r.Some? ==>
      && Count(token, '.') == 2
      && atob(PaddedPayload(token)).Some?
      && parse(atob(PaddedPayload(token)).value) == r
    ensures token != [] && Count(token, '.') == 2 && atob(PaddedPayload(token)).None? ==> r.None?
    ensures token != [] && Count(token, '.') == 2 && atob(PaddedPayload(token)).Some? ==>
      r == parse(atob(PaddedPayload(token)).value)
  {
    if token == [] then None
    else if |Split(token, '.')| != 3 then None
    else
      match atob(PaddedPayload(token))
      case None => None
      case Some(text) => parse(text)
  }

  /** The expiry test on a decoded payload: a falsy payload counts as expired;
      otherwise, with `now` the current time in whole seconds, the token is
      expired when a truthy `expires_at` or a truthy `exp` is below `now`. */
  predicate ExpiredPayload(p: JsValue, nowMs: int) {
    if !Truthy(p) then true
    else
      var now := nowMs / 1000;
      var expiresAt := Field(p, "expires_at");
      var exp := Field(p, "exp");
      (Truthy(expiresAt) && LessThan(expiresAt, now)) || (Truthy(exp) && LessThan(exp, now))
  }

  /** `isTokenExpired`. */
  function IsTokenExpired(token: string, nowMs: int, atob: string -> Option<string>, parse: string -> Option<JsValue>)
    : (expired: bool)
    ensures DecodeJwt(token, atob, parse).None? ==> expired
    ensures DecodeJwt(token, atob, parse).Some? ==> expired == ExpiredPayload(DecodeJwt(token, atob, parse).value, nowMs)
  {
    match DecodeJwt(token, atob, parse)
    case None => true
    case Some(p) => ExpiredPayload(p, nowMs)
  }

  /** With numeric expiry fields (a missing field read as 0), a payload object
      is expired exactly when a nonzero `expires_at` or a nonzero `exp` lies
      strictly before the current second. */
  lemma ExpiryRule(fields: map<string, JsValue>, nowMs: int, expiresAt: int, exp: int)
    requires "expires_at" in fields ==> fields["expires_at"] == Num(expiresAt)
    requires "expires_at" !in fields ==> expiresAt == 0
    requires "exp" in fields ==> fields["exp"] == Num(exp)
    requires "exp" !in fields ==> exp == 0
    ensures ExpiredPayload(Obj(fields), nowMs)
        <==> (expiresAt != 0 && expiresAt < nowMs / 1000) || (exp != 0 && exp < nowMs / 1000)
  {
  }

  /** A payload object carrying neither expiry field never expires. */
  lemma NoExpiryFieldsNeverExpire(fields: map<string, JsValue>, nowMs: int)
    requires "expires_at" !in fields && "exp" !in fields
    ensures !ExpiredPayload(Obj(fields), nowMs)
  {
  }

  /** Reaching the expiry second is not yet expiry: the comparison is strict. */
  lemma ExpiryBoundary(fields: map<string, JsValue>, expiresAt: int)
    requires fields == map["expires_at" := Num(expiresAt)]
    requires expiresAt != 0
    ensures !ExpiredPayload(Obj(fields), expiresAt * 1000 + 999)
    ensures ExpiredPayload(Obj(fields), expiresAt * 1000 + 1000)
  {
  }

  /** An `expires_at` that parses to an array is compared as the number its
      string form reads as: `[]` as 0, so it has expired at any positive
      second, and `[t]` as `t`. */
  lemma ArrayExpiry(t: int, nowMs: int)
    ensures ExpiredPayload(Obj(map["expires_at" := Arr([])]), nowMs) <==> 0 < nowMs / 1000
    ensures ExpiredPayload(Obj(map["expires_at" := Arr([Num(t)])]), nowMs) <==> t < nowMs / 1000
  {
    var now := nowMs / 1000;
    ArraysCompareAsNumbers(t, now);
    ArrayFieldExpiry(Arr([]), nowMs);
    ArrayFieldExpiry(Arr([Num(t)]), nowMs);
  }

  /** A payload whose only field is a truthy `expires_at` expires exactly when
      that field compares below the current second. */
  lemma ArrayFieldExpiry(v: JsValue, nowMs: int)
    requires Truthy(v)
    ensures ExpiredPayload(Obj(map["expires_at" := v]), nowMs) <==> LessThan(v, nowMs / 1000)
  {
    var p := Obj(map["expires_at" := v]);
    assert Field(p, "expires_at") == v;
    assert "exp" !in p.fields;
  }

  lemma LessThanMonotone(v: JsValue, a: int, b: int)
    requires a <= b && LessThan(v, a)
    ensures LessThan(v, b)
  {
  }

  /** Once expired, a token stays expired as the clock moves forward. */
  lemma ExpiryMonotone(token: string, t1: int, t2: int, atob: string -> Option<string>, parse: string -> Option<JsValue>)
    requires t1 <= t2
    requires IsTokenExpired(token, t1, atob, parse)
    ensures IsTokenExpired(token, t2, atob, parse)
  {
    match DecodeJwt(token, atob, parse)
    case None =>
    case Some(p) =>
      if Truthy(p) {
        assert t1 / 1000 <= t2 / 1000;
        var expiresAt := Field(p, "expires_at");
        var exp := Field(p, "exp");
        if Truthy(expiresAt) && LessThan(expiresAt, t1 / 1000) {
          LessThanMonotone(expiresAt, t1 / 1000, t2 / 1000);
        } else {
          LessThanMonotone(exp, t1 / 1000, t2 / 1000);
        }
      }
  }

  /** The user projection `getUserFromToken` builds. */
  datatype User = User(userId: JsValue, email: JsValue, isVerified: JsValue, role: JsValue)

  /** `getUserFromToken`: `None` exactly when the payload is missing or falsy,
      otherwise `user_id`, `sub`, `is_verified` and `role` renamed. */
  function UserFromToken(token: string, atob: string -> Option<string>, parse: string -> Option<JsValue>)
    : (r: Option<User>)
    ensures r.None? <==> DecodeJwt(token, atob, parse).None? || !Truthy(DecodeJwt(token, atob, parse).value)
    ensures r.Some? ==>
      var p := DecodeJwt(token, atob, parse).value;
      r.value == User(Field(p, "user_id"), Field(p, "sub"), Field(p, "is_verified"), Field(p, "role"))
  {
    match DecodeJwt(token, atob, parse)
    case None => None
    case Some(p) =>
      if !Truthy(p) then None
      else Some(User(Field(p, "user_id"), Field(p, "sub"), Field(p, "is_verified"), Field(p, "role")))
  }

  /** A token that yields no user is always expired: the two readers agree on
      which tokens are unusable. */
  lemma NoUserMeansExpired(token: string, nowMs: int, atob: string -> Option<string>, parse: string -> Option<JsValue>)
    requires UserFromToken(token, atob, parse).None?
    ensures IsTokenExpired(token, nowMs, atob, parse)
  {
  }
}
