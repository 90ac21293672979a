/** The `fetch`-based workspace endpoints (src/entities/api/workspace.api.ts):
    the listing request's query string and URL, and how each endpoint turns
    the settled `fetch` into a value or a thrown error. */
module WorkspaceApi {
  import opened Wrappers
  import opened Strings
  import opened Js
  import opened ApiHandlers
  import opened ApiUtils
  import opened Seqs

  /** `Object.entries(params)`: key/value pairs in insertion order. */
  type Entries = seq<(string, JsValue)>

  /** The library primitives the endpoints call: `JSON.stringify`, the
      form-urlencoding `URLSearchParams` applies to each key and value, and
      the ISO timestamp of `new Date()`. */
  datatype Runtime = Runtime(stringify: JsValue -> string, encode: string -> string, timestamp: string)

  /** How a `fetch` settles: a response together with what `response.json()`
      would settle to, or a rejection (a network error). */
  datatype FetchOutcome =
    | Responded(response: FetchResponse, body: Result<JsValue, JsValue>)
    | Rejected(error: JsValue)

  const ListPath := "/api/v1/workspaces"
  const FailurePrefix := "Workspaces request failed: "

  // ------------------------------------------------------------ query string

  /** The `(key, String(value))` pairs the `forEach` appends: the entries whose
      value is neither `undefined` nor `null`, in entry order. */
  function QueryPairs(entries: Entries): (pairs: seq<(string, string)>)
    ensures |pairs| <= |entries|
  {
    if entries == [] then []
    else (if Nullish(entries[0].1) then [] else [(entries[0].0, ToStr(entries[0].1))]) + QueryPairs(entries[1..])
  }

  /** No pair is appended exactly when every value is `undefined` or `null`. */
  lemma {:induction false} QueryPairsEmpty(entries: Entries)
    ensures QueryPairs(entries) == [] <==> forall i :: 0 <= i < |entries| ==> Nullish(entries[i].1)
  {
    if entries != [] {
      QueryPairsEmpty(entries[1..]);
      assert forall i :: 1 <= i < |entries| ==> entries[i] == entries[1..][i - 1];
    }
  }

  /** Appending entries appends their pairs: the loop keeps entry order. */
  lemma {:induction false} QueryPairsAppend(a: Entries, b: Entries)
    ensures QueryPairs(a + b) == QueryPairs(a) + QueryPairs(b)
  {
    if a == [] {
      assert a + b == b;
    } else {
      QueryPairsAppend(a[1..], b);
      var ab := a + b;
      assert ab[0] == a[0];
      assert ab[1..] == a[1..] + b;
      var head := if Nullish(a[0].1) then [] else [(a[0].0, ToStr(a[0].1))];
      assert QueryPairs(ab) == head + QueryPairs(a[1..] + b);
      assert QueryPairs(a) == head + QueryPairs(a[1..]);
      AppendAssoc(head, QueryPairs(a[1..]), QueryPairs(b));
    }
  }

  /** A pair is appended exactly for an entry with a value, under that
      entry's key and with the value's `String` form. */
  lemma {:induction false} QueryPairsMembership(entries: Entries, key: string, value: string)
    ensures (key, value) in QueryPairs(entries) <==>
      exists i :: 0 <= i < |entries| && entries[i].0 == key && !Nullish(entries[i].1) && ToStr(entries[i].1) == value
  {
    if entries != [] {
      QueryPairsMembership(entries[1..], key, value);
      var rest := entries[1..];
      if (key, value) in QueryPairs(rest) {
        var i :| 0 <= i < |rest| && rest[i].0 == key && !Nullish(rest[i].1) && ToStr(rest[i].1) == value;
        assert entries[i + 1] == rest[i];
      }
      if exists i :: 0 <= i < |entries| && entries[i].0 == key && !Nullish(entries[i].1) && ToStr(entries[i].1) == value {
        var i :| 0 <= i < |entries| && entries[i].0 == key && !Nullish(entries[i].1) && ToStr(entries[i].1) == value;
        if i > 0 {
          assert rest[i - 1] == entries[i];
        }
      }
    }
  }

  /** The `forEach` over `Object.entries(params)` that fills `searchParams`. */
  method BuildQuery(entries: Entries) returns (pairs: seq<(string, string)>)
    ensures pairs == QueryPairs(entries)
  {
    pairs := [];
    var i := 0;
    while i < |entries|
      invariant 0 <= i <= |entries|
      invariant pairs == QueryPairs(entries[..i])
    {
      var (key, value) := entries[i];
      if !Nullish(value) {
        pairs := pairs + [(key, ToStr(value))];
      }
      QueryPairsAppend(entries[..i], [entries[i]]);
      assert entries[..i + 1] == entries[..i] + [entries[i]];
      i := i + 1;
    }
    assert entries[..i] == entries;
  }

  /** `searchParams.toString()`: `key=value` pairs, each side encoded, joined
      by `&`. */
  function Serialize(pairs: seq<(string, string)>, encode: string -> string): (q: string)
    ensures q == [] <==> pairs == []
  {
    if pairs == [] then []
    else
      var first := encode(pairs[0].0) + "=" + encode(pairs[0].1);
      if |pairs| == 1 then first else first + "&" + Serialize(pairs[1..], encode)
  }

  /** The listing URL: the path, then `?` and the query only when the query
      is non-empty. */
  function ListUrl(entries: Entries, encode: string -> string): (url: string)
    ensures |ListPath| <= |url| && url[..|ListPath|] == ListPath
    ensures |url| > |ListPath| <==> exists i :: 0 <= i < |entries| && !Nullish(entries[i].1)
    ensures |url| > |ListPath| ==>
      url[|ListPath|] == '?' && url[|ListPath| + 1..] == Serialize(QueryPairs(entries), encode)
  {
    QueryPairsEmpty(entries);
    var query := Serialize(QueryPairs(entries), encode);
    var url := ListPath + (if query != [] then "?" + query else "");
    assert url[..|ListPath|] == ListPath;
    url
  }

  // ------------------------------------------------------------ responses

  /** `new Error(message)`: an object whose own readable field is `message`. */
  function ErrorObject(message: string): (e: JsValue)
    ensures e.Obj? && e.fields.Keys == {"message"} && e.fields["message"] == Str(message)
  {
    Obj(map["message" := Str(message)])
  }

  /** The message of a failed listing: status, status text, and the JSON
      body when `response.json()` resolves. */
  function FailureMessage(r: FetchResponse, body: Result<JsValue, JsValue>, stringify: JsValue -> string)
    : (m: string)
    ensures StartsWith(m, FailurePrefix + IntToString(r.status) + " " + r.statusText)
    ensures body.Failure? ==> m == FailurePrefix + IntToString(r.status) + " " + r.statusText
    ensures body.Success? ==>
      m == FailurePrefix + IntToString(r.status) + " " + r.statusText + " - " + stringify(body.value)
  {
    var head := FailurePrefix + IntToString(r.status) + " " + r.statusText;
    var m := head + (if body.Success? then " - " + stringify(body.value) else "");
    assert m[..|head|] == head;
    m
  }

  /** What the `catch` turns a thrown value into: `handleApiError` on an error
      that is not an axios error, which throws it again. */
  function Caught(e: JsValue): (t: Thrown)
    ensures t == Rethrown(e)
  {
    HandleApiError(Other(e))
  }

  /** `getWorkspaces` once `fetch` has settled. */
  function ListResult(outcome: FetchOutcome, rt: Runtime): (r: Result<JsValue, Thrown>)
    ensures outcome.Rejected? ==> r == Failure(Rethrown(outcome.error))
    ensures outcome.Responded? && !Ok(outcome.response) ==>
      r == Failure(Rethrown(ErrorObject(FailureMessage(outcome.response, outcome.body, rt.stringify))))
    ensures outcome.Responded? && Ok(outcome.response) ==>
      var parsed := ParseJsonResponse(outcome.response, outcome.body, rt.timestamp);
      && (r.Success? <==> parsed.Success?)
      && (r.Success? ==> r.value == parsed.value)
      && (r.Failure? ==> r.error == Rethrown(parsed.error))
  {
    match outcome
    case Rejected(e) => Failure(Caught(e))
    case Responded(resp, body) =>
      if !Ok(resp) then Failure(Caught(ErrorObject(FailureMessage(resp, body, rt.stringify))))
      else
        match ParseJsonResponse(resp, body, rt.timestamp)
        case Success(v) => Success(v)
        case Failure(e) => Failure(Caught(e))
  }

  /** `getWorkspaces(params)`: the URL it requests and how it settles. */
  method GetWorkspaces(params: Entries, outcome: FetchOutcome, rt: Runtime)
    returns (url: string, r: Result<JsValue, Thrown>)
    ensures url == ListUrl(params, rt.encode)
    ensures r == ListResult(outcome, rt)
  {
    var pairs := BuildQuery(params);
    var query := Serialize(pairs, rt.encode);
    url := ListPath + (if query != [] then "?" + query else "");
    r := ListResult(outcome, rt);
  }

  /** The listing resolves only for an ok response, and a failed response is
      thrown as an `Error` that carries no `status_code`. */
  lemma ListResolvesOnlyWhenOk(outcome: FetchOutcome, rt: Runtime)
    ensures ListResult(outcome, rt).Success? ==> outcome.Responded? && Ok(outcome.response)
    ensures outcome.Responded? && !Ok(outcome.response) ==>
      Field(ListResult(outcome, rt).error.value, "status_code") == Undefined
  {
  }

  /** `createWorkspace` once `fetch` has settled: `parseJsonResponse` decides,
      and whatever it throws is thrown again unchanged. */
  function CreateResult(outcome: FetchOutcome, timestamp: string): (r: Result<JsValue, Thrown>)
    ensures outcome.Rejected? ==> r == Failure(Rethrown(outcome.error))
    ensures outcome.Responded? ==>
      var parsed := ParseJsonResponse(outcome.response, outcome.body, timestamp);
      && (r.Success? <==> parsed.Success?)
      && (r.Success? ==> r.value == parsed.value)
      && (r.Failure? ==> r.error == Rethrown(parsed.error))
  {
    match outcome
    case Rejected(e) => Failure(Caught(e))
    case Responded(resp, body) =>
      match ParseJsonResponse(resp, body, timestamp)
      case Success(v) => Success(v)
      case Failure(e) => Failure(Caught(e))
  }

  /** Creation fails for every non-ok status, and then throws the server's
      JSON body itself when there is one. */
  lemma CreateFailsUnlessOk(resp: FetchResponse, body: Result<JsValue, JsValue>, timestamp: string)
    requires !Ok(resp)
    ensures CreateResult(Responded(resp, body), timestamp).Failure?
    ensures IsJsonResponse(resp) && body.Success? ==>
      CreateResult(Responded(resp, body), timestamp).error == Rethrown(body.value)
  {
  }
}
