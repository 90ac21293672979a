/** The `useWorkspaces` hook (src/shared/hooks/useWorkspaces.ts): the listing
    parameters, the loaded page of workspaces and its total, and the toasts the
    hook raises. Each handler is one atomic step; the settled `fetch` is a
    parameter. */
module UseWorkspaces {
  import opened Wrappers
  import opened Js
  import opened ApiHandlers
  import opened ApiUtils
  import opened WorkspaceApi

  datatype SortField = Name | CreatedAt | UpdatedAt

  function SortFieldName(f: SortField): (s: string)
    ensures s == "name" || s == "created_at" || s == "updated_at"
  {
    match f
    case Name => "name"
    case CreatedAt => "created_at"
    case UpdatedAt => "updated_at"
  }

  /** `WorkspaceListParams`; `None` is a key that is absent or `undefined`. */
  datatype Params = Params(
    skip: Option<int>, limit: Option<int>, sortBy: Option<SortField>, sortDesc: Option<bool>, search: Option<string>)

  /** One field of a `Partial<WorkspaceListParams>`: absent, or present with a
      value that may be `undefined`. */
  datatype Change<T> = Keep | Put(value: Option<T>)

  datatype Patch = Patch(
    skip: Change<int>, limit: Change<int>, sortBy: Change<SortField>, sortDesc: Change<bool>, search: Change<string>)

  const NoChange := Patch(Keep, Keep, Keep, Keep, Keep)

  function Apply<T>(current: Option<T>, c: Change<T>): Option<T> {
    match c
    case Keep => current
    case Put(v) => v
  }

  /** `{ ...current, ...patch }`: every key the patch holds wins, even with
      the value `undefined`; the others keep their value. */
  function Merge(p: Params, patch: Patch): (r: Params)
    ensures patch.skip.Put? ==> r.skip == patch.skip.value
    ensures patch.limit.Put? ==> r.limit == patch.limit.value
    ensures patch.sortBy.Put? ==> r.sortBy == patch.sortBy.value
    ensures patch.sortDesc.Put? ==> r.sortDesc == patch.sortDesc.value
    ensures patch.search.Put? ==> r.search == patch.search.value
    ensures patch.skip.Keep? ==> r.skip == p.skip
    ensures patch.limit.Keep? ==> r.limit == p.limit
    ensures patch.sortBy.Keep? ==> r.sortBy == p.sortBy
    ensures patch.sortDesc.Keep? ==> r.sortDesc == p.sortDesc
    ensures patch.search.Keep? ==> r.search == p.search
  {
    Params(Apply(p.skip, patch.skip), Apply(p.limit, patch.limit), Apply(p.sortBy, patch.sortBy),
      Apply(p.sortDesc, patch.sortDesc), Apply(p.search, patch.search))
  }

  /** Merging nothing changes nothing. */
  lemma MergeNothing(p: Params)
    ensures Merge(p, NoChange) == p
  {
  }

  /** Applying the same update twice is applying it once. */
  lemma MergeIdempotent(p: Params, patch: Patch)
    ensures Merge(Merge(p, patch), patch) == Merge(p, patch)
  {
  }

  /** The starting parameters: skip 0, limit 10, newest update first. */
  const Defaults := Params(Some(0), Some(10), Some(UpdatedAt), Some(true), None)

  /** `{ skip: 0, limit: 10, sort_by: 'updated_at', sort_desc: true, ...initialParams }`. */
  function InitialParams(initial: Patch): (p: Params)
    ensures initial.skip.Keep? ==> p.skip == Some(0)
    ensures initial.limit.Keep? ==> p.limit == Some(10)
    ensures initial.sortBy.Keep? ==> p.sortBy == Some(UpdatedAt)
    ensures initial.sortDesc.Keep? ==> p.sortDesc == Some(true)
    ensures initial.search.Keep? ==> p.search.None?
    ensures initial == NoChange ==> p == Defaults
  {
    Merge(Defaults, initial)
  }

  function OptionalNum(v: Option<int>): JsValue {
    if v.Some? then Num(v.value) else Undefined
  }

  /** `Object.entries(params)`. The key order never changes: the four default
      keys come first in every parameter object, and `search` is the only
      key a merge can add. */
  function ParamEntries(p: Params): (e: Entries)
    ensures |e| == 5
    ensures e[0].0 == "skip" && e[1].0 == "limit" && e[2].0 == "sort_by" && e[3].0 == "sort_desc" && e[4].0 == "search"
    ensures Nullish(e[0].1) <==> p.skip.None?
    ensures Nullish(e[1].1) <==> p.limit.None?
    ensures Nullish(e[2].1) <==> p.sortBy.None?
    ensures Nullish(e[3].1) <==> p.sortDesc.None?
    ensures Nullish(e[4].1) <==> p.search.None?
  {
    [("skip", OptionalNum(p.skip)),
     ("limit", OptionalNum(p.limit)),
     ("sort_by", if p.sortBy.Some? then Str(SortFieldName(p.sortBy.value)) else Undefined),
     ("sort_desc", if p.sortDesc.Some? then Bool(p.sortDesc.value) else Undefined),
     ("search", if p.search.Some? then Str(p.search.value) else Undefined)]
  }

  /** The request URL for a parameter object. */
  function RequestUrl(p: Params, encode: string -> string): (url: string)
    ensures url == ListUrl(ParamEntries(p), encode)
  {
    ListUrl(ParamEntries(p), encode)
  }

  /** The default parameters always put a query on the URL. */
  lemma DefaultsHaveQuery(encode: string -> string)
    ensures |RequestUrl(Defaults, encode)| > |ListPath|
  {
    assert !Nullish(ParamEntries(Defaults)[0].1);
  }

  // ------------------------------------------------------------ outcomes

  const LoadFailed := "Ошибка при загрузке рабочих пространств"
  const CreateFailed := "Ошибка при создании рабочего пространства"
  const Created := "Рабочее пространство успешно создано"

  /** The toasts `message.error` / `message.success` show. */
  datatype Notice = ErrorNotice(text: string) | SuccessNotice(content: JsValue)

  /** `apiError?.status_code === 401` on a caught value. The record
      `handleApiError` builds names its field `status`, and a TypeError has
      neither, so only a rethrown value can match. */
  predicate Unauthorized(t: Thrown) {
    t.Rethrown? && !Nullish(t.value) && Field(t.value, "status_code") == Num(401)
  }

  /** What a listing call does to the hook: load a page, raise the error
      toast, or stay quiet (a 401). Reading `success` of a `null` body, or
      `items` of a missing `data`, throws a TypeError that the `catch`
      reports like any other error. A `data` object whose `items` is missing
      or `null` is loaded first, and then logging `items.length` throws: the
      rows and total are set, and the error toast is raised as well. */
  datatype ListEffect = Load(items: JsValue, total: JsValue) | LoadThenReport(items: JsValue, total: JsValue) | Report | Quiet

  function ListEffectOf(r: Result<JsValue, Thrown>): (e: ListEffect)
    ensures e.Load? <==>
      && r.Success? && !Nullish(r.value) && Truthy(Field(r.value, "success")) && !Nullish(Field(r.value, "data"))
      && !Nullish(Field(Field(r.value, "data"), "items"))
    ensures e.LoadThenReport? <==>
      && r.Success? && !Nullish(r.value) && Truthy(Field(r.value, "success")) && !Nullish(Field(r.value, "data"))
      && Nullish(Field(Field(r.value, "data"), "items"))
    ensures e.Load? || e.LoadThenReport? ==>
      var data := Field(r.value, "data");
      e.items == Field(data, "items") && e.total == Field(data, "total")
    ensures e.Quiet? <==> r.Failure? && Unauthorized(r.error)
  {
    match r
    case Success(resp) =>
      if Nullish(resp) || !Truthy(Field(resp, "success")) then Report
      else
        var data := Field(resp, "data");
        if Nullish(data) then Report
        else if Nullish(Field(data, "items")) then LoadThenReport(Field(data, "items"), Field(data, "total"))
        else Load(Field(data, "items"), Field(data, "total"))
    case Failure(t) => if Unauthorized(t) then Quiet else Report
  }

  /** The part of the hook a listing call changes: the rows, the total and
      the toasts raised so far. */
  datatype ListState = ListState(rows: JsValue, total: JsValue, notices: seq<Notice>)

  /** The hook after a listing call has had effect `e`: a load replaces rows
      and total, a report appends the load-error toast, and a quiet failure
      changes nothing. */
  function AfterListing(s: ListState, e: ListEffect): (r: ListState)
    ensures e.Load? || e.LoadThenReport? ==> r.rows == e.items && r.total == e.total
    ensures e.Report? || e.Quiet? ==> r.rows == s.rows && r.total == s.total
    ensures e.Report? || e.LoadThenReport? ==> r.notices == s.notices + [ErrorNotice(LoadFailed)]
    ensures e.Load? || e.Quiet? ==> r.notices == s.notices
  {
    match e
    case Load(items, count) => ListState(items, count, s.notices)
    case LoadThenReport(items, count) => ListState(items, count, s.notices + [ErrorNotice(LoadFailed)])
    case Report => s.(notices := s.notices + [ErrorNotice(LoadFailed)])
    case Quiet => s
  }

  /** A successful listing whose `data` has no `items` clears the rows and
      still raises the load-error toast. */
  lemma MissingItemsReported(s: ListState, data: map<string, JsValue>, total: JsValue)
    requires "items" !in data && "total" in data && data["total"] == total
    ensures AfterListing(s, ListEffectOf(Success(Obj(map["success" := Bool(true), "data" := Obj(data)]))))
      == ListState(Undefined, total, s.notices + [ErrorNotice(LoadFailed)])
  {
    var resp := Obj(map["success" := Bool(true), "data" := Obj(data)]);
    assert Field(resp, "success") == Bool(true);
    assert Field(resp, "data") == Obj(data);
  }

  /** The toast count never falls, and grows by at most one per listing. */
  lemma ListingAddsAtMostOneNotice(s: ListState, e: ListEffect)
    ensures |s.notices| <= |AfterListing(s, e).notices| <= |s.notices| + 1
    ensures AfterListing(s, e).notices[..|s.notices|] == s.notices
  {
  }

  /** A listing that the server answers with any non-ok status, 401
      included, raises the error toast: `getWorkspaces` throws an `Error`
      without a `status_code`. */
  lemma HttpFailureIsReported(resp: FetchResponse, body: Result<JsValue, JsValue>, rt: Runtime)
    requires !Ok(resp)
    ensures ListEffectOf(ListResult(Responded(resp, body), rt)) == Report
  {
    ListResolvesOnlyWhenOk(Responded(resp, body), rt);
  }

  /** What creation does: succeed (with the toast content), fail with the
      error toast, or fail quietly (a 401). */
  datatype CreateEffect = Made(content: JsValue) | Refused | Silent

  function CreateEffectOf(r: Result<JsValue, Thrown>): (e: CreateEffect)
    ensures e.Made? <==> r.Success? && !Nullish(r.value) && Truthy(Field(r.value, "success"))
    ensures e.Made? ==> e.content == Or(Field(r.value, "message"), Str(Created))
    ensures e.Silent? <==> r.Failure? && Unauthorized(r.error)
  {
    match r
    case Success(resp) =>
      if Nullish(resp) || !Truthy(Field(resp, "success")) then Refused
      else Made(Or(Field(resp, "message"), Str(Created)))
    case Failure(t) => if Unauthorized(t) then Silent else Refused
  }

  /** A server that answers creation with a JSON body carrying
      `status_code: 401` is the one case of a quiet failure. */
  lemma UnauthorizedBodyIsQuiet(resp: FetchResponse, fields: map<string, JsValue>, timestamp: string)
    requires !Ok(resp) && IsJsonResponse(resp)
    requires "status_code" in fields && fields["status_code"] == Num(401)
    ensures CreateEffectOf(CreateResult(Responded(resp, Success(Obj(fields))), timestamp)) == Silent
  {
    CreateFailsUnlessOk(resp, Success(Obj(fields)), timestamp);
  }

  // ------------------------------------------------------------ the hook

  class WorkspaceList {
    /** `workspaces` and `total` hold whatever the last good response said. */
    var workspaces: JsValue
    var total: JsValue
    var params: Params
    /** `mountedRef.current`. */
    var mounted: bool
    /** The listing URLs requested so far, in order; the creation POST is not recorded. */
    var requests: seq<string>
    var notices: seq<Notice>

    /** `useWorkspaces(initialParams)` on first render. */
    constructor (initial: Patch)
      ensures workspaces == Arr([]) && total == Num(0)
      ensures params == InitialParams(initial)
      ensures mounted && requests == [] && notices == []
    {
      workspaces := Arr([]);
      total := Num(0);
      params := InitialParams(initial);
      mounted := true;
      requests := [];
      notices := [];
    }

    /** The rows, total and toasts as one value. */
    function State(): ListState
      reads this
    {
      ListState(workspaces, total, notices)
    }

    /** Applies what a listing call settled to. */
    method Settle(r: Result<JsValue, Thrown>)
      modifies this
      ensures params == old(params) && mounted == old(mounted) && requests == old(requests)
      ensures State() == AfterListing(old(State()), ListEffectOf(r))
    {
      match ListEffectOf(r)
      case Load(items, count) =>
        workspaces := items;
        total := count;
      case LoadThenReport(items, count) =>
        workspaces := items;
        total := count;
        notices := notices + [ErrorNotice(LoadFailed)];
      case Report =>
        notices := notices + [ErrorNotice(LoadFailed)];
      case Quiet =>
    }

    /** `fetchWorkspaces(newParams?)`: nothing once unmounted; otherwise one
      request with the given parameters, or the current ones. */
    method Fetch(explicit: Option<Params>, outcome: FetchOutcome, rt: Runtime)
      modifies this
      ensures params == old(params) && mounted == old(mounted)
      ensures !old(mounted) ==> State() == old(State()) && requests == old(requests)
      ensures old(mounted) ==>
        requests == old(requests) + [RequestUrl(if explicit.Some? then explicit.value else old(params), rt.encode)]
      ensures old(mounted) ==> State() == AfterListing(old(State()), ListEffectOf(ListResult(outcome, rt)))
    {
      if !mounted {
        return;
      }
      var used := if explicit.Some? then explicit.value else params;
      var url, r := GetWorkspaces(ParamEntries(used), outcome, rt);
      requests := requests + [url];
      Settle(r);
    }

    /** `refresh()`. */
    method Refresh(outcome: FetchOutcome, rt: Runtime)
      modifies this
      ensures params == old(params) && mounted == old(mounted)
      ensures !old(mounted) ==> State() == old(State()) && requests == old(requests)
      ensures old(mounted) ==> requests == old(requests) + [RequestUrl(old(params), rt.encode)]
      ensures old(mounted) ==> State() == AfterListing(old(State()), ListEffectOf(ListResult(outcome, rt)))
    {
      Fetch(None, outcome, rt);
    }

    /** `updateParams(newParams)`: the merged parameters become current and
      are the ones requested. */
    method UpdateParams(patch: Patch, outcome: FetchOutcome, rt: Runtime)
      modifies this
      ensures mounted == old(mounted)
      ensures !old(mounted) ==> params == old(params) && requests == old(requests) && State() == old(State())
      ensures old(mounted) ==> params == Merge(old(params), patch)
      ensures old(mounted) ==> requests == old(requests) + [RequestUrl(Merge(old(params), patch), rt.encode)]
      ensures old(mounted) ==> State() == AfterListing(old(State()), ListEffectOf(ListResult(outcome, rt)))
    {
      if !mounted {
        return;
      }
      params := Merge(params, patch);
      Fetch(Some(params), outcome, rt);
    }

    /** `createWorkspace(data)`: true exactly when the server confirms
      `success`; then the success toast is raised and the list is fetched
      again with the current parameters. */
    method CreateWorkspace(created: FetchOutcome, relist: FetchOutcome, rt: Runtime) returns (ok: bool)
      modifies this
      ensures params == old(params) && mounted == old(mounted)
      ensures ok <==> old(mounted) && CreateEffectOf(CreateResult(created, rt.timestamp)).Made?
      ensures !ok ==> workspaces == old(workspaces) && total == old(total) && requests == old(requests)
      ensures ok ==> requests == old(requests) + [RequestUrl(old(params), rt.encode)]
      ensures ok ==>
        var toasted := old(State()).(notices := old(notices) + [SuccessNotice(CreateEffectOf(CreateResult(created, rt.timestamp)).content)]);
        State() == AfterListing(toasted, ListEffectOf(ListResult(relist, rt)))
      ensures old(mounted) && CreateEffectOf(CreateResult(created, rt.timestamp)).Refused? ==>
        notices == old(notices) + [ErrorNotice(CreateFailed)]
      ensures !old(mounted) || CreateEffectOf(CreateResult(created, rt.timestamp)).Silent? ==>
        notices == old(notices)
    {
      if !mounted {
        return false;
      }
      match CreateEffectOf(CreateResult(created, rt.timestamp))
      case Made(content) =>
        notices := notices + [SuccessNotice(content)];
        Fetch(None, relist, rt);
        ok := true;
      case Refused =>
        notices := notices + [ErrorNotice(CreateFailed)];
        ok := false;
      case Silent =>
        ok := false;
    }

    /** The cleanup of the mount effect. */
    method Unmount()
      modifies this
      ensures !mounted
      ensures workspaces == old(workspaces) && total == old(total) && params == old(params)
      ensures requests == old(requests) && notices == old(notices)
    {
      mounted := false;
    }
  }
}
