/** The workspace list pages (src/pages/Workspaces/index.tsx and
    src/pages/Dashboard/index.tsx, whose handlers are the same text): the
    pagination arithmetic, the search and sort handlers that feed the
    `useWorkspaces` hook, the page-local relative-date label, and the mount
    effect. */
module WorkspacePages {
  import opened Wrappers
  import opened Strings
  import opened Js
  import opened WorkspaceApi
  import opened UseWorkspaces
  import DateUtils

  /** `a || b` on numbers that may be `undefined`: `0` is falsy. */
  function OrNum(a: Option<int>, b: Option<int>): (r: Option<int>)
    ensures a.Some? && a.value != 0 ==> r == a
    ensures a.None? || a.value == 0 ==> r == b
  {
    if a.Some? && a.value != 0 then a else b
  }

  const DefaultPageSize := 10

  /** `params.limit || 10`, the page size the pager shows. */
  function PageSize(p: Params): (n: int)
    ensures n != 0
    ensures p.limit.Some? && p.limit.value != 0 ==> n == p.limit.value
    ensures p.limit.None? || p.limit.value == 0 ==> n == DefaultPageSize
  {
    OrNum(p.limit, Some(DefaultPageSize)).value
  }

  /** `Math.floor(a / b)` for a non-zero divisor. */
  function FloorDiv(a: int, b: int): (q: int)
    requires b != 0
    ensures b > 0 ==> q * b <= a < q * b + b
    ensures b < 0 ==> q * b >= a > q * b + b
  {
    if b > 0 then a / b else (-a) / (-b)
  }

  /** A whole number of pages divides back exactly. */
  lemma FloorDivMultiple(k: int, size: int)
    requires size != 0
    ensures FloorDiv(k * size, size) == k
  {
    var q := FloorDiv(k * size, size);
    var b := if size > 0 then size else -size;
    assert (q - k) * b <= 0 < (q - k + 1) * b by {
      if size > 0 {
        assert q * size <= k * size < q * size + size;
      } else {
        assert q * size >= k * size > q * size + size;
        assert (q - k) * b == -((q - k) * size);
        assert (q - k + 1) * b == -((q - k + 1) * size);
      }
    }
    if q < k {
      ProductSign(q - k + 1, b);
    } else if q > k {
      ProductSign(q - k, b);
    }
  }

  /** A non-positive multiple of a positive number is not positive, and a
      positive multiple is at least the number. */
  lemma ProductSign(a: int, b: int)
    requires b > 0
    ensures a <= 0 ==> a * b <= 0
    ensures a >= 1 ==> a * b >= b
  {
    if a >= 1 { assert a * b == (a - 1) * b + b; }
  }

  /** `Math.floor((params.skip || 0) / (params.limit || 10)) + 1`. */
  function CurrentPage(p: Params): (page: int)
    ensures PageSize(p) > 0 ==>
      var skip := OrNum(p.skip, Some(0)).value;
      (page - 1) * PageSize(p) <= skip < page * PageSize(p)
  {
    FloorDiv(OrNum(p.skip, Some(0)).value, PageSize(p)) + 1
  }

  /** The pager's condition `total > (params.limit || 10)`: the list does not
      fit on one page. The page also hides the pager while loading and when
      the list is empty; those two tests are not part of this predicate. */
  predicate ShowPagination(total: JsValue, p: Params) {
    GreaterThan(total, PageSize(p))
  }

  /** A numeric total shows the pager exactly when its rows fill at least two
      pages: `floor((total - 1) / size) + 1` is the number of pages. */
  lemma PaginationIffSeveralPages(total: int, p: Params)
    requires PageSize(p) > 0
    ensures ShowPagination(Num(total), p) <==> FloorDiv(total - 1, PageSize(p)) + 1 >= 2
  {
    var size := PageSize(p);
    var q := FloorDiv(total - 1, size);
    if q >= 1 {
      assert (q - 1) * size >= 0;
    } else {
      assert (-q) * size >= 0;
    }
  }

  /** `handlePageChange(page, pageSize)`: skip to the first row of that page,
      with `pageSize || params.limit` as the new limit. */
  function PageChange(page: int, pageSize: Option<int>, p: Params): (patch: Patch)
    ensures patch.sortBy.Keep? && patch.sortDesc.Keep? && patch.search.Keep?
    ensures patch.limit == Put(OrNum(pageSize, p.limit))
    ensures patch.skip == Put(Some((page - 1) * OrNum(pageSize, OrNum(p.limit, Some(DefaultPageSize))).value))
  {
    var size := OrNum(pageSize, OrNum(p.limit, Some(DefaultPageSize))).value;
    Patch(Put(Some((page - 1) * size)), Put(OrNum(pageSize, p.limit)), Keep, Keep, Keep)
  }

  /** After a page change the pager shows the page that was chosen, for every
      page number and page size. */
  lemma PageChangeRoundTrip(page: int, pageSize: Option<int>, p: Params)
    ensures CurrentPage(Merge(p, PageChange(page, pageSize, p))) == page
  {
    var q := Merge(p, PageChange(page, pageSize, p));
    var size := PageSize(q);
    assert size == OrNum(pageSize, OrNum(p.limit, Some(DefaultPageSize))).value;
    var skip := (page - 1) * size;
    assert OrNum(q.skip, Some(0)).value == skip;
    FloorDivMultiple(page - 1, size);
  }

  /** Choosing the page the pager shows moves `skip` back to that page's first
      row: never later than before, and by less than one page. */
  lemma CurrentPageChange(p: Params)
    requires PageSize(p) > 0
    ensures var q := Merge(p, PageChange(CurrentPage(p), None, p));
      var skip := OrNum(p.skip, Some(0)).value;
      && q.limit == p.limit
      && q.skip.Some? && q.skip.value <= skip < q.skip.value + PageSize(p)
  {
  }

  /** `value || undefined`. */
  function SearchPatch(value: string): (patch: Patch)
    ensures patch.skip == Put(Some(0))
    ensures patch.search == Put(if value == [] then None else Some(value))
    ensures patch.limit.Keep? && patch.sortBy.Keep? && patch.sortDesc.Keep?
  {
    Patch(Put(Some(0)), Keep, Keep, Keep, Put(if value == [] then None else Some(value)))
  }

  function SortPatch(field: SortField): (patch: Patch)
    ensures patch.skip == Put(Some(0)) && patch.sortBy == Put(Some(field))
    ensures patch.limit.Keep? && patch.sortDesc.Keep? && patch.search.Keep?
  {
    Patch(Put(Some(0)), Keep, Put(Some(field)), Keep, Keep)
  }

  function OrderPatch(desc: bool): (patch: Patch)
    ensures patch.skip == Put(Some(0)) && patch.sortDesc == Put(Some(desc))
    ensures patch.limit.Keep? && patch.sortBy.Keep? && patch.search.Keep?
  {
    Patch(Put(Some(0)), Keep, Keep, Put(Some(desc)), Keep)
  }

  /** Searching, re-sorting and flipping the order all go back to the first
      page; an empty search drops the `search` key from the query. */
  lemma FilterChangesResetToFirstPage(p: Params, value: string, field: SortField, desc: bool)
    ensures CurrentPage(Merge(p, SearchPatch(value))) == 1
    ensures CurrentPage(Merge(p, SortPatch(field))) == 1
    ensures CurrentPage(Merge(p, OrderPatch(desc))) == 1
    ensures Merge(p, SearchPatch([])).search.None?
    ensures Nullish(ParamEntries(Merge(p, SearchPatch([])))[4].1)
  {
    assert PageSize(Merge(p, SearchPatch(value))) == PageSize(p);
    assert PageSize(Merge(p, SortPatch(field))) == PageSize(p);
    assert PageSize(Merge(p, OrderPatch(desc))) == PageSize(p);
  }

  // ------------------------------------------------------------ dates

  /** The page-local `formatDate`: five day buckets, lower-case "вчера".
      `new Date` of an unparsable string is `None`; its NaN day count fails
      every test and prints as "NaN г. назад". */
  function RelativeAge(date: Option<int>, now: int): (r: string)
    ensures date.None? ==> r == "NaN г. назад"
    ensures date.Some? && 0 < DateUtils.Elapsed(date.value, now) <= DateUtils.MsPerDay ==> r == "вчера"
    ensures date.Some? && date.value == now ==> r == "0 дн. назад"
  {
    match date
    case None => "NaN г. назад"
    case Some(t) =>
      var d := DateUtils.DiffDays(t, now);
      if d == 1 then "вчера"
      else if d < 7 then IntToString(d) + " дн. назад"
      else if d < 30 then IntToString(d / 7) + " нед. назад"
      else if d < 365 then IntToString(d / 30) + " мес. назад"
      else IntToString(d / 365) + " г. назад"
  }

  /** Below thirty started days, apart from one, the page label is the shared
      label; the pages differ only in "вчера" and from thirty days on. */
  lemma RelativeAgeMatchesShared(date: int, now: int, localeDate: int -> string)
    requires DateUtils.DiffDays(date, now) != 1 && DateUtils.DiffDays(date, now) < 30
    ensures RelativeAge(Some(date), now) == DateUtils.FormatDate(Some(date), now, localeDate)
  {
  }

  /** Between thirty and 364 started days the page counts one to twelve
      months; from 365 on, at least one year. */
  lemma RelativeAgeLongRanges(date: int, now: int)
    ensures var d := DateUtils.DiffDays(date, now);
      && (30 <= d < 365 ==> 1 <= d / 30 <= 12 && RelativeAge(Some(date), now) == IntToString(d / 30) + " мес. назад")
      && (d >= 365 ==> d / 365 >= 1 && RelativeAge(Some(date), now) == IntToString(d / 365) + " г. назад")
  {
  }

  // ------------------------------------------------------------ the page

  /** A handler that updates the parameters to `p` has the hook's effect:
      nothing once unmounted; otherwise one request for `p`, settled as
      `outcome` decides. The mounted flag is not touched. */
  predicate ListedWith(
    wasMounted: bool, before: seq<string>, was: ListState, p: Params, outcome: FetchOutcome, rt: Runtime,
    mounted: bool, after: seq<string>, now: ListState)
  {
    && mounted == wasMounted
    && (!wasMounted ==> after == before && now == was)
    && (wasMounted ==>
          && after == before + [RequestUrl(p, rt.encode)]
          && now == AfterListing(was, ListEffectOf(ListResult(outcome, rt))))
  }

  class WorkspacesPage {
    /** The hook instance the page renders. */
    const list: WorkspaceList
    /** Whether the page runs its own authenticated load on mount: the
        Workspaces page does, the Dashboard does not. */
    const checksAuth: bool
    var searchValue: string
    var sortBy: SortField
    var sortDesc: bool
    var createModalOpen: bool

    /** While mounted, the sort control shows the sort the list is fetched
        with. */
    predicate Valid()
      reads this, list
    {
      list.mounted ==> list.params.sortBy == Some(sortBy) && list.params.sortDesc == Some(sortDesc)
    }

    /** First render: `useWorkspaces()` with no initial parameters. */
    constructor (checksAuth: bool)
      ensures Valid() && fresh(list)
      ensures this.checksAuth == checksAuth
      ensures searchValue == [] && sortBy == UpdatedAt && sortDesc && !createModalOpen
      ensures list.params == Defaults && list.mounted && list.requests == []
    {
      list := new WorkspaceList(NoChange);
      this.checksAuth := checksAuth;
      searchValue := [];
      sortBy := UpdatedAt;
      sortDesc := true;
      createModalOpen := false;
    }

    /** The mount effects, in order: the hook loads the list, then the
        Workspaces page loads it again when `isAuthenticated()` holds. */
    method Mount(authenticated: bool, first: FetchOutcome, second: FetchOutcome, rt: Runtime)
      requires Valid()
      modifies list
      ensures Valid()
      ensures list.params == old(list.params) && list.mounted == old(list.mounted)
      ensures !old(list.mounted) ==> list.requests == old(list.requests) && list.State() == old(list.State())
      ensures old(list.mounted) && checksAuth && authenticated ==>
        && list.requests == old(list.requests) + [RequestUrl(old(list.params), rt.encode), RequestUrl(old(list.params), rt.encode)]
        && list.State() == AfterListing(
             AfterListing(old(list.State()), ListEffectOf(ListResult(first, rt))), ListEffectOf(ListResult(second, rt)))
      ensures old(list.mounted) && !(checksAuth && authenticated) ==>
        && list.requests == old(list.requests) + [RequestUrl(old(list.params), rt.encode)]
        && list.State() == AfterListing(old(list.State()), ListEffectOf(ListResult(first, rt)))
    {
      list.Refresh(first, rt);
      if checksAuth && authenticated {
        list.Refresh(second, rt);
      }
    }

    /** `handleSearch(value)`. */
    method HandleSearch(value: string, outcome: FetchOutcome, rt: Runtime)
      requires Valid()
      modifies this, list
      ensures Valid()
      ensures searchValue == value && sortBy == old(sortBy) && sortDesc == old(sortDesc)
      ensures createModalOpen == old(createModalOpen)
      ensures old(list.mounted) ==> list.params == Merge(old(list.params), SearchPatch(value))
      ensures ListedWith(old(list.mounted), old(list.requests), old(list.State()),
        Merge(old(list.params), SearchPatch(value)), outcome, rt, list.mounted, list.requests, list.State())
      ensures !old(list.mounted) ==> list.params == old(list.params)
    {
      searchValue := value;
      list.UpdateParams(SearchPatch(value), outcome, rt);
    }

    /** `handleSortChange(value)`. */
    method HandleSortChange(field: SortField, outcome: FetchOutcome, rt: Runtime)
      requires Valid()
      modifies this, list
      ensures Valid()
      ensures sortBy == field && searchValue == old(searchValue) && sortDesc == old(sortDesc)
      ensures createModalOpen == old(createModalOpen)
      ensures old(list.mounted) ==> list.params == Merge(old(list.params), SortPatch(field))
      ensures ListedWith(old(list.mounted), old(list.requests), old(list.State()),
        Merge(old(list.params), SortPatch(field)), outcome, rt, list.mounted, list.requests, list.State())
      ensures !old(list.mounted) ==> list.params == old(list.params)
    {
      sortBy := field;
      list.UpdateParams(SortPatch(field), outcome, rt);
    }

    /** `handleSortOrderChange()`: flips the page's own `sortDesc`. */
    method HandleSortOrderChange(outcome: FetchOutcome, rt: Runtime)
      requires Valid()
      modifies this, list
      ensures Valid()
      ensures sortDesc == !old(sortDesc) && sortBy == old(sortBy) && searchValue == old(searchValue)
      ensures createModalOpen == old(createModalOpen)
      ensures old(list.mounted) ==> list.params == Merge(old(list.params), OrderPatch(!old(sortDesc)))
      ensures ListedWith(old(list.mounted), old(list.requests), old(list.State()),
        Merge(old(list.params), OrderPatch(!old(sortDesc))), outcome, rt, list.mounted, list.requests, list.State())
      ensures !old(list.mounted) ==> list.params == old(list.params)
    {
      sortDesc := !sortDesc;
      list.UpdateParams(OrderPatch(sortDesc), outcome, rt);
    }

    /** `handlePageChange(page, pageSize)`. */
    method HandlePageChange(page: int, pageSize: Option<int>, outcome: FetchOutcome, rt: Runtime)
      requires Valid()
      modifies list
      ensures Valid()
      ensures old(list.mounted) ==> list.params == Merge(old(list.params), PageChange(page, pageSize, old(list.params)))
      ensures old(list.mounted) ==> CurrentPage(list.params) == page
      ensures ListedWith(old(list.mounted), old(list.requests), old(list.State()),
        Merge(old(list.params), PageChange(page, pageSize, old(list.params))), outcome, rt,
        list.mounted, list.requests, list.State())
      ensures !old(list.mounted) ==> list.params == old(list.params)
    {
      var patch := PageChange(page, pageSize, list.params);
      PageChangeRoundTrip(page, pageSize, list.params);
      list.UpdateParams(patch, outcome, rt);
    }

    method HandleCreateModalOpen()
      modifies this
      ensures createModalOpen
      ensures searchValue == old(searchValue) && sortBy == old(sortBy) && sortDesc == old(sortDesc)
    {
      createModalOpen := true;
    }

    /** `handleCreateWorkspace(data)`: the modal closes exactly when the
        workspace was created. */
    method HandleCreateWorkspace(created: FetchOutcome, relist: FetchOutcome, rt: Runtime) returns (ok: bool)
      requires Valid()
      modifies this, list
      ensures Valid()
      ensures ok <==> old(list.mounted) && CreateEffectOf(CreateResult(created, rt.timestamp)).Made?
      ensures createModalOpen == (old(createModalOpen) && !ok)
      ensures searchValue == old(searchValue) && sortBy == old(sortBy) && sortDesc == old(sortDesc)
      ensures list.params == old(list.params) && list.mounted == old(list.mounted)
      ensures !ok ==> list.workspaces == old(list.workspaces) && list.total == old(list.total)
      ensures !ok ==> list.requests == old(list.requests)
      ensures ok ==> list.requests == old(list.requests) + [RequestUrl(old(list.params), rt.encode)]
      ensures ok ==>
        var content := CreateEffectOf(CreateResult(created, rt.timestamp)).content;
        var toasted := old(list.State()).(notices := old(list.notices) + [SuccessNotice(content)]);
        list.State() == AfterListing(toasted, ListEffectOf(ListResult(relist, rt)))
      ensures old(list.mounted) && CreateEffectOf(CreateResult(created, rt.timestamp)).Refused? ==>
        list.notices == old(list.notices) + [ErrorNotice(CreateFailed)]
      ensures !old(list.mounted) || CreateEffectOf(CreateResult(created, rt.timestamp)).Silent? ==>
        list.notices == old(list.notices)
    {
      ok := list.CreateWorkspace(created, relist, rt);
      if ok {
        createModalOpen := false;
      }
    }
  }
}
