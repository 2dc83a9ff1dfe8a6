/**
 * The admin page's client logic: reading the table state out of the URL query parameters,
 * collapsing the table's column filters to a search text and a sort key, the effect that
 * rewrites the URL when the table and the URL disagree, and the delete flows with their toasts.
 */
module Admin {
  import opened Wrappers
  import opened Js
  import opened Http
  import opened Env
  import Api
  import WatcherQuery

  /** URL query parameters, one value per name. */
  type Params = map<string, string>

  const PageKey := "page"
  const PerPageKey := "perPage"
  const SearchKey := "search"
  const SortByKey := "sortBy"
  const DefaultPage := 1
  const DefaultPerPage := 10

  /** The table state as the URL describes it. */
  datatype UrlState = UrlState(page: int, perPage: int, search: string, sortBy: string)

  /** `Number(get('page')) || 1`, `Number(get('perPage')) || 10`, `get('search') || ""`, `get('sortBy') || ""`. */
  function ParseUrl(p: Params): (u: UrlState)
    ensures u.page == (if PageKey in p && Number(p[PageKey]).Some? && Number(p[PageKey]).value != 0
                       then Number(p[PageKey]).value else DefaultPage)
    ensures u.perPage == (if PerPageKey in p && Number(p[PerPageKey]).Some? && Number(p[PerPageKey]).value != 0
                          then Number(p[PerPageKey]).value else DefaultPerPage)
    ensures u.search == (if SearchKey in p then p[SearchKey] else "")
    ensures u.sortBy == (if SortByKey in p then p[SortByKey] else "")
    ensures u.page != 0 && u.perPage != 0
  {
    UrlState(NumberOr(Get(p, PageKey), DefaultPage), NumberOr(Get(p, PerPageKey), DefaultPerPage),
             Get(p, SearchKey).GetOr(""), Get(p, SortByKey).GetOr(""))
  }

  /** The list query the page issues for the URL it is showing. */
  function PageQuery(p: Params): (q: WatcherQuery.QuerySpec)
    ensures q.request == WatcherQuery.Get(WatcherQuery.WatchersPath,
              WatcherQuery.QueryParams(ParseUrl(p).page, ParseUrl(p).perPage, ParseUrl(p).search, ParseUrl(p).sortBy))
  {
    var u := ParseUrl(p);
    WatcherQuery.GetWatchersQuery(WatcherQuery.QueryParams(u.page, u.perPage, u.search, u.sortBy))
  }

  // ---------------------------------------------------------------------------
  // Table state

  datatype ColumnFilter = ColumnFilter(id: string, value: Value)

  /** The data table's pagination and column filters. */
  datatype TableState = TableState(pageIndex: int, pageSize: int, filters: seq<ColumnFilter>)

  /** `columnFilters.find(filter => filter.id === id)`: the first filter with that id. */
  function FindFilter(fs: seq<ColumnFilter>, id: string): (r: Option<ColumnFilter>)
    ensures r.None? <==> forall i :: 0 <= i < |fs| ==> fs[i].id != id
    ensures r.Some? ==> exists i :: 0 <= i < |fs| && fs[i] == r.value && fs[i].id == id &&
                                  forall j :: 0 <= j < i ==> fs[j].id != id
  {
    if fs == [] then None
    else if fs[0].id == id then Some(fs[0])
    else
      var r := FindFilter(fs[1..], id);
      assert r.Some? ==> exists i :: 0 <= i < |fs| && fs[i] == r.value && fs[i].id == id &&
                                    forall j :: 0 <= j < i ==> fs[j].id != id by {
        if r.Some? {
          var i :| 0 <= i < |fs[1..]| && fs[1..][i] == r.value && fs[1..][i].id == id &&
                   forall j :: 0 <= j < i ==> fs[1..][j].id != id;
          assert fs[i + 1] == r.value;
          forall j | 0 <= j < i + 1 ensures fs[j].id != id {
            if j > 0 { assert fs[j] == fs[1..][j - 1]; }
          }
        }
      }
      assert r.None? ==> forall i :: 0 <= i < |fs| ==> fs[i].id != id by {
        if r.None? {
          forall i | 0 <= i < |fs| ensures fs[i].id != id {
            if i > 0 { assert fs[i] == fs[1..][i - 1]; }
          }
        }
      }
      r
  }

  /** `usernameFilter?.value || ""` */
  function SearchValue(fs: seq<ColumnFilter>): (v: Value)
    ensures Truthy(v) || v == Str("")
    ensures FindFilter(fs, "username").None? ==> v == Str("")
    ensures FindFilter(fs, "username").Some? && Truthy(FindFilter(fs, "username").value.value) ==>
              v == FindFilter(fs, "username").value.value
    ensures FindFilter(fs, "username").Some? && !Truthy(FindFilter(fs, "username").value.value) ==> v == Str("")
  {
    match FindFilter(fs, "username")
    case None => Str("")
    case Some(f) => Or(f.value, Str(""))
  }

  /**
   * `Array.isArray(v) ? v[0] : (v || "")` for the interaction filter's value `v`: the first element of
   * a list (`undefined` for an empty list), a non-empty string itself, and `""` otherwise.
   */
  function SortValue(fs: seq<ColumnFilter>): (v: Value)
    ensures v.Str? || v.Undefined?
    ensures v.Undefined? <==> FindFilter(fs, "interaction").Some? && FindFilter(fs, "interaction").value.value == Arr([])
    ensures FindFilter(fs, "interaction").Some? && FindFilter(fs, "interaction").value.value.Arr? &&
              |FindFilter(fs, "interaction").value.value.items| > 0 ==>
              v == Str(FindFilter(fs, "interaction").value.value.items[0])
    ensures FindFilter(fs, "interaction").Some? && FindFilter(fs, "interaction").value.value.Str? ==>
              v == FindFilter(fs, "interaction").value.value
    ensures FindFilter(fs, "interaction").None? ==> v == Str("")
    ensures FindFilter(fs, "interaction").Some? && FindFilter(fs, "interaction").value.value.Undefined? ==> v == Str("")
  {
    match FindFilter(fs, "interaction")
    case None => Str("")
    case Some(f) =>
      match f.value
      case Arr(items) => if |items| > 0 then Str(items[0]) else Undefined
      case Str(s) => Or(f.value, Str(""))
      case Undefined => Str("")
  }

  /** The data table's initial state: the URL's page (as a 0-based index), page size, and search text. */
  function InitialState(p: Params): (st: TableState)
    ensures st.pageIndex + 1 == ParseUrl(p).page && st.pageSize == ParseUrl(p).perPage
    ensures SearchValue(st.filters) == Str(ParseUrl(p).search)
    ensures SortValue(st.filters) == Str("")
  {
    var u := ParseUrl(p);
    TableState(u.page - 1, u.perPage, [ColumnFilter("username", Str(u.search))])
  }

  // ---------------------------------------------------------------------------
  // The URL-sync effect

  /** The URL and the table agree: the `!==` comparisons are all false. */
  predicate InSync(p: Params, st: TableState) {
    var u := ParseUrl(p);
    u.page == st.pageIndex + 1 && u.perPage == st.pageSize &&
    Str(u.search) == SearchValue(st.filters) && Str(u.sortBy) == SortValue(st.filters)
  }

  /**
   * The parameters the effect navigates to: page and perPage from the table, search and sortBy set
   * when truthy and deleted otherwise, every other parameter kept.
   */
  function Rewritten(p: Params, st: TableState): (r: Params)
    ensures PageKey in r && r[PageKey] == IntToString(st.pageIndex + 1)
    ensures PerPageKey in r && r[PerPageKey] == IntToString(st.pageSize)
    ensures SearchKey in r <==> Truthy(SearchValue(st.filters))
    ensures SearchKey in r ==> r[SearchKey] == ToString(SearchValue(st.filters))
    ensures SortByKey in r <==> Truthy(SortValue(st.filters))
    ensures SortByKey in r ==> r[SortByKey] == ToString(SortValue(st.filters))
    ensures forall k :: k != PageKey && k != PerPageKey && k != SearchKey && k != SortByKey ==>
              (k in r <==> k in p)
    ensures forall k :: k in p && k != PageKey && k != PerPageKey && k != SearchKey && k != SortByKey ==>
              r[k] == p[k]
  {
    var searchValue := SearchValue(st.filters);
    var sortValue := SortValue(st.filters);
    var paged := p[PageKey := IntToString(st.pageIndex + 1)][PerPageKey := IntToString(st.pageSize)];
    var searched := if Truthy(searchValue) then paged[SearchKey := ToString(searchValue)] else paged - {SearchKey};
    if Truthy(sortValue) then searched[SortByKey := ToString(sortValue)] else searched - {SortByKey}
  }

  /** What the effect does: no navigation when the URL and table agree, otherwise a replace to `Rewritten`. */
  function SyncTarget(p: Params, st: TableState): (nav: Option<Params>)
    ensures nav.None? <==> InSync(p, st)
    ensures nav.Some? ==> nav.value == Rewritten(p, st)
  {
    if InSync(p, st) then None else Some(Rewritten(p, st))
  }

  /** `URLSearchParams`, updated in place by `set` and `delete`. */
  class SearchParams {
    var entries: Params

    constructor (init: Params)
      ensures entries == init
    {
      entries := init;
    }

    method Set(k: string, v: string)
      modifies this
      ensures entries == old(entries)[k := v]
    {
      entries := entries[k := v];
    }

    method Delete(k: string)
      modifies this
      ensures entries == old(entries) - {k}
    {
      entries := entries - {k};
    }
  }

  /**
   * The URL-sync effect: when the URL and the table disagree, navigates to the rewritten parameters
   * with history replacement; otherwise issues nothing.
   */
  method SyncUrl(b: Browser, current: Params, st: TableState)
    modifies b
    ensures b.storage == old(b.storage) && b.href == old(b.href)
    ensures SyncTarget(current, st).None? ==> b.log == old(b.log)
    ensures SyncTarget(current, st).Some? ==> b.log == old(b.log) + [NavigateSearch(SyncTarget(current, st).value, true)]
  {
    var searchValue := SearchValue(st.filters);
    var sortValue := SortValue(st.filters);
    var currentPage := NumberOr(Get(current, PageKey), DefaultPage);
    var currentPerPage := NumberOr(Get(current, PerPageKey), DefaultPerPage);
    var currentSearch := Get(current, SearchKey).GetOr("");
    var currentSort := Get(current, SortByKey).GetOr("");
    assert ParseUrl(current) == UrlState(currentPage, currentPerPage, currentSearch, currentSort);
    if currentPage != st.pageIndex + 1 || currentPerPage != st.pageSize ||
       Str(currentSearch) != searchValue || Str(currentSort) != sortValue
    {
      var newParams := new SearchParams(current);
      newParams.Set(PageKey, IntToString(st.pageIndex + 1));
      newParams.Set(PerPageKey, IntToString(st.pageSize));
      ghost var paged := newParams.entries;
      assert paged == current[PageKey := IntToString(st.pageIndex + 1)][PerPageKey := IntToString(st.pageSize)];
      if Truthy(searchValue) {
        newParams.Set(SearchKey, ToString(searchValue));
      } else {
        newParams.Delete(SearchKey);
      }
      ghost var searched := newParams.entries;
      assert searched == if Truthy(searchValue) then paged[SearchKey := ToString(searchValue)] else paged - {SearchKey};
      if Truthy(sortValue) {
        newParams.Set(SortByKey, ToString(sortValue));
      } else {
        newParams.Delete(SortByKey);
      }
      assert newParams.entries == Rewritten(current, st);
      assert b.log == old(b.log) && b.storage == old(b.storage) && b.href == old(b.href);
      b.NavigateToSearch(newParams.entries, true);
    }
  }

  /** Re-reading a rewritten URL: the page number survives unless it is 0, which reads back as the default. */
  lemma ReadBackNumber(n: int, d: int)
    ensures NumberOr(Some(IntToString(n)), d) == if n != 0 then n else d
  {
    NumberOfString(n);
  }

  /**
   * After the effect has navigated, running it again on the new URL issues no navigation exactly
   * when the table's page number and page size are non-zero and its search and sort values are
   * strings (not a list, not `undefined`).
   */
  lemma {:induction false} SecondPassSettles(p: Params, st: TableState)
    ensures SyncTarget(Rewritten(p, st), st).None? <==>
              st.pageIndex + 1 != 0 && st.pageSize != 0 && SearchValue(st.filters).Str? && SortValue(st.filters).Str?
  {
    var r := Rewritten(p, st);
    ReadBackNumber(st.pageIndex + 1, DefaultPage);
    ReadBackNumber(st.pageSize, DefaultPerPage);
    assert ParseUrl(r).page == NumberOr(Some(IntToString(st.pageIndex + 1)), DefaultPage);
    assert ParseUrl(r).perPage == NumberOr(Some(IntToString(st.pageSize)), DefaultPerPage);
  }

  /** In particular, a table page the effect has written is what the page's list query then asks for. */
  lemma SettledQuery(p: Params, st: TableState)
    requires st.pageIndex >= 0 && st.pageSize >= 1
    requires SearchValue(st.filters).Str? && SortValue(st.filters).Str?
    ensures SyncTarget(Rewritten(p, st), st).None?
    ensures PageQuery(Rewritten(p, st)).request.params ==
              WatcherQuery.QueryParams(st.pageIndex + 1, st.pageSize, SearchValue(st.filters).s, SortValue(st.filters).s)
  {
    SecondPassSettles(p, st);
  }

  /** On first render the effect leaves the URL alone exactly when it carries no sort key. */
  lemma InitialSyncIff(p: Params)
    ensures SyncTarget(p, InitialState(p)).None? <==> ParseUrl(p).sortBy == ""
  {
  }

  /** An empty list as the interaction filter's value makes every run of the effect navigate. */
  lemma EmptyInteractionListAlwaysNavigates(p: Params, st: TableState)
    requires FindFilter(st.filters, "interaction").Some? && FindFilter(st.filters, "interaction").value.value == Arr([])
    ensures SyncTarget(p, st).Some?
    ensures SortByKey !in SyncTarget(p, st).value
  {
  }

  // ---------------------------------------------------------------------------
  // Delete flows

  const DeleteToastFallback := "Failed to delete watcher"
  const DeleteAllToastFallback := "Failed to delete all watchers"
  const DeletedText := "Watcher deleted successfully"
  const DeletedAllText := "All watchers deleted successfully"

  /** A mutation's `onError`: nothing for a 401, otherwise `error.message || fallback`. */
  function ErrorToastText(e: AppError, fallback: string): (t: Option<string>)
    ensures t.None? <==> e.status == 401
    ensures t.Some? && e.message != "" ==> t.value == e.message
    ensures t.Some? && e.message == "" ==> t.value == fallback
  {
    if e.status == 401 then None else Some(if e.message != "" then e.message else fallback)
  }

  /**
   * The toast a failed delete raises: none exactly for a 401; otherwise the normalised message, so
   * the page's own fallback text is never the one chosen.
   */
  lemma DeleteToastFromFailure(f: Failure)
    ensures ErrorToastText(Normalise(f, WatcherQuery.DeleteFallback), DeleteToastFallback).None? <==> IsUnauthorized(f)
    ensures !IsUnauthorized(f) ==>
              ErrorToastText(Normalise(f, WatcherQuery.DeleteFallback), DeleteToastFallback) ==
              Some(Normalise(f, WatcherQuery.DeleteFallback).message)
    ensures ErrorToastText(Normalise(f, WatcherQuery.DeleteAllFallback), DeleteAllToastFallback).None? <==> IsUnauthorized(f)
    ensures !IsUnauthorized(f) ==>
              ErrorToastText(Normalise(f, WatcherQuery.DeleteAllFallback), DeleteAllToastFallback) ==
              Some(Normalise(f, WatcherQuery.DeleteAllFallback).message)
  {
  }

  /** The effects the page adds once a mutation settles: refetch and a success toast, or the error toast if any. */
  function MutationFeedback(r: Result<(), AppError>, successText: string, fallback: string): seq<Effect> {
    match r
    case Success(_) => [Refetch, Toast(SuccessToast, successText)]
    case Failure(e) =>
      match ErrorToastText(e, fallback)
      case None => []
      case Some(t) => [Toast(ErrorToast, t)]
  }

  /** `handleDelete(id)`: the delete request through the client, then the mutation's callbacks. */
  method DeleteWatcher(b: Browser, id: string, outcome: Transport<()>) returns (request: WatcherQuery.Request)
    modifies b
    ensures request == WatcherQuery.DeleteRequest(id)
    ensures Api.Session(b.storage, b.href) == Api.AfterCall(Api.Session(old(b.storage), old(b.href)), outcome)
    ensures b.log == old(b.log) + Api.CallEffects(outcome) +
                     MutationFeedback(WatcherQuery.RunDelete(outcome), DeletedText, DeleteToastFallback)
  {
    request := WatcherQuery.DeleteRequest(id);
    var r, _ := Api.Call(b, outcome);
    match WatcherQuery.RunDelete(r)
    case Success(_) =>
      b.RequestRefetch();
      b.ShowToast(SuccessToast, DeletedText);
    case Failure(e) =>
      var text := ErrorToastText(e, DeleteToastFallback);
      if text.Some? {
        b.ShowToast(ErrorToast, text.value);
      }
  }

  /**
   * `handleDeleteAll()`: nothing unless the user confirms, then like `DeleteWatcher` with
   * `DELETE /dashboard/watchers`. Returns the request it sends, if any.
   */
  method DeleteAllWatchers(b: Browser, confirmed: bool, outcome: Transport<()>) returns (request: Option<WatcherQuery.Request>)
    modifies b
    ensures request == if confirmed then Some(WatcherQuery.Delete(WatcherQuery.WatchersPath)) else None
    ensures !confirmed ==> b.storage == old(b.storage) && b.href == old(b.href) && b.log == old(b.log)
    ensures confirmed ==> Api.Session(b.storage, b.href) == Api.AfterCall(Api.Session(old(b.storage), old(b.href)), outcome)
    ensures confirmed ==> b.log == old(b.log) + Api.CallEffects(outcome) +
                                   MutationFeedback(WatcherQuery.RunDeleteAll(outcome), DeletedAllText, DeleteAllToastFallback)
  {
    request := None;
    if confirmed {
      request := Some(WatcherQuery.Delete(WatcherQuery.WatchersPath));
      var r, _ := Api.Call(b, outcome);
      match WatcherQuery.RunDeleteAll(r)
      case Success(_) =>
        b.RequestRefetch();
        b.ShowToast(SuccessToast, DeletedAllText);
      case Failure(e) =>
        var text := ErrorToastText(e, DeleteAllToastFallback);
        if text.Some? {
          b.ShowToast(ErrorToast, text.value);
        }
    }
  }

  /** A 401 on a delete signs the user out, sends the browser to the login page, and raises no toast. */
  lemma DeleteUnauthorized(s: Api.Session, f: Failure)
    requires IsUnauthorized(f)
    ensures Api.AfterCall<()>(s, Failed(f)) == Api.Session(map k | k in s.storage && k != "auth_token" :: s.storage[k], "/login")
    ensures Api.CallEffects<()>(Failed(f)) + MutationFeedback(WatcherQuery.RunDelete(Failed(f)), DeletedText, DeleteToastFallback)
              == [StorageRemove("auth_token"), AssignHref("/login")]
  {
  }
}
