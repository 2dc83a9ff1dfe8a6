/**
 * The watcher list query and the two delete mutations: the query key, the request parameters,
 * and how each call site turns a failure into `{ message, status }` with its own fallback text.
 */
module WatcherQuery {
  import opened Wrappers
  import opened Http

  datatype Interaction = Comment | Tip | Subscription | MembershipGift | Superchat

  datatype Watcher = Watcher(id: string, username: string, platform: string, interaction: Interaction)

  /** The body of `GET /dashboard/watchers`. */
  datatype PageResult = PageResult(page: int, pageSize: int, totalItems: int, totalPages: int, data: seq<Watcher>)

  /** The arguments of `getWatchersQuery`. */
  datatype QueryParams = QueryParams(page: int, pageSize: int, prefix: string, sortBy: string)

  /** One element of a query-key array: a string or a number. */
  datatype KeyPart = KStr(s: string) | KNum(n: int)

  datatype Request = Get(path: string, params: QueryParams) | Delete(path: string)

  /** What `getWatchersQuery` hands to the query cache: the key and the request its function issues. */
  datatype QuerySpec = QuerySpec(key: seq<KeyPart>, request: Request)

  const WatchersPath := "/dashboard/watchers"
  const QueryFallback := "Watcher failed"
  const DeleteFallback := "Delete failed"
  const DeleteAllFallback := "No watchers found to delete."

  /** `['watchers', page, pageSize, prefix, sortBy]` */
  function QueryKey(p: QueryParams): (k: seq<KeyPart>)
    ensures KeyParams(k) == Some(p)
  {
    [KStr("watchers"), KNum(p.page), KNum(p.pageSize), KStr(p.prefix), KStr(p.sortBy)]
  }

  /** Reads the parameters back out of a watchers query key. */
  function KeyParams(k: seq<KeyPart>): Option<QueryParams> {
    if |k| == 5 && k[0] == KStr("watchers") && k[1].KNum? && k[2].KNum? && k[3].KStr? && k[4].KStr?
    then Some(QueryParams(k[1].n, k[2].n, k[3].s, k[4].s))
    else None
  }

  /** `getWatchersQuery`: the key names exactly these parameters and the request passes them on unchanged. */
  function GetWatchersQuery(p: QueryParams): (q: QuerySpec)
    ensures KeyParams(q.key) == Some(p)
    ensures q.request == Get(WatchersPath, p)
  {
    QuerySpec(QueryKey(p), Get(WatchersPath, p))
  }

  /** Different parameters are cached under different keys. */
  lemma KeyInjective(p: QueryParams, q: QueryParams)
    ensures GetWatchersQuery(p).key == GetWatchersQuery(q).key <==> p == q
  {
  }

  /** The query function: the page on success, otherwise the error normalised with "Watcher failed". */
  function RunWatchersQuery(t: Transport<PageResult>): (r: Result<PageResult, AppError>)
    ensures t.Delivered? ==> r == Success(t.data)
    ensures t.Failed? ==> r.Failure? && r.error.message != "" && r.error.status != 0
    ensures t.Failed? ==> r.error.message == ServerMessage(t.failure).GetOr(if t.failure.AxiosFailure? then QueryFallback else UnexpectedMessage)
    ensures t.Failed? ==> r == Failure(Normalise(t.failure, QueryFallback))
  {
    Settle(t, QueryFallback)
  }

  /** `DELETE /dashboard/watchers/{id}` */
  function DeleteRequest(id: string): (r: Request)
    ensures r.Delete? && |r.path| == |WatchersPath| + 1 + |id|
    ensures r.path[..|WatchersPath|] == WatchersPath && r.path[|WatchersPath|] == '/' && r.path[|WatchersPath| + 1..] == id
  {
    Delete(WatchersPath + "/" + id)
  }

  /** The delete mutation: nothing on success, otherwise the error normalised with "Delete failed". */
  function RunDelete(t: Transport<()>): (r: Result<(), AppError>)
    ensures t.Delivered? <==> r.Success?
    ensures t.Failed? ==> r.error.message != "" && r.error.status != 0
    ensures t.Failed? ==> r.error.message == ServerMessage(t.failure).GetOr(if t.failure.AxiosFailure? then DeleteFallback else UnexpectedMessage)
    ensures t.Failed? ==> r == Failure(Normalise(t.failure, DeleteFallback))
  {
    Settle(t, DeleteFallback)
  }

  /** The delete-all mutation: like `RunDelete`, with the fallback "No watchers found to delete.". */
  function RunDeleteAll(t: Transport<()>): (r: Result<(), AppError>)
    ensures t.Delivered? <==> r.Success?
    ensures t.Failed? ==> r.error.message != "" && r.error.status != 0
    ensures t.Failed? ==> r.error.message == ServerMessage(t.failure).GetOr(if t.failure.AxiosFailure? then DeleteAllFallback else UnexpectedMessage)
    ensures t.Failed? ==> r == Failure(Normalise(t.failure, DeleteAllFallback))
  {
    Settle(t, DeleteAllFallback)
  }

  /** Every call site reports a 401 as status 401 and nothing else as 401. */
  lemma UnauthorizedPreserved(t: Transport<()>)
    ensures RunDelete(t).Failure? && RunDelete(t).error.status == 401 <==> t.Failed? && IsUnauthorized(t.failure)
    ensures RunDeleteAll(t).Failure? && RunDeleteAll(t).error.status == 401 <==> t.Failed? && IsUnauthorized(t.failure)
  {
  }
}
