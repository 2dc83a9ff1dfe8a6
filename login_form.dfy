/**
 * The login form's submit handler: call the login request; on success store the token, raise a
 * success toast and navigate (replacing history) to the page the user came from or "/"; on
 * failure raise one error toast.
 */
module LoginForm {
  import opened Wrappers
  import opened Env
  import opened Http
  import Auth
  import Api
  import LoginQuery

  /** What the `catch` block receives: an `Error` instance, or a plain object such as `{ message, status }`. */
  datatype Thrown = ErrorInstance(message: string) | PlainObject(error: AppError)

  const SuccessText := "Login successful"
  const HomePath := "/"

  /** `error instanceof Error ? error.message : 'An unexpected error occurred'` */
  function FailureText(t: Thrown): (text: string)
    ensures t.ErrorInstance? ==> text == t.message
    ensures t.PlainObject? ==> text == UnexpectedMessage
  {
    match t
    case ErrorInstance(m) => m
    case PlainObject(_) => UnexpectedMessage
  }

  /** `location.state?.from?.pathname || '/'`, with `None` for a missing state, `from` or pathname. */
  function RedirectTarget(from: Option<string>): (to: string)
    ensures to != ""
    ensures from.Some? && from.value != "" ==> to == from.value
    ensures from.None? || from.value == "" ==> to == HomePath
  {
    if from.Some? && from.value != "" then from.value else HomePath
  }

  /**
   * `response.token`, as `localStorage.setItem` stores it: the body's `token` field, or the text
   * "undefined" when the body has none.
   */
  function StoredTokenText(resp: LoginQuery.LoginResponse): (t: string)
    ensures "token" in resp.fields ==> t == resp.fields["token"]
    ensures "token" !in resp.fields ==> t == "undefined"
  {
    if "token" in resp.fields then resp.fields["token"] else "undefined"
  }

  /** The effects of the handler after the request has settled. */
  function HandlerEffects(r: Result<LoginQuery.LoginResponse, AppError>, from: Option<string>): seq<Effect> {
    match r
    case Success(resp) =>
      [StorageSet(Auth.TokenKey, StoredTokenText(resp)), Toast(SuccessToast, SuccessText), Navigate(RedirectTarget(from), true)]
    case Failure(e) => [Toast(ErrorToast, FailureText(PlainObject(e)))]
  }

  /** `handleLogin` */
  method HandleLogin(b: Browser, creds: LoginQuery.Credentials, from: Option<string>, outcome: Transport<LoginQuery.LoginResponse>)
    returns (request: LoginQuery.LoginRequest)
    modifies b
    ensures request == LoginQuery.Post(LoginQuery.LoginEndpoint, creds)
    ensures outcome.Delivered? ==>
              b.storage == Auth.WithToken(old(b.storage), StoredTokenText(outcome.data)) && b.href == old(b.href)
    ensures outcome.Failed? ==>
              Api.Session(b.storage, b.href) == Api.AfterRejection(Api.Session(old(b.storage), old(b.href)), outcome.failure)
    ensures b.log == old(b.log) + Api.CallEffects(outcome) + HandlerEffects(LoginQuery.RunLogin(outcome), from)
  {
    request := LoginQuery.Post(LoginQuery.LoginEndpoint, creds);
    var r, _ := Api.Call(b, outcome);
    match LoginQuery.RunLogin(r)
    case Success(resp) =>
      Auth.SetToken(b, StoredTokenText(resp));
      b.ShowToast(SuccessToast, SuccessText);
      b.NavigateTo(RedirectTarget(from), true);
    case Failure(e) =>
      b.ShowToast(ErrorToast, FailureText(PlainObject(e)));
  }

  /** On success the token is written, then the success toast is raised, then the router navigates. */
  lemma SuccessOrder(resp: LoginQuery.LoginResponse, from: Option<string>)
    ensures var e := HandlerEffects(Success(resp), from);
            |e| == 3 && e[0].StorageSet? && e[0].key == Auth.TokenKey && e[2] == Navigate(RedirectTarget(from), true)
  {
  }

  /**
   * Every failed login shows the generic text, whatever the server said: the login request throws
   * plain objects, never `Error` instances. No token is written and the router does not navigate.
   */
  lemma FailureToastIsGeneric(f: Failure, from: Option<string>)
    ensures HandlerEffects(LoginQuery.RunLogin(Failed(f)), from) == [Toast(ErrorToast, UnexpectedMessage)]
    ensures forall e :: e in Api.CallEffects<LoginQuery.LoginResponse>(Failed(f)) + HandlerEffects(LoginQuery.RunLogin(Failed(f)), from)
              ==> !e.StorageSet? && !e.Navigate?
  {
  }

  /**
   * A response of the declared shape `{ accessToken, refreshToken }` has no `token` field, so the
   * stored token is the text "undefined": the user counts as signed in, and later requests carry
   * `Authorization: Bearer undefined`.
   */
  lemma DeclaredShapeStoresUndefined(storage: map<string, string>, accessToken: string, refreshToken: string)
    ensures StoredTokenText(LoginQuery.Declared(accessToken, refreshToken)) == "undefined"
    ensures Auth.Authenticated(Auth.WithToken(storage, "undefined"))
    ensures Api.WithAuthorization(Api.DefaultHeaders, Auth.StoredToken(Auth.WithToken(storage, "undefined")))[Api.AuthorizationHeader]
              == "Bearer undefined"
  {
  }
}
