/**
 * The shared HTTP client's two interceptors: the request step attaches the stored bearer token,
 * the response step turns a 401 into "sign out and go to the login page" and passes every
 * outcome on unchanged. `Call` is one request through both steps, with the transport's outcome
 * given as a parameter.
 */
module Api {
  import opened Wrappers
  import opened Env
  import opened Http
  import Auth

  const DefaultHeaders: map<string, string> := map["Content-Type" := "application/json"]
  const AuthorizationHeader := "Authorization"
  const LoginPage := "/login"

  /** The request configuration the request interceptor receives and updates in place. */
  class RequestConfig {
    var headers: map<string, string>

    constructor ()
      ensures headers == DefaultHeaders
    {
      headers := DefaultHeaders;
    }
  }

  /** The headers after the request interceptor, given what `auth.getToken()` returned. */
  function WithAuthorization(headers: map<string, string>, token: Option<string>): (r: map<string, string>)
    ensures token.Some? && token.value != "" ==>
      AuthorizationHeader in r && r[AuthorizationHeader] == "Bearer " + token.value
    ensures forall k :: k != AuthorizationHeader ==> (k in r <==> k in headers)
    ensures forall k :: k in headers && k != AuthorizationHeader ==> r[k] == headers[k]
    ensures !(token.Some? && token.value != "") ==> r == headers
  {
    if token.Some? && token.value != "" then headers[AuthorizationHeader := "Bearer " + token.value] else headers
  }

  /** The request interceptor: reads the token now and sets `Authorization` when it is non-empty. */
  method OnRequest(b: Browser, config: RequestConfig) returns (sent: RequestConfig)
    modifies config
    ensures sent == config
    ensures config.headers == WithAuthorization(old(config.headers), Auth.StoredToken(b.storage))
  {
    var token := Auth.GetToken(b);
    if token.Some? && token.value != "" {
      config.headers := config.headers[AuthorizationHeader := "Bearer " + token.value];
    }
    sent := config;
  }

  /** The parts of the browser the response interceptor changes. */
  datatype Session = Session(storage: map<string, string>, href: string)

  /** The session after the response interceptor has seen `f`. */
  function AfterRejection(s: Session, f: Failure): (r: Session)
    ensures IsUnauthorized(f) ==> r == Session(Auth.WithoutToken(s.storage), LoginPage)
    ensures !IsUnauthorized(f) ==> r == s
    ensures IsUnauthorized(f) ==> !Auth.Authenticated(r.storage)
  {
    if IsUnauthorized(f) then Session(Auth.WithoutToken(s.storage), LoginPage) else s
  }

  /** The effects the response interceptor issues on a rejection. */
  function RejectionEffects(f: Failure): (e: seq<Effect>)
    ensures IsUnauthorized(f) <==> e != []
  {
    if IsUnauthorized(f) then [StorageRemove(Auth.TokenKey), AssignHref(LoginPage)] else []
  }

  /** Seeing the same 401 a second time leaves the session as the first time did. */
  lemma RejectionIdempotent(s: Session, f: Failure)
    ensures AfterRejection(AfterRejection(s, f), f) == AfterRejection(s, f)
  {
  }

  /** The session after a whole call has settled with `outcome`. */
  function AfterCall<T>(s: Session, outcome: Transport<T>): (r: Session)
    ensures outcome.Delivered? ==> r == s
  {
    match outcome
    case Delivered(_) => s
    case Failed(f) => AfterRejection(s, f)
  }

  /** The effects a whole call issues. */
  function CallEffects<T>(outcome: Transport<T>): seq<Effect> {
    match outcome
    case Delivered(_) => []
    case Failed(f) => RejectionEffects(f)
  }

  /** The response interceptor's error branch: a 401 signs out and redirects; the error is rejected unchanged. */
  method OnResponseError(b: Browser, f: Failure) returns (rejected: Failure)
    modifies b
    ensures rejected == f
    ensures Session(b.storage, b.href) == AfterRejection(Session(old(b.storage), old(b.href)), f)
    ensures b.log == old(b.log) + RejectionEffects(f)
  {
    if IsUnauthorized(f) {
      Auth.RemoveToken(b);
      b.href := LoginPage;
      b.log := b.log + [AssignHref(LoginPage)];
    }
    rejected := f;
  }

  /**
   * One request through the client: default headers, the request interceptor, the transport's
   * outcome, the response interceptor. Returns the outcome and the headers that were sent.
   */
  method Call<T>(b: Browser, outcome: Transport<T>) returns (r: Transport<T>, headers: map<string, string>)
    modifies b
    ensures headers == WithAuthorization(DefaultHeaders, Auth.StoredToken(old(b.storage)))
    ensures r == outcome
    ensures Session(b.storage, b.href) == AfterCall(Session(old(b.storage), old(b.href)), outcome)
    ensures b.log == old(b.log) + CallEffects(outcome)
  {
    var config := new RequestConfig();
    var sent := OnRequest(b, config);
    headers := sent.headers;
    match outcome
    case Delivered(d) =>
      r := Delivered(d);
    case Failed(f) =>
      var rejected := OnResponseError(b, f);
      r := Failed(rejected);
  }

  /** The token is read at each request: a token stored between two calls is the one the second call sends. */
  method TokenReadPerRequest(b: Browser, first: string, second: string) returns (h1: map<string, string>, h2: map<string, string>)
    requires first != "" && second != ""
    modifies b
    ensures AuthorizationHeader in h1 && h1[AuthorizationHeader] == "Bearer " + first
    ensures AuthorizationHeader in h2 && h2[AuthorizationHeader] == "Bearer " + second
    ensures b.storage == Auth.WithToken(old(b.storage), second)
  {
    Auth.SetToken(b, first);
    var _, sent1 := Call<()>(b, Delivered(()));
    Auth.SetToken(b, second);
    var _, sent2 := Call<()>(b, Delivered(()));
    h1, h2 := sent1, sent2;
  }
}
