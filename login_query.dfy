/** The login request: `POST /login` and the normalisation of its failures. */
module LoginQuery {
  import opened Wrappers
  import opened Http

  /**
   * The JSON body of a login response, as fields by name. The declared response type has the
   * fields `accessToken` and `refreshToken`.
   */
  datatype LoginResponse = LoginResponse(fields: map<string, string>)

  datatype Credentials = Credentials(username: string, password: string)

  const LoginFallback := "Login failed"
  const LoginEndpoint := "/login"

  /** `POST /login` with the credentials as its body. */
  datatype LoginRequest = Post(path: string, body: Credentials)

  /** The declared shape `{ accessToken, refreshToken }`. */
  function Declared(accessToken: string, refreshToken: string): LoginResponse {
    LoginResponse(map["accessToken" := accessToken, "refreshToken" := refreshToken])
  }

  /** `useLoginMutation`: the response body on success, otherwise the error normalised with "Login failed". */
  function RunLogin(t: Transport<LoginResponse>): (r: Result<LoginResponse, AppError>)
    ensures t.Delivered? ==> r == Success(t.data)
    ensures t.Failed? ==> r.Failure? && r.error.message != "" && r.error.status != 0
    ensures t.Failed? && t.failure.AxiosFailure? ==> r.error.message == ServerMessage(t.failure).GetOr(LoginFallback)
    ensures t.Failed? && t.failure.OtherFailure? ==> r.error == AppError(UnexpectedMessage, 500)
    ensures t.Failed? ==> r == Failure(Normalise(t.failure, LoginFallback))
  {
    Settle(t, LoginFallback)
  }
}
