/**
 * The auth endpoints (backend/controllers/auth.controller.js): each checks its
 * required fields, calls the identity provider once, and maps the provider's
 * answer to a status and JSON body.  The provider calls are parameters.
 */
module AuthController {
  import opened Wrappers
  import opened Http

  /** What `signUp` / `signInWithPassword` answers: user and session, or an error message. */
  datatype AuthOutcome = Authenticated(user: User, session: Session) | AuthFailed(message: string)

  /** What `signOut` answers. */
  datatype SignOutOutcome = SignedOut | SignOutFailed(message: string)

  datatype RegisterRequest = RegisterRequest(email: Option<string>, password: Option<string>, name: Option<string>)
  datatype LoginRequest = LoginRequest(email: Option<string>, password: Option<string>)

  /** A string field is truthy when present and non-empty. */
  predicate Truthy(field: Option<string>) {
    field.Some? && field.value != ""
  }

  const AllFieldsRequired: string := "All fields required"
  const CredentialsRequired: string := "Email and password required"
  const InvalidCredentials: string := "Invalid credentials"
  const NoToken: string := "No token provided"

  predicate RegisterComplete(req: RegisterRequest) {
    Truthy(req.email) && Truthy(req.password) && Truthy(req.name)
  }

  /** `register(req, res)`. */
  function Register(req: RegisterRequest, signUp: (string, string, string) -> AuthOutcome): (r: Response)
    ensures !RegisterComplete(req) ==> r == Error(400, AllFieldsRequired)
    ensures RegisterComplete(req) ==>
      var outcome := signUp(req.email.value, req.password.value, req.name.value);
      && (outcome.Authenticated? ==>
            r == Response(201, AuthBody("Registration successful", outcome.user, outcome.session)))
      && (outcome.AuthFailed? ==> r == Error(400, outcome.message))
    ensures r.status == 201 || r.status == 400
  {
    if !RegisterComplete(req) then Error(400, AllFieldsRequired)
    else
      match signUp(req.email.value, req.password.value, req.name.value)
      case Authenticated(user, session) => Response(201, AuthBody("Registration successful", user, session))
      case AuthFailed(message) => Error(400, message)
  }

  /** An incomplete registration is answered without consulting the provider. */
  lemma {:induction false} RegisterValidatesFirst(req: RegisterRequest,
      s1: (string, string, string) -> AuthOutcome, s2: (string, string, string) -> AuthOutcome)
    requires !RegisterComplete(req)
    ensures Register(req, s1) == Register(req, s2)
  {
  }

  /** `login(req, res)`. */
  function Login(req: LoginRequest, signIn: (string, string) -> AuthOutcome): (r: Response)
    ensures !(Truthy(req.email) && Truthy(req.password)) ==> r == Error(400, CredentialsRequired)
    ensures Truthy(req.email) && Truthy(req.password) ==>
      var outcome := signIn(req.email.value, req.password.value);
      && (outcome.Authenticated? ==>
            r == Response(200, AuthBody("Login successful", outcome.user, outcome.session)))
      && (outcome.AuthFailed? ==> r == Error(401, InvalidCredentials))
    ensures r.body.ErrorBody? ==> r.body.error in {CredentialsRequired, InvalidCredentials}
  {
    if !(Truthy(req.email) && Truthy(req.password)) then Error(400, CredentialsRequired)
    else
      match signIn(req.email.value, req.password.value)
      case Authenticated(user, session) => Response(200, AuthBody("Login successful", user, session))
      case AuthFailed(_) => Error(401, InvalidCredentials)
  }

  /**
   * Login never reveals why the provider refused: two providers that both
   * refuse, for whatever reasons, give the same response.
   */
  lemma {:induction false} LoginHidesProviderError(req: LoginRequest,
      s1: (string, string) -> AuthOutcome, s2: (string, string) -> AuthOutcome)
    requires Truthy(req.email) && Truthy(req.password)
    requires s1(req.email.value, req.password.value).AuthFailed?
    requires s2(req.email.value, req.password.value).AuthFailed?
    ensures Login(req, s1) == Login(req, s2) == Error(401, InvalidCredentials)
  {
  }

  /** `logout(req, res)`: the token is read from the Authorization header again. */
  function Logout(authorization: Option<string>, signOut: string -> SignOutOutcome): (r: Response)
    ensures var t := BearerToken(authorization);
      (t.None? || t.value == "") ==> r == Error(401, NoToken)
    ensures var t := BearerToken(authorization);
      t.Some? && t.value != "" ==>
        && (signOut(t.value).SignedOut? ==> r == Response(200, MessageBody("Logout successful")))
        && (signOut(t.value).SignOutFailed? ==> r == Error(400, signOut(t.value).message))
  {
    match BearerToken(authorization)
    case None => Error(401, NoToken)
    case Some(token) =>
      if token == "" then Error(401, NoToken)
      else match signOut(token)
        case SignedOut => Response(200, MessageBody("Logout successful"))
        case SignOutFailed(message) => Error(400, message)
  }

  /** A header of just `Bearer ` is refused before the provider is asked to sign out. */
  lemma {:induction false} LogoutBareBearer(s1: string -> SignOutOutcome, s2: string -> SignOutOutcome)
    ensures Logout(Some(BearerPrefix), s1) == Logout(Some(BearerPrefix), s2) == Error(401, NoToken)
  {
    BareBearerIsEmpty();
  }

  /** `getCurrentUser(req, res)`: 200 with whatever user the middleware attached. */
  function GetCurrentUser(user: Option<User>): (r: Response)
    ensures r.status == 200 && r.body.UserBody? && r.body.currentUser == user
  {
    Response(200, UserBody(user))
  }
}
