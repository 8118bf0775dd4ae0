/**
 * The bearer-token gate (backend/middleware/auth.middleware.js) and the auth
 * router that places it in front of `/logout` and `/me`
 * (backend/routes/auth.route.js).
 */
module AuthMiddleware {
  import opened Wrappers
  import opened Http
  import opened AuthController

  /** What `verifyUser(token)` answers: the provider's user, or an error. */
  datatype Verification = Verified(user: User) | VerifyFailed(message: string)

  /** Either `next()` runs with the verified user attached, or a response is written. */
  datatype GateOutcome = Next(user: User) | Halt(response: Response)

  const InvalidToken: string := "Invalid or expired token"

  /** The decision `authenticate` takes for a given header. */
  function Gate(authorization: Option<string>, verify: string -> Verification): (g: GateOutcome)
    ensures var t := BearerToken(authorization);
      g.Next? <==> t.Some? && t.value != "" && verify(t.value).Verified?
    ensures var t := BearerToken(authorization);
      g.Next? ==> g.user == verify(t.value).user
    ensures var t := BearerToken(authorization);
      (t.None? || t.value == "") ==> g == Halt(Error(401, NoToken))
    ensures var t := BearerToken(authorization);
      (t.Some? && t.value != "" && verify(t.value).VerifyFailed?) ==> g == Halt(Error(401, InvalidToken))
  {
    match BearerToken(authorization)
    case None => Halt(Error(401, NoToken))
    case Some(token) =>
      if token == "" then Halt(Error(401, NoToken))
      else match verify(token)
        case Verified(user) => Next(user)
        case VerifyFailed(_) => Halt(Error(401, InvalidToken))
  }

  /** Every refusal of the gate is a 401 with one of its two fixed messages. */
  lemma {:induction false} GateRefusesWith401(authorization: Option<string>, verify: string -> Verification)
    requires Gate(authorization, verify).Halt?
    ensures Gate(authorization, verify).response.status == 401
    ensures Gate(authorization, verify).response.body in {ErrorBody(NoToken), ErrorBody(InvalidToken)}
  {
  }

  /** The request as the middleware sees it: the header, and `req.user`, which it may set. */
  class Request {
    const authorization: Option<string>
    var user: Option<User>

    constructor (authorization: Option<string>)
      ensures this.authorization == authorization && user == None
    {
      this.authorization := authorization;
      user := None;
    }
  }

  /**
   * `authenticate(req, res, next)`: on success `req.user` is set and `next()`
   * runs once, with no response written; otherwise the 401 response is
   * written, `next()` is not called and `req.user` is left alone.
   */
  method Authenticate(req: Request, verify: string -> Verification)
    returns (written: Option<Response>, nextCalled: bool)
    modifies req
    ensures nextCalled <==> written.None?
    ensures Gate(req.authorization, verify).Next? ==>
      nextCalled && req.user == Some(Gate(req.authorization, verify).user)
    ensures Gate(req.authorization, verify).Halt? ==>
      written == Some(Gate(req.authorization, verify).response) && req.user == old(req.user)
  {
    var token := BearerToken(req.authorization);
    if token.None? || token.value == "" {
      return Some(Error(401, NoToken)), false;
    }
    var verification := verify(token.value);
    if verification.VerifyFailed? {
      return Some(Error(401, InvalidToken)), false;
    }
    req.user := Some(verification.user);
    return None, true;
  }
}

/** backend/routes/auth.route.js: which endpoints the gate guards. */
module AuthRoutes {
  import opened Wrappers
  import opened Http
  import opened AuthController
  import opened AuthMiddleware

  datatype Endpoint = PostRegister | PostLogin | PostLogout | GetMe

  /** The identity provider's four operations. */
  datatype Provider = Provider(
    signUp: (string, string, string) -> AuthOutcome,
    signIn: (string, string) -> AuthOutcome,
    signOut: string -> SignOutOutcome,
    verify: string -> Verification)

  datatype AuthRequest = AuthRequest(
    authorization: Option<string>,
    email: Option<string>, password: Option<string>, name: Option<string>)

  /** Only `/logout` and `/me` are mounted behind `authenticate`. */
  predicate Guarded(e: Endpoint) {
    e == PostLogout || e == GetMe
  }

  /** The response the router produces for one request. */
  function Route(e: Endpoint, req: AuthRequest, p: Provider): Response {
    match e
    case PostRegister => Register(RegisterRequest(req.email, req.password, req.name), p.signUp)
    case PostLogin => Login(LoginRequest(req.email, req.password), p.signIn)
    case PostLogout =>
      (match Gate(req.authorization, p.verify)
       case Halt(r) => r
       case Next(_) => Logout(req.authorization, p.signOut))
    case GetMe =>
      (match Gate(req.authorization, p.verify)
       case Halt(r) => r
       case Next(user) => GetCurrentUser(Some(user)))
  }

  /** Public endpoints never consult token verification. */
  lemma {:induction false} PublicRoutesIgnoreVerify(e: Endpoint, req: AuthRequest, p: Provider,
                                                    verify: string -> Verification)
    requires !Guarded(e)
    ensures Route(e, req, p) == Route(e, req, p.(verify := verify))
  {
  }

  /** When the gate refuses, a guarded endpoint answers with the gate's 401 and its controller never runs. */
  lemma {:induction false} GuardedRoutesStopAtGate(e: Endpoint, req: AuthRequest, p: Provider)
    requires Guarded(e) && Gate(req.authorization, p.verify).Halt?
    ensures Route(e, req, p) == Gate(req.authorization, p.verify).response
    ensures Route(e, req, p).status == 401
  {
  }

  /** `/me` answers 200 exactly for a verified token, and then with the verified user. */
  lemma {:induction false} MeReturnsVerifiedUser(req: AuthRequest, p: Provider)
    ensures var r := Route(GetMe, req, p);
      var t := BearerToken(req.authorization);
      && (r.status == 200 <==> t.Some? && t.value != "" && p.verify(t.value).Verified?)
      && (r.status == 200 ==> r.body == UserBody(Some(p.verify(t.value).user)))
      && (r.status != 200 ==> r.status == 401)
  {
    var g := Gate(req.authorization, p.verify);
    if g.Halt? {
      GateRefusesWith401(req.authorization, p.verify);
    }
  }

  /**
   * Behind the gate, logout's own empty-token check can no longer fire: a 401
   * from `/logout` always comes from the gate, and a token that passed the
   * gate reaches `signOut`.
   */
  lemma {:induction false} LogoutBehindGate(req: AuthRequest, p: Provider)
    ensures var r := Route(PostLogout, req, p);
      var t := BearerToken(req.authorization);
      && (r.status == 401 <==> Gate(req.authorization, p.verify).Halt?)
      && (Gate(req.authorization, p.verify).Next? ==>
            r.status in {200, 400} && (r.status == 200 <==> p.signOut(t.value).SignedOut?))
  {
    var g := Gate(req.authorization, p.verify);
    if g.Halt? {
      GateRefusesWith401(req.authorization, p.verify);
    }
  }
}
