/**
 * What a handler writes with `res.status(code).json(body)`, as a value, and the
 * identity provider's records, which the backend passes through unexamined.
 */
module Http {
  import opened Wrappers
  import opened JsStrings

  /** The provider's user record (opaque here: only its identity matters). */
  datatype User = User(id: string)

  /** The provider's session record (opaque here). */
  datatype Session = Session(accessToken: string)

  /** The JSON bodies the backend sends. */
  datatype Body =
    | ErrorBody(error: string)                                    // { error }
    | MessageBody(message: string)                                // { message }
    | AuthBody(message: string, user: User, session: Session)    // { message, user, session }
    | UserBody(currentUser: Option<User>)                         // { user }
    | ChatBody(message: string, timestamp: string)                // { message, timestamp }
    | HealthBody(status: string, configured: bool, model: string) // { status, configured, model }

  datatype Response = Response(status: int, body: Body)

  function Error(status: int, error: string): Response {
    Response(status, ErrorBody(error))
  }

  // ---------------------------------------------------------------------------
  // The bearer token: `req.headers.authorization?.replace('Bearer ', '')`
  // ---------------------------------------------------------------------------

  const BearerPrefix: string := "Bearer "

  /**
   * The token read from the Authorization header: absent with the header;
   * otherwise the header with the first occurrence of `Bearer ` (wherever it
   * stands) removed, or the header unchanged when it has none.
   */
  function BearerToken(authorization: Option<string>): (t: Option<string>)
    ensures t.Some? <==> authorization.Some?
    ensures authorization.Some? && IndexOf(authorization.value, BearerPrefix).None? ==>
      t.value == authorization.value
    ensures authorization.Some? && IndexOf(authorization.value, BearerPrefix).Some? ==>
      var h := authorization.value;
      var i := IndexOf(h, BearerPrefix).value;
      && |t.value| == |h| - |BearerPrefix|
      && t.value == h[..i] + h[i + |BearerPrefix|..]
      && (forall j :: 0 <= j < i ==> !OccursAt(h, BearerPrefix, j))
  {
    match authorization
    case None => None
    case Some(h) => Some(ReplaceFirst(h, BearerPrefix, ""))
  }

  /** `Bearer <t>` yields exactly `<t>`, whatever `<t>` holds (even another `Bearer `). */
  lemma {:induction false} BearerTokenOfBearerHeader(t: string)
    ensures BearerToken(Some(BearerPrefix + t)) == Some(t)
  {
    ReplaceAtFront(BearerPrefix, t);
  }

  /** The header `Bearer ` alone leaves an empty token. */
  lemma {:induction false} BareBearerIsEmpty()
    ensures BearerToken(Some(BearerPrefix)) == Some("")
  {
    BearerTokenOfBearerHeader("");
    assert BearerPrefix + "" == BearerPrefix;
  }

  /** The prefix is removed even when it is not at the front: `xBearer y` yields `xy`. */
  lemma {:induction false} BearerRemovedAnywhere()
    ensures BearerToken(Some("xBearer y")) == Some("xy")
  {
    var h := "xBearer y";
    assert !OccursAt(h, BearerPrefix, 0) by { assert h[0..7][0] != BearerPrefix[0]; }
    assert OccursAt(h, BearerPrefix, 1) by { assert h[1..8] == BearerPrefix; }
    assert IndexOf(h, BearerPrefix) == Some(1);
    assert h[..1] + h[8..] == "xy";
  }
}
