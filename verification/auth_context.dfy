/**
 * The session guard: the admin token held in memory, its persisted copy, and
 * the `loading` flag that is true until the startup verification settles.
 * Network calls are outcomes passed in; the persisted store is one optional
 * value under the token key.
 */
module AuthContext {
  import opened Common

  /** `stored` is the value kept in persistent storage under the token key. */
  datatype Session = Session(token: Option<string>, stored: Option<string>, loading: bool)

  /** `isAuthenticated`: the token is truthy. `loading` plays no part. */
  predicate IsAuthenticated(s: Session) {
    Truthy(s.token)
  }

  /** The in-memory token and the persisted one agree. */
  predicate Synced(s: Session) {
    s.token == s.stored
  }

  /**
   * The provider's first render and its mount effect: the token is read from
   * storage, and only a truthy token is sent to the verification endpoint.
   */
  datatype Startup = Startup(session: Session, verifyWith: Option<string>)

  function Mount(stored: Option<string>): (r: Startup)
    ensures r.session.token == stored && r.session.stored == stored
    ensures r.verifyWith.Some? <==> Truthy(stored)
    ensures r.verifyWith.Some? ==> r.verifyWith == stored
    ensures r.session.loading <==> r.verifyWith.Some?
  {
    var s := Session(stored, stored, true);
    if Truthy(stored) then Startup(s, stored)
    else Startup(s.(loading := false), None)
  }

  /** Token verification: a reply carrying the `authenticated` flag, or a failed call. */
  datatype VerifyOutcome = Verified(authenticated: bool) | VerifyFailed

  /** Logging out forgets the token in memory and in storage. */
  function Logout(s: Session): (r: Session)
    ensures r.token.None? && r.stored.None?
    ensures !IsAuthenticated(r) && Synced(r)
    ensures r.loading == s.loading
  {
    s.(token := None, stored := None)
  }

  /** The verification settles: the token survives only a positive reply. */
  function Verify(s: Session, o: VerifyOutcome): (r: Session)
    ensures !r.loading
    ensures o == Verified(true) ==> r.token == s.token && r.stored == s.stored
    ensures o != Verified(true) ==> r.token.None? && r.stored.None?
    ensures !IsAuthenticated(s) ==> !IsAuthenticated(r)
  {
    var kept := if o == Verified(true) then s else Logout(s);
    kept.(loading := false)
  }

  /** The part of a failed HTTP call the login handler looks at. */
  datatype ErrorResponse = ErrorResponse(status: int, message: Option<string>)
  datatype HttpError = HttpError(response: Option<ErrorResponse>, message: Option<string>)

  const ServerErrorMessage := "Backend server error. Please ensure admin routes are deployed on the server."
  const RouteNotFoundMessage := "Admin login route not found. Please add admin routes to your backend."
  const LoginFailedMessage := "Login failed"

  function Status(e: HttpError): Option<int> {
    match e.response
    case None => None
    case Some(resp) => Some(resp.status)
  }

  function ServerMessage(e: HttpError): string {
    match e.response
    case Some(ErrorResponse(_, Some(m))) => m
    case _ => ""
  }

  /** The message a failed login reports. */
  function ClassifyLoginError(e: HttpError): (m: string)
    ensures m != ""
    ensures Status(e) == Some(500) ==> m == ServerErrorMessage
    ensures Status(e) == Some(404) ==> m == RouteNotFoundMessage
    ensures Status(e) != Some(500) && Status(e) != Some(404) ==>
      (if ServerMessage(e) != "" then m == ServerMessage(e)
       else if Truthy(e.message) then m == e.message.value
       else m == LoginFailedMessage)
  {
    if Status(e) == Some(500) then ServerErrorMessage
    else if Status(e) == Some(404) then RouteNotFoundMessage
    else Or(ServerMessage(e), Or(e.message.GetOr(""), LoginFailedMessage))
  }

  /**
   * How a login attempt ends: the reply with its token; the reply, after which
   * persisting the token threw with the given message; or a failed call.
   */
  datatype LoginOutcome =
    | LoginReply(token: string)
    | LoginReplyNotStored(token: string, storageMessage: Option<string>)
    | LoginError(error: HttpError)
  datatype LoginResult = LoginSucceeded | LoginFailed(message: string)
  datatype LoginStep = LoginStep(session: Session, result: LoginResult)

  /**
   * A login attempt settles. The token is set in memory before it is
   * persisted, so a storage write that throws leaves the new token in memory,
   * the old stored value in place, and reports failure with the storage
   * error's message.
   */
  function Login(s: Session, o: LoginOutcome): (r: LoginStep)
    ensures o.LoginReply? ==> r.result == LoginSucceeded
    ensures o.LoginReply? ==> r.session.token == Some(o.token) && r.session.stored == Some(o.token)
    ensures !o.LoginError? ==> r.session.loading == s.loading
    ensures o.LoginReplyNotStored? ==> r.session.token == Some(o.token) && r.session.stored == s.stored
    ensures o.LoginReplyNotStored? ==>
      r.result == LoginFailed(if Truthy(o.storageMessage) then o.storageMessage.value else LoginFailedMessage)
    ensures o.LoginError? ==> r.session == s
    ensures !o.LoginReply? ==> r.result.LoginFailed? && r.result.message != ""
  {
    match o
    case LoginReply(t) => LoginStep(s.(token := Some(t), stored := Some(t)), LoginSucceeded)
    case LoginReplyNotStored(t, m) =>
      LoginStep(s.(token := Some(t)), LoginFailed(ClassifyLoginError(HttpError(None, m))))
    case LoginError(e) => LoginStep(s, LoginFailed(ClassifyLoginError(e)))
  }

  /**
   * A storage write that throws during login desynchronises the session: the
   * new token is in memory but not stored, and the caller is told the login
   * failed although the session now reports itself authenticated.
   */
  lemma UnstoredLoginDesyncs(s: Session, t: string, m: Option<string>)
    requires t != "" && s.stored != Some(t)
    ensures var r := Login(s, LoginReplyNotStored(t, m));
      !Synced(r.session) && IsAuthenticated(r.session) && r.result.LoginFailed?
  {
  }

  /** No login in `events` had its storage write throw. */
  predicate StorageWritesSucceed(events: seq<AuthEvent>) {
    forall i :: 0 <= i < |events| && events[i].LoginSettled? ==> !events[i].login.LoginReplyNotStored?
  }

  /** Everything that can happen to a session after mount. */
  datatype AuthEvent = VerifySettled(verify: VerifyOutcome) | LoginSettled(login: LoginOutcome) | LogoutClicked

  function Apply(s: Session, e: AuthEvent): Session {
    match e
    case VerifySettled(o) => Verify(s, o)
    case LoginSettled(o) => Login(s, o).session
    case LogoutClicked => Logout(s)
  }

  function Run(s: Session, events: seq<AuthEvent>): Session
    decreases |events|
  {
    if events == [] then s else Run(Apply(s, events[0]), events[1..])
  }

  /** While no storage write throws, the in-memory token never drifts from the persisted one. */
  lemma {:induction false} RunKeepsSynced(s: Session, events: seq<AuthEvent>)
    requires Synced(s)
    requires StorageWritesSucceed(events)
    ensures Synced(Run(s, events))
    decreases |events|
  {
    if events != [] {
      assert StorageWritesSucceed(events[1..]) by {
        forall i | 0 <= i < |events[1..]| && events[1..][i].LoginSettled?
          ensures !events[1..][i].login.LoginReplyNotStored?
        {
          assert events[1..][i] == events[i + 1];
        }
      }
      RunKeepsSynced(Apply(s, events[0]), events[1..]);
    }
  }

  /** Mounting starts synced, so every session reached without a throwing storage write is synced. */
  lemma MountIsSynced(stored: Option<string>, events: seq<AuthEvent>)
    requires StorageWritesSucceed(events)
    ensures Synced(Run(Mount(stored).session, events))
  {
    RunKeepsSynced(Mount(stored).session, events);
  }

  /**
   * `isAuthenticated` is decided by the token alone: an empty token does not
   * count, `loading` is ignored, and a logout always ends it.
   */
  lemma AuthenticatedByTokenAlone(s: Session, busy: bool)
    ensures IsAuthenticated(s) <==> s.token.Some? && |s.token.value| > 0
    ensures IsAuthenticated(s.(loading := busy)) == IsAuthenticated(s)
    ensures IsAuthenticated(s.(token := Some(""))) == false
    ensures !IsAuthenticated(Logout(s))
  {
  }

  /** Logging out twice is the same as logging out once. */
  lemma LogoutIdempotent(s: Session)
    ensures Logout(Logout(s)) == Logout(s)
  {
  }

  /** Once unauthenticated, no logout, verification or login whose call failed authenticates. */
  lemma {:induction false} NoAuthWithoutLogin(s: Session, events: seq<AuthEvent>)
    requires !IsAuthenticated(s)
    requires forall i :: 0 <= i < |events| ==> !events[i].LoginSettled? || events[i].login.LoginError?
    ensures !IsAuthenticated(Run(s, events))
    decreases |events|
  {
    if events != [] {
      NoAuthWithoutLogin(Apply(s, events[0]), events[1..]);
    }
  }

  /**
   * While a stored token is being verified the session already reports
   * itself authenticated: `isAuthenticated` does not wait for `loading`.
   */
  lemma AuthenticatedWhileVerifying(stored: Option<string>)
    requires Truthy(stored)
    ensures Mount(stored).session.loading && IsAuthenticated(Mount(stored).session)
  {
  }
}
