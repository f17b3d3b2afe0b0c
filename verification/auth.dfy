/**
 * The session helpers of the OAuth module: who counts as logged in, and the
 * `login_required` decorator, which checks for a user but not for a token.
 * A Django session is a string-keyed dictionary of JSON values.
 */
module Auth {
  import opened Json
  import opened Http

  type Session = Object

  const UserKey: string := "user"
  const TokenKey: string := "oauth_token"
  const StateKey: string := "oauth_state"

  /** What a view sees of a request: its method, its session and its query parameters. */
  datatype Request = Request(verb: Method, session: Session, query: map<string, string>)

  /** What a view produces: the session as it leaves the request, and the response. */
  datatype Reply = Reply(session: Session, response: Response)

  /** `is_authenticated`: both a user and a token are stored. */
  predicate IsAuthenticated(s: Session) {
    UserKey in s && TokenKey in s
  }

  /** `get_current_user`: `session.get('user')`. */
  function GetCurrentUser(s: Session): (u: Value)
    ensures UserKey in s ==> u == s[UserKey]
    ensures UserKey !in s ==> u == Null
  {
    Get(s, UserKey)
  }

  const AuthRequired: Object :=
    map["success" := Bool(false), "error" := Str("Authentication required"), "login_url" := Str("/api/auth/login")]

  /**
   * `login_required(view)`: a 401 naming the login URL exactly when no user
   * is stored; otherwise the wrapped view handles the unchanged request.
   */
  function LoginRequired(req: Request, view: Request -> Reply): (r: Reply)
    ensures UserKey !in req.session ==> r == Reply(req.session, JsonResponse(AuthRequired, 401))
    ensures UserKey in req.session ==> r == view(req)
  {
    if UserKey !in req.session then Reply(req.session, JsonResponse(AuthRequired, 401)) else view(req)
  }

  /** An authenticated request always reaches the wrapped view. */
  lemma AuthenticatedPassesLoginRequired(req: Request, view: Request -> Reply)
    requires IsAuthenticated(req.session)
    ensures LoginRequired(req, view) == view(req)
  {
  }

  /**
   * The converse fails: a session holding a user but no token is not
   * authenticated, yet `login_required` lets it through.
   */
  lemma LoginRequiredAdmitsTokenlessSession(verb: Method, user: Value, query: map<string, string>, view: Request -> Reply)
    ensures var req := Request(verb, map[UserKey := user], query);
      !IsAuthenticated(req.session) && LoginRequired(req, view) == view(req)
  {
  }
}
