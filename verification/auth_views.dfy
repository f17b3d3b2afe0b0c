/**
 * The OAuth views as transitions of the session: `login` remembers the
 * state, `callback` stores the user and the token and forgets the state,
 * `logout` empties the session, and the read-only views project what the
 * session holds. The OAuth provider, the token exchange and the user-info
 * request are inputs: each is the outcome the foreign call had.
 */
module AuthViews {
  import opened Optional
  import opened Json
  import opened Http
  import opened Auth

  /** The frontend address every `callback` redirect goes to. */
  const FrontendUrl: string := "http://localhost:5173"

  /** The outcome of a call into code outside the model: a value, or an exception's message. */
  datatype Outcome<T> = Ok(value: T) | Fail(message: string)

  /**
   * `login`. `authorize` is what `create_authorization_url` produced: the
   * authorization URL and the state, or the exception it raised.
   */
  function Login(req: Request, authorize: Outcome<(string, string)>): (r: Reply)
    ensures req.verb != GET && req.verb != POST ==> r == Reply(req.session, NotAllowed("GET, POST"))
    ensures (req.verb == GET || req.verb == POST) && authorize.Fail? ==>
              r.session == req.session && r.response.status == 500
              && r.response.body == JsonBody(map["success" := Bool(false), "error" := Str("Failed to initiate login"),
                                                 "details" := Str(authorize.message)])
    ensures (req.verb == GET || req.verb == POST) && authorize.Ok? ==>
              && r.session.Keys == req.session.Keys + {StateKey}
              && r.session[StateKey] == Str(authorize.value.1)
              && (forall k :: k in req.session && k != StateKey ==> r.session[k] == req.session[k])
    ensures req.verb == GET && authorize.Ok? ==> r.response == Redirect(authorize.value.0)
    ensures req.verb == POST && authorize.Ok? ==>
              r.response == JsonResponse(map["success" := Bool(true), "authorization_url" := Str(authorize.value.0)])
  {
    if req.verb != GET && req.verb != POST then Reply(req.session, NotAllowed("GET, POST"))
    else
      match authorize
      case Fail(e) =>
        Reply(req.session, JsonResponse(map["success" := Bool(false), "error" := Str("Failed to initiate login"),
                                            "details" := Str(e)], 500))
      case Ok((authorizationUrl, state)) =>
        var session := req.session[StateKey := Str(state)];
        if req.verb == GET then Reply(session, Redirect(authorizationUrl))
        else Reply(session, JsonResponse(map["success" := Bool(true), "authorization_url" := Str(authorizationUrl)]))
  }

  /** Starting a login never logs anybody in or out. */
  lemma LoginKeepsAuthentication(req: Request, authorize: Outcome<(string, string)>)
    ensures IsAuthenticated(Login(req, authorize).session) <==> IsAuthenticated(req.session)
  {
  }

  /** The redirect `callback` sends on failure; the message is carried without percent-encoding. */
  function ErrorRedirect(message: string): Response {
    Redirect(FrontendUrl + "/?login=error&message=" + message)
  }

  /** The message of the `KeyError` that `token['access_token']` raises when the key is missing. */
  const MissingAccessToken: string := "'access_token'"

  /**
   * Where `callback` takes the user from: the token's `user` entry, else its
   * `userinfo` entry, else the user-info request made with the token's
   * `access_token`. `fetchUser` stands for that request.
   */
  function ChosenUserInfo(token: Object, fetchUser: Value -> Outcome<Value>): (r: Outcome<Value>)
    ensures "user" in token ==> r == Ok(token["user"])
    ensures "user" !in token && "userinfo" in token ==> r == Ok(token["userinfo"])
    ensures "user" !in token && "userinfo" !in token && "access_token" !in token ==> r == Fail(MissingAccessToken)
    ensures "user" !in token && "userinfo" !in token && "access_token" in token ==> r == fetchUser(token["access_token"])
  {
    if "user" in token then Ok(token["user"])
    else if "userinfo" in token then Ok(token["userinfo"])
    else if "access_token" !in token then Fail(MissingAccessToken)
    else fetchUser(token["access_token"])
  }

  /** User information carried in the token makes the user-info request irrelevant. */
  lemma TokenUserInfoOverridesFetch(token: Object, f: Value -> Outcome<Value>, g: Value -> Outcome<Value>)
    requires "user" in token || "userinfo" in token
    ensures ChosenUserInfo(token, f) == ChosenUserInfo(token, g)
    ensures ChosenUserInfo(token, f).Ok?
  {
  }

  /**
   * `callback`. `exchange` is what `fetch_token` produced. `importError` is
   * the failure of the import of the leaderboard-entry helper, which the
   * views module does not define: it is outside the inner `try`, so it
   * aborts the callback after the user and the token were stored. A
   * failure of the helper itself is swallowed and does not appear here.
   */
  function Callback(req: Request, exchange: Outcome<Object>, fetchUser: Value -> Outcome<Value>,
                    importError: Option<string>): (r: Reply)
    ensures req.verb != GET ==> r == Reply(req.session, NotAllowed("GET"))
    ensures req.verb == GET && exchange.Fail? ==> r == Reply(req.session, ErrorRedirect(exchange.message))
    ensures req.verb == GET && exchange.Ok? && ChosenUserInfo(exchange.value, fetchUser).Fail? ==>
              r == Reply(req.session,
                         ErrorRedirect("Failed to get user info: " + ChosenUserInfo(exchange.value, fetchUser).message))
    ensures req.verb == GET && exchange.Ok? && ChosenUserInfo(exchange.value, fetchUser).Ok? ==>
              && IsAuthenticated(r.session)
              && r.session[UserKey] == ChosenUserInfo(exchange.value, fetchUser).value
              && r.session[TokenKey] == Dict(exchange.value)
              && (forall k :: k in req.session && k !in {UserKey, TokenKey, StateKey} ==>
                    k in r.session && r.session[k] == req.session[k])
              && (importError.None? ==>
                    && StateKey !in r.session
                    && r.response == Redirect(FrontendUrl + (if "redirect" in req.query then req.query["redirect"] else "/")
                                              + "?login=success"))
              && (importError.Some? ==>
                    && (StateKey in r.session <==> StateKey in req.session)
                    && r.response == ErrorRedirect(importError.value))
  {
    if req.verb != GET then Reply(req.session, NotAllowed("GET"))
    else
      match exchange
      case Fail(e) => Reply(req.session, ErrorRedirect(e))
      case Ok(token) =>
        match ChosenUserInfo(token, fetchUser)
        case Fail(e) => Reply(req.session, ErrorRedirect("Failed to get user info: " + e))
        case Ok(userInfo) =>
          var session := req.session[UserKey := userInfo][TokenKey := Dict(token)];
          match importError
          case Some(e) => Reply(session, ErrorRedirect(e))
          case None =>
            var frontendPath := if "redirect" in req.query then req.query["redirect"] else "/";
            Reply(session - {StateKey}, Redirect(FrontendUrl + frontendPath + "?login=success"))
  }

  /**
   * With the import failing, as it does against the views module shown,
   * every callback that obtained user information leaves an authenticated
   * session behind an error redirect.
   */
  lemma FailedImportLeavesSessionAuthenticated(req: Request, token: Object, fetchUser: Value -> Outcome<Value>, e: string)
    requires req.verb == GET && ChosenUserInfo(token, fetchUser).Ok?
    ensures var r := Callback(req, Ok(token), fetchUser, Some(e));
      IsAuthenticated(r.session) && r.response == ErrorRedirect(e) && r.response.status == 302
  {
  }

  /** `logout`: the session is emptied, so nobody is authenticated afterwards. */
  function Logout(req: Request): (r: Reply)
    ensures req.verb != GET && req.verb != POST ==> r == Reply(req.session, NotAllowed("GET, POST"))
    ensures req.verb == GET || req.verb == POST ==>
              && !IsAuthenticated(r.session) && UserKey !in r.session && TokenKey !in r.session
              && |r.session| == 0
              && r.response == JsonResponse(map["success" := Bool(true), "message" := Str("Logged out successfully")])
  {
    if req.verb != GET && req.verb != POST then Reply(req.session, NotAllowed("GET, POST"))
    else
      // `user` and `oauth_token` are popped and `flush()` deletes what is left.
      Reply(map[], JsonResponse(map["success" := Bool(true), "message" := Str("Logged out successfully")]))
  }

  /** `get_profile`: a 401 unless authenticated, otherwise the stored user; the session is left as it was. */
  function GetProfile(req: Request): (r: Reply)
    ensures r.session == req.session
    ensures req.verb != GET ==> r.response == NotAllowed("GET")
    ensures req.verb == GET ==> (r.response.status == 401 <==> !IsAuthenticated(req.session))
    ensures req.verb == GET && !IsAuthenticated(req.session) ==>
              r.response.body == JsonBody(map["success" := Bool(false), "error" := Str("Not authenticated"),
                                              "authenticated" := Bool(false)])
    ensures req.verb == GET && IsAuthenticated(req.session) ==>
              r.response == JsonResponse(map["success" := Bool(true), "authenticated" := Bool(true),
                                             "user" := req.session[UserKey]])
  {
    if req.verb != GET then Reply(req.session, NotAllowed("GET"))
    else if !IsAuthenticated(req.session) then
      Reply(req.session, JsonResponse(map["success" := Bool(false), "error" := Str("Not authenticated"),
                                          "authenticated" := Bool(false)], 401))
    else
      Reply(req.session, JsonResponse(map["success" := Bool(true), "authenticated" := Bool(true),
                                          "user" := GetCurrentUser(req.session)]))
  }

  /** The server error Django answers with when a view raises an uncaught exception. */
  const ServerError: Response := Response(500, NoBody, map[])

  /** The user summary `check_auth` reports: four fields, `name` falling back to `username`. */
  function UserSummary(user: Object): (v: Value)
    ensures v.Dict? && v.fields.Keys == {"id", "username", "name", "picture"}
    ensures v.fields["id"] == Get(user, "id") && v.fields["username"] == Get(user, "username")
    ensures v.fields["picture"] == Get(user, "picture")
    ensures "name" in user ==> v.fields["name"] == user["name"]
    ensures "name" !in user ==> v.fields["name"] == v.fields["username"]
  {
    Dict(map["id" := Get(user, "id"), "username" := Get(user, "username"),
             "name" := GetOr(user, "name", Get(user, "username")), "picture" := Get(user, "picture")])
  }

  /**
   * `check_auth`: reports whether the session is authenticated and, when it
   * is, the user summary; a stored user that is not a dictionary makes the
   * view raise.
   */
  function CheckAuth(req: Request): (r: Reply)
    ensures r.session == req.session
    ensures req.verb != GET ==> r.response == NotAllowed("GET")
    ensures req.verb == GET && !IsAuthenticated(req.session) ==>
              r.response == JsonResponse(map["success" := Bool(true), "authenticated" := Bool(false)])
    ensures req.verb == GET && IsAuthenticated(req.session) && !req.session[UserKey].Dict? ==> r.response == ServerError
    ensures req.verb == GET && IsAuthenticated(req.session) && req.session[UserKey].Dict? ==>
              r.response == JsonResponse(map["success" := Bool(true), "authenticated" := Bool(true),
                                             "user" := UserSummary(req.session[UserKey].fields)])
  {
    if req.verb != GET then Reply(req.session, NotAllowed("GET"))
    else if !IsAuthenticated(req.session) then
      Reply(req.session, JsonResponse(map["success" := Bool(true), "authenticated" := Bool(false)]))
    else
      match GetCurrentUser(req.session)
      case Dict(user) =>
        Reply(req.session, JsonResponse(map["success" := Bool(true), "authenticated" := Bool(true),
                                            "user" := UserSummary(user)]))
      case _ => Reply(req.session, ServerError)
  }

  /**
   * What `debug_token` reports. The order of `user_keys` follows the
   * dictionary's insertion order, which the model does not keep, so the keys
   * are a set.
   */
  datatype DebugReport =
    | NotAllowedMethod
    | NotAuthenticated
    | Crashed
    | TokenReport(hasAccessToken: bool, tokenType: Value, userKeys: set<string>, username: Value, name: Value)

  /**
   * `debug_token`. Of the token it reveals only whether it has an access
   * token and its type; a stored token or user that is not a dictionary
   * makes the view raise.
   */
  function DebugToken(req: Request): (r: DebugReport)
    ensures req.verb != GET <==> r.NotAllowedMethod?
    ensures req.verb == GET ==> (r.NotAuthenticated? <==> !IsAuthenticated(req.session))
    ensures req.verb == GET && IsAuthenticated(req.session) ==>
              (r.TokenReport? <==> req.session[TokenKey].Dict? && req.session[UserKey].Dict?)
    ensures r.TokenReport? ==>
              && IsAuthenticated(req.session)
              && req.session[TokenKey].Dict? && req.session[UserKey].Dict?
              && r.hasAccessToken == ("access_token" in req.session[TokenKey].fields)
              && r.tokenType == Get(req.session[TokenKey].fields, "token_type")
              && r.userKeys == req.session[UserKey].fields.Keys
              && r.username == GetOr(req.session[UserKey].fields, "username", Str("N/A"))
              && r.name == GetOr(req.session[UserKey].fields, "name", Str("N/A"))
  {
    if req.verb != GET then NotAllowedMethod
    else if !IsAuthenticated(req.session) then NotAuthenticated
    else
      match (req.session[TokenKey], req.session[UserKey])
      case (Dict(token), Dict(user)) =>
        TokenReport("access_token" in token, Get(token, "token_type"), user.Keys,
                    GetOr(user, "username", Str("N/A")), GetOr(user, "name", Str("N/A")))
      case _ => Crashed
  }

  /**
   * The report never depends on the token beyond whether it holds an access
   * token and what its type is: two sessions that agree on those and on the
   * user get the same report, whatever secrets their tokens carry.
   */
  lemma DebugTokenHidesToken(verb: Method, user: Value, t1: Object, t2: Object, rest: Session, query: map<string, string>)
    requires ("access_token" in t1 <==> "access_token" in t2)
    requires Get(t1, "token_type") == Get(t2, "token_type")
    ensures DebugToken(Request(verb, rest[UserKey := user][TokenKey := Dict(t1)], query))
         == DebugToken(Request(verb, rest[UserKey := user][TokenKey := Dict(t2)], query))
  {
  }
}
