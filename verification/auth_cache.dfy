/**
 * The frontend's authentication service: a cached answer to "am I logged
 * in?" that stays fresh for five seconds, and thin wrappers around the
 * logout, profile and authenticated-request calls. Clock readings and the
 * outcomes of `fetch` are parameters; JavaScript values are JSON values plus
 * `undefined`.
 */
module AuthService {
  import opened Optional
  import opened Json

  /** How long, in milliseconds, a cached answer is served without asking the backend. */
  const CacheDuration: int := 5000

  const ApiBaseUrl: string := "http://localhost:8000/api"
  const LoginUrl: string := ApiBaseUrl + "/auth/login"

  /** A JavaScript value as the service sees it: `undefined`, or a JSON value (`null` included). */
  datatype JsValue = Undefined | Defined(value: Value)

  /** JavaScript truthiness; unlike Python, every array and object is truthy, even an empty one. */
  predicate JsTruthy(v: Value) {
    match v
    case Null => false
    case Bool(b) => b
    case Int(i) => i != 0
    case Str(s) => |s| > 0
    case List(_) => true
    case Dict(_) => true
  }

  /** `data.field` on a parsed body; `null` has no properties, and a primitive has none of these. */
  function Property(data: Value, field: string): (r: Option<JsValue>)
    ensures r.None? <==> data.Null?
    ensures data.Dict? && field in data.fields ==> r == Some(Defined(data.fields[field]))
    ensures !data.Dict? && !data.Null? ==> r == Some(Undefined)
  {
    match data
    case Null => None
    case Dict(d) => if field in d then Some(Defined(d[field])) else Some(Undefined)
    case _ => Some(Undefined)
  }

  /** What a `fetch` followed by `response.json()` produced: the parsed body, or a rejection. */
  datatype Fetched = Body(data: Value) | Rejected

  /** The service's state: the cached answer and the clock reading it was fetched at. */
  datatype Service = Service(cache: Option<Value>, cacheTimestamp: int)

  const Initial: Service := Service(None, 0)

  /** The condition under which `checkAuth` answers from the cache. */
  predicate ServesFromCache(svc: Service, forceRefresh: bool, now: int) {
    !forceRefresh && svc.cache.Some? && JsTruthy(svc.cache.value) && now - svc.cacheTimestamp < CacheDuration
  }

  const CheckFailed: Value := Dict(map["success" := Bool(false), "authenticated" := Bool(false)])

  /**
   * `checkAuth(forceRefresh)` at clock reading `now`. `fetched` is what the
   * request to the backend produced, and is ignored when the cache answers;
   * `asked` says whether the backend was asked.
   */
  function CheckAuth(svc: Service, forceRefresh: bool, now: int, fetched: Fetched): (r: (Service, Value, bool))
    ensures var (svc', answer, asked) := r;
      && (!asked <==> ServesFromCache(svc, forceRefresh, now))
      && (!asked ==> svc' == svc && answer == svc.cache.value)
      && (asked && fetched.Body? ==> svc' == Service(Some(fetched.data), now) && answer == fetched.data)
      && (asked && fetched.Rejected? ==> svc' == svc && answer == CheckFailed)
  {
    if ServesFromCache(svc, forceRefresh, now) then (svc, svc.cache.value, false)
    else
      match fetched
      case Body(data) => (Service(Some(data), now), data, true)
      case Rejected => (svc, CheckFailed, true)
  }

  /** `clearCache()`. */
  function ClearCache(svc: Service): (r: Service)
    ensures r.cache.None? && r.cacheTimestamp == 0
  {
    Service(None, 0)
  }

  /** After `clearCache` the next `checkAuth` asks the backend, whatever the clock says. */
  lemma CheckAfterClearAsks(svc: Service, forceRefresh: bool, now: int, fetched: Fetched)
    ensures CheckAuth(ClearCache(svc), forceRefresh, now, fetched).2
  {
  }

  /**
   * A truthy answer fetched at `t` is served from the cache, unchanged and
   * without asking, by every unforced `checkAuth` before `t + 5000`, and the
   * backend is asked again from `t + 5000` on.
   */
  lemma FreshnessWindow(svc: Service, force: bool, t: int, data: Value, later: int, f: Fetched)
    requires JsTruthy(data)
    requires later >= t
    ensures var (svc', answer, _) := CheckAuth(svc, force, t, Body(data));
      var (svc'', again, asked) := CheckAuth(svc', false, later, f);
      && (answer == data || ServesFromCache(svc, force, t))
      && (!ServesFromCache(svc, force, t) ==>
            (!asked <==> later < t + CacheDuration)
            && (!asked ==> again == data && svc'' == svc'))
  {
  }

  /** `login()`: where the browser is sent, and the path remembered to come back to. */
  datatype Navigation = Navigation(href: string, returnUrl: string)

  function Login(currentPath: string): (r: Navigation)
    ensures r.href == LoginUrl && r.returnUrl == currentPath
  {
    Navigation(LoginUrl, currentPath)
  }

  /**
   * `logout()`: the cache is cleared once a body has been parsed, even when
   * reading `success` from it then throws; the result is `data.success`,
   * or `false` when anything threw.
   */
  function Logout(svc: Service, fetched: Fetched): (r: (Service, JsValue))
    ensures fetched.Rejected? ==> r == (svc, Defined(Bool(false)))
    ensures fetched.Body? ==> r.0 == ClearCache(svc)
    ensures fetched.Body? && fetched.data.Null? ==> r.1 == Defined(Bool(false))
    ensures fetched.Body? && fetched.data.Dict? && "success" in fetched.data.fields ==>
              r.1 == Defined(fetched.data.fields["success"])
    ensures fetched.Body? && !fetched.data.Null? && !(fetched.data.Dict? && "success" in fetched.data.fields) ==>
              r.1 == Undefined
  {
    match fetched
    case Rejected => (svc, Defined(Bool(false)))
    case Body(data) =>
      var svc' := ClearCache(svc);
      match Property(data, "success")
      case None => (svc', Defined(Bool(false)))
      case Some(success) => (svc', success)
  }

  /** `getProfile()`: `data.user` when `data.authenticated` is truthy, `null` otherwise and on any failure. */
  function GetProfile(fetched: Fetched): (r: JsValue)
    ensures fetched.Rejected? || !fetched.data.Dict? ==> r == Defined(Null)
    ensures fetched.Body? && fetched.data.Dict? ==>
              var d := fetched.data.fields;
              if "authenticated" in d && JsTruthy(d["authenticated"])
              then r == (if "user" in d then Defined(d["user"]) else Undefined)
              else r == Defined(Null)
  {
    match fetched
    case Rejected => Defined(Null)
    case Body(data) =>
      match Property(data, "authenticated")
      case None => Defined(Null)
      case Some(Defined(a)) =>
        if JsTruthy(a) then Property(data, "user").value else Defined(Null)
      case Some(Undefined) => Defined(Null)
  }

  /** The part of `RequestInit` the service touches: `credentials` and `headers`, each possibly absent. */
  datatype Init = Init(credentials: Option<string>, headers: Option<map<string, string>>)

  /** `{...a, ...b}`: every property `b` has replaces `a`'s. */
  function Spread(a: Init, b: Init): Init {
    Init(if b.credentials.Some? then b.credentials else a.credentials,
         if b.headers.Some? then b.headers else a.headers)
  }

  const JsonContentType: map<string, string> := map["Content-Type" := "application/json"]

  /**
   * The options `authenticatedFetch` passes on. The defaults already merge
   * the caller's headers over the JSON content type, but the outer spread
   * then replaces the whole `headers` object with the caller's own.
   */
  function MergedOptions(options: Init): (r: Init)
    ensures options.headers.Some? ==> r.headers == options.headers
    ensures options.headers.None? ==> r.headers == Some(JsonContentType)
    ensures r.credentials == (if options.credentials.Some? then options.credentials else Some("include"))
  {
    var defaults := Init(Some("include"), Some(JsonContentType + options.headers.GetOr(map[])));
    assert JsonContentType + map[] == JsonContentType;
    Spread(defaults, options)
  }

  /** Headers passed by the caller lose the JSON content type unless they name one themselves. */
  lemma CallerHeadersDropContentType(options: Init)
    requires options.headers.Some? && "Content-Type" !in options.headers.value
    ensures "Content-Type" !in MergedOptions(options).headers.value
  {
  }

  /**
   * What `authenticatedFetch` ends with: the response, the error it throws
   * after sending the browser to the login page on a 401, or the rejection
   * of `fetch` itself passed on.
   */
  datatype FetchResult = Delivered(status: int) | RedirectedToLogin(error: string, to: Navigation) | Propagated

  /**
   * `authenticatedFetch(url, options)` from the page at `currentPath`. `send`
   * is the network: the status it answered with, or `None` when it rejected.
   */
  function AuthenticatedFetch(url: string, options: Init, currentPath: string, send: (string, Init) -> Option<int>)
    : (r: FetchResult)
    ensures send(url, MergedOptions(options)).None? <==> r.Propagated?
    ensures send(url, MergedOptions(options)) == Some(401) <==> r.RedirectedToLogin?
    ensures r.RedirectedToLogin? ==> r.error == "Unauthorized - redirecting to login" && r.to == Login(currentPath)
    ensures r.Delivered? ==> Some(r.status) == send(url, MergedOptions(options)) && r.status != 401
  {
    match send(url, MergedOptions(options))
    case None => Propagated
    case Some(status) =>
      if status == 401 then RedirectedToLogin("Unauthorized - redirecting to login", Login(currentPath))
      else Delivered(status)
  }
}
