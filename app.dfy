/**
 * The server's request path: the general rate limiter runs in front of every
 * route (the health check and the webhook included), then the request is
 * routed. The catalog routes (categories, colleges) and paths no router
 * matches are not part of this model; their answer is the parameter
 * `elsewhere`, and they leave the store alone.
 */
module App {
  import opened Options
  import opened Strings
  import Json
  import opened Http
  import opened Db
  import opened Schema
  import opened AuthMiddleware
  import opened ClerkWebhook
  import opened UserRoutes
  import opened RateLimiter

  datatype Route =
    | HealthCheck
    | ClerkEvents
    | ReadMe
    | WriteMe
    | Onboard
    | PublicUser(id: string)
    | Elsewhere

  const USERS_PREFIX := "/api/users/"

  /** Which handler Express picks for a method and a path. */
  function RouteOf(verb: string, path: string): (r: Route)
    ensures r.PublicUser? ==> verb == "GET" && path == USERS_PREFIX + r.id && r.id != "me" && r.id != ""
  {
    if verb == "GET" && path == "/health" then HealthCheck
    else if verb == "POST" && path == "/api/webhooks/clerk" then ClerkEvents
    else if verb == "GET" && path == "/api/users/me" then ReadMe
    else if verb == "PUT" && path == "/api/users/me" then WriteMe
    else if verb == "POST" && path == "/api/users/onboarding" then Onboard
    else if verb == "GET" && StartsWith(path, USERS_PREFIX) && |path| > |USERS_PREFIX|
            && '/' !in path[|USERS_PREFIX|..] && path[|USERS_PREFIX|..] != "me" then
      assert path == USERS_PREFIX + path[|USERS_PREFIX|..];
      PublicUser(path[|USERS_PREFIX|..])
    else Elsewhere
  }

  /** What the environment supplies: configuration, the oracles, fresh ids and the clock. */
  datatype Environment = Environment(
    nodeEnv: Option<string>,
    webhookSecret: Option<string>,
    verifyToken: string -> VerifyResult,
    lookupFails: bool,
    verifySignature: SignatureCheck,
    formats: Formats,
    newUserId: string,
    newWalletId: string,
    now: int,
    elsewhere: Response)

  /** `GET /health` */
  const HEALTH := Success(HealthOk)

  function Authorization(headers: map<string, string>): Option<string> {
    if "authorization" in headers then Some(headers["authorization"]) else None
  }

  /** The routed request, once the limiter has let it through: the new store and the answer. */
  function Routed(t: Tables, verb: string, path: string, headers: map<string, string>, body: Json.Json,
                  rawBody: string, env: Environment): (h: Handled)
    requires Consistent(t)
    ensures Consistent(h.after)
  {
    var c := Credentials(Authorization(headers), env.verifyToken, env.lookupFails);
    match RouteOf(verb, path)
    case HealthCheck => Handled(t, HEALTH)
    case ClerkEvents =>
      HandleWebhook(t, env.webhookSecret, headers, rawBody, env.verifySignature, env.newUserId, env.newWalletId)
    case ReadMe => Handled(t, GetMeRoute(t, c))
    case WriteMe => PutMeRoute(t, c, env.formats, body, env.nodeEnv)
    case Onboard => OnboardingRoute(t, c, env.formats, body, env.newWalletId, env.nodeEnv)
    case PublicUser(id) => Handled(t, PublicProfile(t, id))
    case Elsewhere => Handled(t, env.elsewhere)
  }

  /** Only the webhook and the two writing user routes can change the store. */
  lemma ReadsLeaveStoreAlone(t: Tables, verb: string, path: string, headers: map<string, string>, body: Json.Json,
                             rawBody: string, env: Environment)
    requires Consistent(t)
    requires RouteOf(verb, path) !in {ClerkEvents, WriteMe, Onboard}
    ensures Routed(t, verb, path, headers, body, rawBody, env).after == t
  {
  }

  method Dispatch(req: RequestContext, store: Store, rawBody: string, env: Environment) returns (r: Response)
    requires store.Valid()
    modifies req, store
    ensures store.Valid()
    ensures var h := Routed(old(store.Snapshot()), req.verb, req.path, req.headers, old(req.body), rawBody, env);
      store.Snapshot() == h.after && r == h.response
  {
    match RouteOf(req.verb, req.path)
    case HealthCheck =>
      r := HEALTH;
    case ClerkEvents =>
      r := ReceiveWebhook(store, env.webhookSecret, req.headers, rawBody, env.verifySignature,
                          env.newUserId, env.newWalletId);
    case ReadMe =>
      r := GetMe(req, store, env.verifyToken, env.lookupFails);
    case WriteMe =>
      r := PutMe(req, store, env.verifyToken, env.lookupFails, env.formats, env.nodeEnv);
    case Onboard =>
      r := PostOnboarding(req, store, env.verifyToken, env.lookupFails, env.formats, env.newWalletId, env.nodeEnv);
    case PublicUser(id) =>
      r := GetUserById(store, id);
    case Elsewhere =>
      r := env.elsewhere;
  }

  /**
   * One request through the server. A request the general limiter refuses is
   * answered 429 `RATE_LIMITED` whatever its route, and neither the store
   * nor the request is touched; otherwise it is routed.
   */
  method Serve(limiter: FixedWindowLimiter, req: RequestContext, store: Store, rawBody: string, env: Environment)
    returns (r: Response)
    requires limiter.Valid() && store.Valid()
    modifies limiter, req, store
    ensures limiter.Valid() && store.Valid()
    ensures var d := Hit(if req.clientIp in old(limiter.windows) then Some(old(limiter.windows)[req.clientIp]) else None,
                         env.now, limiter.windowMs, limiter.max);
      && limiter.windows == old(limiter.windows)[req.clientIp := d.window]
      && (!d.admitted ==>
            && r == Rejection(limiter.message)
            && store.Snapshot() == old(store.Snapshot())
            && req.body == old(req.body) && req.query == old(req.query) && req.user == old(req.user))
      && (d.admitted ==>
            var h := Routed(old(store.Snapshot()), req.verb, req.path, req.headers, old(req.body), rawBody, env);
            store.Snapshot() == h.after && r == h.response)
  {
    var o := limiter.Handle(req.clientIp, env.now);
    if !o.Continue? {
      return o.response;
    }
    r := Dispatch(req, store, rawBody, env);
  }
}
