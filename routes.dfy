/**
 * The server's wiring: configuration from the environment, the request
 * multiplexer's pattern table, and the four route closures that choose which
 * guard, if any, stands in front of a handler.
 */
module Routes {
  import opened Results
  import opened Strings
  import opened Strconv
  import opened Hex
  import opened Http
  import opened Models
  import opened Storage
  import opened Uploads
  import opened Auth
  import Api
  import Admin

  // ---- configuration ----

  datatype Config = Config(
    port: string,
    databasePath: string,
    uploadDir: string,
    sessionSecret: string,
    baseURL: string)

  /** getEnv: the variable's value when set and non-empty, else the default. */
  function GetEnv(env: map<string, string>, key: string, default: string): (v: string)
    ensures v == default || (key in env && v == env[key])
    ensures v == default <==> Lookup(env, key) == "" || env[key] == default
  {
    var value := Lookup(env, key);
    if value != "" then value else default
  }

  /** A variable that is unset or empty falls back; one with a value never does. */
  lemma GetEnvFallsBack(env: map<string, string>, key: string, default: string)
    requires default != ""
    ensures GetEnv(env, key, default) != ""
    ensures Lookup(env, key) != "" ==> GetEnv(env, key, default) == env[key]
    ensures Lookup(env, key) == "" ==> GetEnv(env, key, default) == default
  {
  }

  /** The port check: Atoi succeeds and the number lies in 1..65535. */
  predicate ValidPort(port: string) {
    Atoi(port).Some? && 1 <= Atoi(port).value <= 65535
  }

  /** A decimal port number is accepted exactly when it lies in 1..65535. */
  lemma ValidPortItoa(n: int)
    requires MinInt <= n <= MaxInt
    ensures ValidPort(Itoa(n)) <==> 1 <= n <= 65535
  {
    AtoiItoa(n);
  }

  /** The session secret: SESSION_SECRET when non-empty, else the random bytes in hex. */
  function SecretOf(env: map<string, string>, random: seq<byte>): string {
    if Lookup(env, "SESSION_SECRET") != "" then env["SESSION_SECRET"] else HexEncode(random)
  }

  /**
   * loadConfig: each field from its variable or default, the session secret
   * generated when unset, and the port checked last; an invalid port is the
   * fatal error.
   */
  method LoadConfig(env: map<string, string>, random: seq<byte>) returns (r: Result<Config>)
    requires |random| == 32
    ensures r.Ok? <==> ValidPort(GetEnv(env, "PORT", "8080"))
    ensures r.Err? ==> r.message == "Invalid port: " + GetEnv(env, "PORT", "8080")
    ensures r.Ok? ==>
              && r.value.port == GetEnv(env, "PORT", "8080")
              && r.value.databasePath == GetEnv(env, "DATABASE_PATH", "./shufflr.db")
              && r.value.uploadDir == GetEnv(env, "UPLOAD_DIR", "./uploads")
              && r.value.baseURL == GetEnv(env, "BASE_URL", "http://localhost:8080")
              && r.value.sessionSecret == SecretOf(env, random)
    ensures r.Ok? && Lookup(env, "SESSION_SECRET") == "" ==>
              FitKey(KeyMaterial(r.value.sessionSecret)) == random
  {
    var config := Config(
      GetEnv(env, "PORT", "8080"),
      GetEnv(env, "DATABASE_PATH", "./shufflr.db"),
      GetEnv(env, "UPLOAD_DIR", "./uploads"),
      "",
      GetEnv(env, "BASE_URL", "http://localhost:8080"));
    var sessionSecret := Lookup(env, "SESSION_SECRET");
    if sessionSecret == "" {
      sessionSecret := HexEncode(random);
      GeneratedSecretKey(random);
    }
    config := config.(sessionSecret := sessionSecret);
    if !ValidPort(config.port) {
      return Err("Invalid port: " + config.port);
    }
    r := Ok(config);
  }

  // ---- the multiplexer ----

  /** The handlers patterns are registered for. */
  datatype Route =
    | StaticFiles | HealthCheck | ImageListing | ServeImage | Root
    | AdminHome | AdminSetup | AdminLogin | AdminLogout
    | AdminImages | AdminServeImage | AdminUpload | AdminRename | AdminDelete | AdminToggleImage
    | AdminKeys | AdminNewKey | AdminToggleKey | AdminRegenerateKey | AdminDeleteKey | AdminSettings

  /** The registered patterns; one ending in "/" names a whole subtree. */
  const Patterns: map<string, Route> := map[
    "/static/" := StaticFiles,
    "/health" := HealthCheck,
    "/api/images" := ImageListing,
    "/api/images/" := ServeImage,
    "/" := Root,
    "/admin" := AdminHome,
    "/admin/setup" := AdminSetup,
    "/admin/login" := AdminLogin,
    "/admin/logout" := AdminLogout,
    "/admin/images" := AdminImages,
    "/admin/images/serve/" := AdminServeImage,
    "/admin/images/upload" := AdminUpload,
    "/admin/images/rename" := AdminRename,
    "/admin/images/delete" := AdminDelete,
    "/admin/images/toggle" := AdminToggleImage,
    "/admin/api-keys" := AdminKeys,
    "/admin/api-keys/new" := AdminNewKey,
    "/admin/api-keys/toggle" := AdminToggleKey,
    "/admin/api-keys/regenerate" := AdminRegenerateKey,
    "/admin/api-keys/delete" := AdminDeleteKey,
    "/admin/settings" := AdminSettings]

  /** A pattern matches its own path, and a subtree pattern every path below it. */
  predicate Matches(pattern: string, path: string) {
    pattern == path || (HasSuffix(pattern, "/") && HasPrefix(path, pattern))
  }

  /** The patterns the admin session guard stands in front of. */
  predicate AdminGuarded(route: Route) {
    !(route in {StaticFiles, HealthCheck, ImageListing, ServeImage, Root, AdminHome, AdminSetup, AdminLogin, AdminLogout})
  }

  /** The subtree pattern a path outside the exact patterns falls into; "/" catches the rest. */
  function SubtreeOf(path: string): (p: string)
    requires HasPrefix(path, "/")
    ensures p in Patterns && HasSuffix(p, "/") && HasPrefix(path, p)
  {
    if HasPrefix(path, "/admin/images/serve/") then "/admin/images/serve/"
    else if HasPrefix(path, "/api/images/") then "/api/images/"
    else if HasPrefix(path, "/static/") then "/static/"
    else "/"
  }

  /** The pattern the multiplexer picks for a path: the path itself when registered, else its subtree. */
  function Chosen(path: string): (p: string)
    requires HasPrefix(path, "/")
    ensures p in Patterns && Matches(p, path)
  {
    if path in Patterns then path else SubtreeOf(path)
  }

  /** The handler a request path reaches. */
  function Dispatch(path: string): Route
    requires HasPrefix(path, "/")
  {
    Patterns[Chosen(path)]
  }

  /** The patterns that name a subtree. */
  lemma SubtreePatterns(q: string)
    requires q in Patterns && HasSuffix(q, "/")
    ensures q == "/static/" || q == "/api/images/" || q == "/" || q == "/admin/images/serve/"
  {
    assert q[|q| - 1] == '/';
  }

  /**
   * The chosen pattern is the longest one matching the path: every other
   * matching pattern is strictly shorter.
   */
  lemma ChosenIsLongestMatch(path: string, q: string)
    requires HasPrefix(path, "/") && q in Patterns && Matches(q, path)
    ensures q == Chosen(path) || |q| < |Chosen(path)|
  {
    var c := Chosen(path);
    if path in Patterns {
      if q != path {
        assert HasPrefix(path, q);
      }
    } else {
      SubtreePatterns(q);
      if q == "/static/" {
        assert path[1] == 's';
        assert c == q;
      } else if q == "/api/images/" {
        assert path[2] == 'p';
        assert c == q;
      } else if q == "/admin/images/serve/" {
        assert c == q;
      } else if |c| == 1 {
        assert c == path[..1] == q;
      }
    }
  }

  /** Every path outside the registered patterns reaches the root handler, and so a 404. */
  lemma UnregisteredPathNotFound(path: string)
    requires HasPrefix(path, "/") && path !in Patterns
    requires !HasPrefix(path, "/static/") && !HasPrefix(path, "/api/images/") && !HasPrefix(path, "/admin/images/serve/")
    ensures Dispatch(path) == Root
    ensures RootRoute(path) == Error(StatusNotFound, "404 page not found")
  {
    assert path != "/";
  }

  /**
   * Below /admin/, only the setup, login and logout pages are reached without
   * the admin session guard; an unregistered path there is the root's 404.
   */
  lemma AdminPagesGuarded(path: string)
    requires HasPrefix(path, "/admin/") && path !in {"/admin/setup", "/admin/login", "/admin/logout"}
    ensures HasPrefix(path, "/")
    ensures Dispatch(path) == Root || AdminGuarded(Dispatch(path))
  {
    assert path[..1] == "/";
    assert |path| >= 7 && path[1] == 'a' && path[2] == 'd' && path[6] == '/';
  }

  // ---- the route closures ----

  /** The root closure: the exact path "/" redirects to /admin, anything else is http.NotFound. */
  function RootRoute(path: string): (resp: Response)
    ensures resp.status == StatusSeeOther <==> path == "/"
    ensures path == "/" ==> resp == Redirect("/admin")
    ensures path != "/" ==> resp == Error(StatusNotFound, "404 page not found")
  {
    if path == "/" then Redirect("/admin") else Error(StatusNotFound, "404 page not found")
  }

  /** Whether the stored setting demands a key for the listing; a failed read demands one. */
  ghost predicate KeyRequired(db: DB)
    reads db`online, db`settings
  {
    Api.ReadsTrue(db.ReadSetting(Api.RequireKeySetting))
  }

  /** The answer to a CORS preflight. */
  ghost function Preflight(db: DB): Response
    reads db`online, db`settings
  {
    Response(StatusOK, Api.CorsHeaders(db.ReadSetting("cors_enabled"), db.ReadSetting("cors_origins"), true), NoBody)
  }

  /**
   * What the key guard in front of the listing promises: each missing,
   * unverifiable or unknown key gets its own answer and changes nothing, and
   * a success is logged against an enabled key whose hash is the presented key's.
   */
  ghost predicate KeyGuarded(db: DB, keysBefore: map<int, ApiKey>, requestsBefore: seq<ApiRequest>,
                             request: Request, resp: Response)
    reads db`online, db`apiKeys, db`requests
  {
    var key := GuardKey(request.header);
    && (key == "" ==> resp == MissingKey)
    && (key != "" && !db.online ==> resp == InternalError)
    && (key != "" && db.online && !EnabledKeyWithHash(keysBefore, db.keyDigest(key)) ==>
          resp == InvalidKey)
    && (!(key != "" && db.online && EnabledKeyWithHash(keysBefore, db.keyDigest(key))) ==>
          db.apiKeys == keysBefore && db.requests == requestsBefore)
    && (resp.status == StatusOK ==>
          && |db.requests| == |requestsBefore| + 1
          && var keyId := db.requests[|requestsBefore|].apiKeyId;
             && keyId in keysBefore && keysBefore[keyId].enabled
             && keysBefore[keyId].keyHash == db.keyDigest(key))
  }

  /** A successful listing: a GET whose count resolved, answered with distinct enabled images. */
  ghost predicate Listed(db: DB, request: Request, resp: Response)
    reads db`online, db`settings, db`images
  {
    && request.verb == "GET" && Api.RequestedCount(db, request.query).UseCount?
    && Api.ListsPick(db, Api.RequestedCount(db, request.query).count, resp)
  }

  /** The wired application: one store shared by the guard service and both servers. */
  class App {
    const db: DB
    const auth: AuthService
    const api: Api.Server
    const admin: Admin.Server

    ghost predicate Wired()
      reads this
    {
      auth.db == db && api.db == db && admin.db == db && admin.auth == auth
    }

    /** The servers built over one store and upload directory, as main does. */
    constructor (db: DB, sessionSecret: string, uploads: Directory)
      ensures this.db == db && Wired()
      ensures auth.sessionKey == FitKey(KeyMaterial(sessionSecret))
      ensures api.uploads == uploads && admin.uploads == uploads
    {
      this.db := db;
      var authService := new AuthService(db, sessionSecret);
      auth := authService;
      admin := new Admin.Server(db, authService, uploads);
      api := new Api.Server(db, uploads);
    }

    /**
     * /api/images: a preflight is answered before any key check; the key
     * guard runs exactly when the setting demands it (or cannot be read),
     * and a listing then succeeds only for a caller presenting an enabled
     * key, against which the request is logged.
     */
    method ServeRandomImages(request: Request, ctx: Context, now: int) returns (resp: Response)
      requires db.Valid() && Wired()
      modifies db`apiKeys, db`requests, db`nextRequestId
      ensures db.Valid()
      ensures request.verb == "OPTIONS" ==>
                resp == Preflight(db) && db.apiKeys == old(db.apiKeys) && db.requests == old(db.requests)
      ensures request.verb != "OPTIONS" && !KeyRequired(db) ==>
                db.apiKeys == old(db.apiKeys) && db.requests == old(db.requests)
      ensures request.verb != "OPTIONS" && KeyRequired(db) ==> KeyGuarded(db, old(db.apiKeys), old(db.requests), request, resp)
      ensures request.verb != "OPTIONS" && resp.status == StatusOK ==> Listed(db, request, resp)
    {
      if request.verb == "OPTIONS" {
        resp := api.HandleOptions();
        return;
      }
      var requireAPIKey := db.GetSetting(Api.RequireKeySetting);
      if Api.ReadsTrue(requireAPIKey) {
        resp := ListBehindKey(request, ctx, now);
      } else {
        resp := api.HandleRandomImages(request, ctx);
      }
    }

    /** The listing behind RequireAPIKey: the guard's rejection, or the handler run with the key attached. */
    method ListBehindKey(request: Request, ctx: Context, now: int) returns (resp: Response)
      requires db.Valid() && Wired() && KeyRequired(db)
      modifies db`apiKeys, db`requests, db`nextRequestId
      ensures db.Valid()
      ensures KeyGuarded(db, old(db.apiKeys), old(db.requests), request, resp)
      ensures resp.status == StatusOK ==> Listed(db, request, resp)
    {
      var guard := auth.RequireAPIKey(request, ctx, now);
      match guard
      case Rejected(r) =>
        resp := r;
      case Authenticated(c) =>
        resp := ListForKey(request, c);
    }

    /** The handler run with a key attached: a success is logged against that key, a failure logs nothing. */
    method ListForKey(request: Request, ctx: Context) returns (resp: Response)
      requires db.Valid() && Wired() && KeyRequired(db) && GetAPIKeyFromContext(ctx).Some?
      modifies db`requests, db`nextRequestId
      ensures db.Valid()
      ensures resp.status == StatusOK ==>
                && |db.requests| == |old(db.requests)| + 1
                && db.requests[|old(db.requests)|].apiKeyId == GetAPIKeyFromContext(ctx).value.id
                && Listed(db, request, resp)
      ensures resp.status != StatusOK ==> db.requests == old(db.requests)
    {
      resp := api.HandleRandomImages(request, ctx);
    }

    /** /api/images/: a preflight is answered before any key check, anything else goes to HandleServeImage. */
    method ServeImageRoute(request: Request, now: int) returns (resp: Response)
      requires db.Valid() && Wired()
      modifies db`apiKeys
      ensures db.Valid()
      ensures request.verb == "OPTIONS" ==> resp == Preflight(db) && db.apiKeys == old(db.apiKeys)
      ensures request.verb != "OPTIONS" && request.verb != "GET" ==>
                resp == Error(StatusMethodNotAllowed, "Method not allowed") && db.apiKeys == old(db.apiKeys)
      ensures request.verb == "GET" ==>
                var rejection := Api.ServeKeyRejection(db, old(db.apiKeys), request.header);
                && (rejection.Some? ==> resp == rejection.value && db.apiKeys == old(db.apiKeys))
                && (rejection.None? ==> Api.KeyStamped(db, old(db.apiKeys), request.header, now)
                                        && Api.ServedFile(db, api.uploads.names, request.path, resp))
    {
      if request.verb == "OPTIONS" {
        resp := api.HandleOptions();
        return;
      }
      resp := api.HandleServeImage(request, now);
    }

    /**
     * /admin: a failed admin count is a 500; with no admin yet the visitor is
     * sent to setup; otherwise the dashboard is shown to a signed-in admin
     * and everyone else is sent to the login page.
     */
    method AdminHomeRoute(session: Session, ctx: Context) returns (resp: Response)
      requires db.Valid() && Wired()
      ensures !db.online ==> resp == InternalError
      ensures db.online && |db.admins| == 0 ==> resp == Redirect("/admin/setup")
      ensures db.online && |db.admins| > 0 && !GetAdminFromSession(session).Ok? ==> resp == Redirect("/admin/login")
      ensures db.online && |db.admins| > 0 && GetAdminFromSession(session) == Ok(None) ==> resp == Redirect("/admin/login")
      ensures resp.body.DashboardPage? <==>
                db.online && |db.admins| > 0 && GetAdminFromSession(session).Ok? && GetAdminFromSession(session).value.Some?
      ensures resp.body.DashboardPage? ==>
                resp.body == Admin.DashboardOf(db, GetAdminFromSession(session).value.value.username)
    {
      var hasAdmins := db.HasAdminUsers();
      if hasAdmins.Err? {
        return InternalError;
      }
      if !hasAdmins.value {
        return Redirect("/admin/setup");
      }
      var guard := auth.RequireAdminAuth(session, ctx);
      match guard
      case Rejected(r) =>
        resp := r;
      case Authenticated(c) =>
        resp := admin.HandleDashboard(c);
    }
  }
}
