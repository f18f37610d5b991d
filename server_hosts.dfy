/**
 * Host resolution, sandbox gating and backend URL selection. The browser's
 * `window.location.hostname`, `localStorage` and `process.env` are explicit
 * inputs, collected in an `Env`.
 */
module ServerHosts {
  import opened Wrappers
  import opened Js

  /** What a Next.js page context offers here: `asPath` and `req.headers.host`. */
  datatype PageContext = PageContext(asPath: Option<string>, host: Option<string>)

  /**
   * The host environment: `window.location.hostname` when `window` exists
   * (in the browser), the `localStorage` items when it exists, and `process.env`.
   */
  datatype Env = Env(
    windowHostname: Option<string>,
    localStorage: Option<map<string, string>>,
    processEnv: map<string, string>)

  const TEST_SANDBOX_VAR := "NEXT_PUBLIC_TEST_SANDBOX"
  const DEFAULT_BACKEND_VAR := "NEXT_PUBLIC_DEFAULT_BACKEND"
  const NODE_ENV_VAR := "NODE_ENV"
  const DEV_SERVER_KEY := "devServer"

  const PRODUCTION_BACKEND := "backend-dot-bobaboard.uc.r.appspot.com"
  /** "staging-dot-backend-dot-bobaboard.uc.r.appspot.com" */
  const STAGING_BACKEND := "staging-dot-" + PRODUCTION_BACKEND
  /** "https://staging-dot-backend-dot-bobaboard.uc.r.appspot.com/" */
  const STAGING_URL := "https://" + STAGING_BACKEND + "/"
  /** "https://backend-dot-bobaboard.uc.r.appspot.com/" */
  const PRODUCTION_URL := "https://" + PRODUCTION_BACKEND + "/"

  const SANDBOX_HOST := "tys-sandbox.boba.social"
  const SANDBOX_LOCATIONS: seq<string> := [SANDBOX_HOST]

  const ALLOWED_SANDBOX_LOCATIONS: map<string, seq<string>> := map[
    "localhost" := [
      "/!gore/thread/8b2646af-2778-487e-8e44-7ae530c2549c",
      "/!anime/thread/b27710a8-0a9f-4c09-b3a5-54668bab7051"],
    SANDBOX_HOST := [
      "/!challenge/thread/659dc185-b10d-4dbb-84c5-641fc1a65e58",
      "/!steamy/thread/9719a1dd-96da-497e-bd71-21634c20416c"]]

  /** `process.env[name]`. */
  function EnvVar(env: Env, name: string): Option<string> {
    if name in env.processEnv then Some(env.processEnv[name]) else None
  }

  /** `context?.req?.headers.host`. */
  function ServerHost(context: Option<PageContext>): Option<string> {
    if context.Some? then context.value.host else None
  }

  /** The host up to its first `:`, which is the whole host when it has no port. */
  function WithoutPort(h: string): (r: string)
    ensures ':' !in r && StartsWith(h, r)
    ensures |r| < |h| ==> h[|r|] == ':'
  {
    var i := IndexOf(h, ':');
    if i == -1 then h else h[..i]
  }

  /**
   * `getCurrentHost`: the browser's hostname, or on the server the request's
   * host, cut at its first `:` unless `withPort` is set.
   */
  function GetCurrentHost(env: Env, context: Option<PageContext>, withPort: bool): (r: Option<string>)
    ensures env.windowHostname.Some? ==> r == env.windowHostname
    ensures env.windowHostname.None? ==> (r.None? <==> ServerHost(context).None?)
    ensures env.windowHostname.None? && ServerHost(context).Some? && (withPort || ':' !in ServerHost(context).value) ==>
      r == ServerHost(context)
    ensures env.windowHostname.None? && ServerHost(context).Some? && !withPort ==>
      var h := ServerHost(context).value;
      && ':' !in r.value
      && StartsWith(h, r.value)
      && (|r.value| < |h| ==> h[|r.value|] == ':')
  {
    if env.windowHostname.Some? then env.windowHostname
    else
      match ServerHost(context)
      case None => None
      case Some(h) => if withPort || IndexOf(h, ':') == -1 then Some(h) else Some(h[..IndexOf(h, ':')])
  }

  /**
   * `isSandbox`: forced by `NEXT_PUBLIC_TEST_SANDBOX === "true"`, otherwise
   * whether the current host is a sandbox host. The source returns the falsy
   * host itself when there is none; here that is `false`.
   */
  predicate IsSandbox(env: Env, context: Option<PageContext>): (r: bool)
    ensures EnvVar(env, TEST_SANDBOX_VAR) == Some("true") ==> r
    ensures r && EnvVar(env, TEST_SANDBOX_VAR) != Some("true") ==>
      GetCurrentHost(env, context, false) == Some(SANDBOX_HOST)
  {
    EnvVar(env, TEST_SANDBOX_VAR) == Some("true")
    || (Truthy(GetCurrentHost(env, context, false)) && GetCurrentHost(env, context, false).value in SANDBOX_LOCATIONS)
  }

  /**
   * `isAllowedSandboxLocation`: everything is allowed outside a sandbox or
   * without a context, a path or a host; otherwise the path must be listed for
   * the host. A host with no list makes the lookup throw.
   */
  function IsAllowedSandboxLocation(env: Env, context: Option<PageContext>): (r: Result<bool, JsError>)
    ensures (context.None? || !Truthy(context.value.asPath) || !IsSandbox(env, context)
             || !Truthy(GetCurrentHost(env, context, false))) ==> r == Success(true)
    ensures r.Failure? ==> GetCurrentHost(env, context, false).value !in ALLOWED_SANDBOX_LOCATIONS
    ensures r == Success(false) ==>
      var host := GetCurrentHost(env, context, false).value;
      host in ALLOWED_SANDBOX_LOCATIONS && context.value.asPath.value !in ALLOWED_SANDBOX_LOCATIONS[host]
    ensures context.Some? && Truthy(context.value.asPath) && IsSandbox(env, context)
            && Truthy(GetCurrentHost(env, context, false)) ==>
      var host := GetCurrentHost(env, context, false).value;
      && (host in ALLOWED_SANDBOX_LOCATIONS ==>
            r == Success(context.value.asPath.value in ALLOWED_SANDBOX_LOCATIONS[host]))
      && (host !in ALLOWED_SANDBOX_LOCATIONS ==> r.Failure? && r.error.TypeError?)
  {
    if context.None? || !Truthy(context.value.asPath) || !IsSandbox(env, context)
       || !Truthy(GetCurrentHost(env, context, false)) then
      Success(true)
    else
      var host := GetCurrentHost(env, context, false).value;
      if host in ALLOWED_SANDBOX_LOCATIONS then Success(context.value.asPath.value in ALLOWED_SANDBOX_LOCATIONS[host])
      else Failure(TypeError("ALLOWED_SANDBOX_LOCATIONS[currentHost] is undefined"))
  }

  const NOT_A_SANDBOX_MESSAGE :=
    "No valid current host in sandbox location, or tried sandbox redirect in non-sandbox environment."

  /**
   * `getRedirectToSandboxLocation`: the first allowed path of the current
   * host; throws without a host or outside a sandbox.
   */
  function GetRedirectToSandboxLocation(env: Env, context: Option<PageContext>): (r: Result<string, JsError>)
    ensures r == Failure(Error(NOT_A_SANDBOX_MESSAGE)) <==>
      !Truthy(GetCurrentHost(env, context, false)) || !IsSandbox(env, context)
    ensures r.Success? ==>
      var host := GetCurrentHost(env, context, false).value;
      host in ALLOWED_SANDBOX_LOCATIONS && r.value == ALLOWED_SANDBOX_LOCATIONS[host][0]
    ensures Truthy(GetCurrentHost(env, context, false)) && IsSandbox(env, context) ==>
      var host := GetCurrentHost(env, context, false).value;
      && (host in ALLOWED_SANDBOX_LOCATIONS ==> r == Success(ALLOWED_SANDBOX_LOCATIONS[host][0]))
      && (host !in ALLOWED_SANDBOX_LOCATIONS ==> r.Failure? && r.error.TypeError?)
  {
    var host := GetCurrentHost(env, context, false);
    if !Truthy(host) || !IsSandbox(env, context) then
      Failure(Error(NOT_A_SANDBOX_MESSAGE))
    else if host.value in ALLOWED_SANDBOX_LOCATIONS then
      Success(ALLOWED_SANDBOX_LOCATIONS[host.value][0])
    else
      Failure(TypeError("ALLOWED_SANDBOX_LOCATIONS[currentHost] is undefined"))
  }

  /** The sandbox is forced by the environment, or the current host is the one sandbox host. */
  lemma IsSandboxCases(env: Env, context: Option<PageContext>)
    ensures IsSandbox(env, context) <==>
      EnvVar(env, TEST_SANDBOX_VAR) == Some("true") || GetCurrentHost(env, context, false) == Some(SANDBOX_HOST)
  {
  }

  /** Every sandbox host has an allow-list. */
  lemma SandboxHostsAreListed()
    ensures forall h | h in SANDBOX_LOCATIONS :: h in ALLOWED_SANDBOX_LOCATIONS
  {
  }

  /**
   * The allow-list lookup can only throw when the sandbox is forced by
   * `NEXT_PUBLIC_TEST_SANDBOX` on a host without a list.
   */
  lemma AllowedLookupFailsOnlyWhenForced(env: Env, context: Option<PageContext>)
    ensures IsAllowedSandboxLocation(env, context).Failure? ==> EnvVar(env, TEST_SANDBOX_VAR) == Some("true")
    ensures GetRedirectToSandboxLocation(env, context).Failure? ==>
      GetRedirectToSandboxLocation(env, context) == Failure(Error(NOT_A_SANDBOX_MESSAGE))
      || EnvVar(env, TEST_SANDBOX_VAR) == Some("true")
  {
    SandboxHostsAreListed();
  }

  /** A forced sandbox on any host without an allow-list makes both lookups throw a `TypeError`. */
  lemma ForcedSandboxOnUnlistedHost(env: Env, context: Option<PageContext>)
    requires EnvVar(env, TEST_SANDBOX_VAR) == Some("true")
    requires context.Some? && Truthy(context.value.asPath)
    requires Truthy(GetCurrentHost(env, context, false))
    requires GetCurrentHost(env, context, false).value !in ALLOWED_SANDBOX_LOCATIONS
    ensures IsAllowedSandboxLocation(env, context).Failure?
    ensures IsAllowedSandboxLocation(env, context).error.TypeError?
    ensures GetRedirectToSandboxLocation(env, context).Failure?
    ensures GetRedirectToSandboxLocation(env, context).error.TypeError?
  {
  }

  /** Such a host exists: a browser on `example.com` with the sandbox forced. */
  lemma ForcedSandboxOnExampleHost()
    ensures var env := Env(Some("example.com"), None, map[TEST_SANDBOX_VAR := "true"]);
      var context := Some(PageContext(Some("/"), None));
      && IsAllowedSandboxLocation(env, context).Failure?
      && GetRedirectToSandboxLocation(env, context).Failure?
  {
    var env := Env(Some("example.com"), None, map[TEST_SANDBOX_VAR := "true"]);
    var context := Some(PageContext(Some("/"), None));
    ForcedSandboxOnUnlistedHost(env, context);
  }

  /** The redirect target is itself an allowed location for the same host. */
  lemma RedirectTargetIsAllowed(env: Env, context: Option<PageContext>)
    requires GetRedirectToSandboxLocation(env, context).Success?
    ensures var target := GetRedirectToSandboxLocation(env, context).value;
      IsAllowedSandboxLocation(env, Some(PageContext(Some(target), ServerHost(context)))) == Success(true)
  {
    var target := GetRedirectToSandboxLocation(env, context).value;
    var moved := Some(PageContext(Some(target), ServerHost(context)));
    assert ServerHost(moved) == ServerHost(context);
    assert GetCurrentHost(env, moved, false) == GetCurrentHost(env, context, false);
  }

  /** `isStaging`: only in the browser, for a hostname starting with `staging`. */
  predicate IsStaging(env: Env): (r: bool)
    ensures env.windowHostname.None? ==> !r
  {
    env.windowHostname.Some? && StartsWith(env.windowHostname.value, "staging")
  }

  /** The host `getServerBaseUrl` classifies: the browser's hostname, else the request's host with its port. */
  function BaseUrlHost(env: Env, context: Option<PageContext>): Option<string> {
    if env.windowHostname.Some? then env.windowHostname else ServerHost(context)
  }

  predicate IsLocalHost(h: Option<string>) {
    h.Some? && (StartsWith(h.value, "localhost") || StartsWith(h.value, "192."))
  }

  predicate IsStagingHost(h: Option<string>) {
    h.Some? && !IsLocalHost(h) && StartsWith(h.value, "staging")
  }

  /** `isStaging()` agrees with the staging classification `getServerBaseUrl` makes in the browser. */
  lemma IsStagingMatchesBaseUrl(env: Env, context: Option<PageContext>)
    ensures IsStaging(env) <==> env.windowHostname.Some? && IsStagingHost(BaseUrlHost(env, context))
  {
    if IsStaging(env) {
      var h := env.windowHostname.value;
      assert h[0] == 's' && "localhost"[0] == 'l' && "192."[0] == '1';
    }
  }

  predicate IsProduction(env: Env) {
    EnvVar(env, NODE_ENV_VAR) == Some("production")
  }

  /**
   * `getServerBaseUrl`. In production only the staging classification of the
   * host matters. Otherwise `NEXT_PUBLIC_DEFAULT_BACKEND` wins over a
   * `devServer` item in `localStorage`, which wins over the host's default:
   * a local host talks to port 4200 of itself, any other host to the same
   * backend as in production.
   */
  method GetServerBaseUrl(env: Env, context: Option<PageContext>) returns (url: string)
    ensures IsProduction(env) ==>
      url == (if IsStagingHost(BaseUrlHost(env, context)) then STAGING_URL else PRODUCTION_URL)
    ensures !IsProduction(env) && Truthy(EnvVar(env, DEFAULT_BACKEND_VAR)) ==>
      url == EnvVar(env, DEFAULT_BACKEND_VAR).value
    ensures !IsProduction(env) && !Truthy(EnvVar(env, DEFAULT_BACKEND_VAR)) && Truthy(GetItem(env.localStorage, DEV_SERVER_KEY)) ==>
      url == GetItem(env.localStorage, DEV_SERVER_KEY).value
    ensures !IsProduction(env) && !Truthy(EnvVar(env, DEFAULT_BACKEND_VAR)) && !Truthy(GetItem(env.localStorage, DEV_SERVER_KEY)) ==>
      url == if IsLocalHost(BaseUrlHost(env, context))
             then "http://" + WithoutPort(BaseUrlHost(env, context).value) + ":4200/"
             else if IsStagingHost(BaseUrlHost(env, context)) then STAGING_URL
             else PRODUCTION_URL
  {
    var location := "";
    var isStaging := false;
    var isLocalhost := false;

    var currentHost := if env.windowHostname.Some? then env.windowHostname else ServerHost(context);
    if currentHost.Some? && (StartsWith(currentHost.value, "localhost") || StartsWith(currentHost.value, "192.")) {
      location := currentHost.value;
      isLocalhost := true;
    } else if currentHost.Some? && StartsWith(currentHost.value, "staging") {
      location := STAGING_BACKEND;
      isStaging := true;
    } else {
      location := PRODUCTION_BACKEND;
    }

    assert ':' !in STAGING_BACKEND && ':' !in PRODUCTION_BACKEND;
    // Remove the port if there is one.
    if IndexOf(location, ':') != -1 {
      location := location[..IndexOf(location, ':')];
    }

    var devServer := if isLocalhost then "http://" + location + ":4200/" else "https://" + location + "/";
    if env.localStorage.Some? {
      var data := GetItem(env.localStorage, DEV_SERVER_KEY);
      if Truthy(data) {
        devServer := data.value;
      }
    }
    if Truthy(EnvVar(env, DEFAULT_BACKEND_VAR)) {
      devServer := EnvVar(env, DEFAULT_BACKEND_VAR).value;
    }
    url := if IsProduction(env) then (if isStaging then STAGING_URL else PRODUCTION_URL) else devServer;
  }
}
