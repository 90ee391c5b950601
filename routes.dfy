/**
 * The patched Indiekit route table. `routes(Indiekit)` appends entries to one
 * module-level Express router in a fixed order: static and metadata routes,
 * the rate-limited session routes, the rate-limited public and well-known
 * mounts of every endpoint, the IndieAuth `authenticate` gate, and then the
 * authenticated pages and endpoint mounts, which carry no rate limiter.
 *
 * Handlers are opaque tokens; what the layout properties need is, for every
 * entry, its verb, path, whether it goes through the shared limiter and which
 * trust tier (`Kind`) it belongs to.
 */
module Routes {
  import opened Wrappers
  import opened JsEnv

  /** `router.use` (any method, path prefix), `router.get`, `router.post`. */
  datatype Verb = Use | Get | Post

  /** The trust tier an entry is registered in. */
  datatype Kind = Static | Session | Public | WellKnown | Internal | Gate | Authed

  /** The configuration of the one shared `limit` middleware. */
  datatype RateLimit = RateLimit(windowMs: nat, max: nat, standardHeaders: bool, legacyHeaders: bool, validate: bool)

  /** Fifteen minutes, at most 250 requests; the same instance guards every limited entry. */
  const Limiter := RateLimit(windowMs := 15 * 60 * 1000, max := 250, standardHeaders := true, legacyHeaders := false, validate := false)

  /** The limiter an entry runs before its handler, if any: always the one shared `limit`. */
  function LimiterOf(en: RouteEntry): (r: Option<RateLimit>)
    ensures r.Some? <==> en.limited
    ensures r.Some? ==> r.value.windowMs == 900000 && r.value.max == 250
    ensures r.Some? ==> r.value.standardHeaders && !r.value.legacyHeaders && !r.value.validate
  {
    if en.limited then Some(Limiter) else None
  }

  /** The IndieAuth helper the session routes and the gate are taken from. */
  datatype IndieAuth = IndieAuth(devMode: bool, me: Option<string>)

  /** An opaque Express router or middleware value held by an endpoint. */
  datatype SubRouter = SubRouter(id: nat)

  /** A plug-in as `installedPlugins` lists it. */
  datatype Plugin = Plugin(id: string, filePath: Option<string>)

  /** An endpoint plug-in: each routing field may be missing. */
  datatype Endpoint = Endpoint(
    mountPath: Option<string>,
    internalRoutes: Option<SubRouter>,   // `_routes`, a function of the Indiekit instance
    routesPublic: Option<SubRouter>,
    routesWellKnown: Option<SubRouter>,
    routes: Option<SubRouter>)

  /** The parts of the Indiekit instance `routes` reads. */
  datatype Indiekit = Indiekit(endpoints: seq<Endpoint>, installedPlugins: seq<Plugin>, publicationMe: Option<string>)

  /** The controller actions, as opaque tokens. */
  datatype Action =
    | GetScripts | GetStyles | GetAppIcon | GetShortcutIcon
    | ServiceWorker | OfflinePage | FeedJf2 | WebManifest | ClientMetadata
    | SessionLogin | SessionLogout | Homepage | PluginList | PluginView | StatusPage

  /** Where `express.static` serves from: the frontend's assets, or `path.join(filePath, "assets")`. */
  datatype StaticRoot = FrontendAssets | PluginAssetDir(filePath: string)

  datatype Handler =
    | NoIndex                                        // sets `X-Robots-Tag: noindex`, then `next()`
    | TextResponse(contentType: string, body: string)
    | ServeStatic(root: StaticRoot, maxAge: Option<string>)
    | Controller(action: Action)
    | IndieAuthLogin(auth: IndieAuth)
    | IndieAuthAuthorize(auth: IndieAuth)
    | IndieAuthAuthenticate(auth: IndieAuth)
    | InternalOf(r: SubRouter)                       // `endpoint._routes(Indiekit)`
    | Mounted(r: SubRouter)

  /** One registration: verb, optional path, whether the shared limiter runs first, tier and handler. */
  datatype RouteEntry = RouteEntry(verb: Verb, path: Option<string>, limited: bool, kind: Kind, handler: Handler)

  /** The module-level router: its stack of registrations, in order. */
  class Router {
    var stack: seq<RouteEntry>

    constructor ()
      ensures stack == []
    {
      stack := [];
    }

    method Use(path: Option<string>, limited: bool, kind: Kind, handler: Handler)
      modifies this
      ensures stack == old(stack) + [RouteEntry(Verb.Use, path, limited, kind, handler)]
    {
      stack := stack + [RouteEntry(Verb.Use, path, limited, kind, handler)];
    }

    method Get(path: string, limited: bool, kind: Kind, handler: Handler)
      modifies this
      ensures stack == old(stack) + [RouteEntry(Verb.Get, Some(path), limited, kind, handler)]
    {
      stack := stack + [RouteEntry(Verb.Get, Some(path), limited, kind, handler)];
    }

    method Post(path: string, limited: bool, kind: Kind, handler: Handler)
      modifies this
      ensures stack == old(stack) + [RouteEntry(Verb.Post, Some(path), limited, kind, handler)]
    {
      stack := stack + [RouteEntry(Verb.Post, Some(path), limited, kind, handler)];
    }
  }

  const RobotsBody := "User-agent: *\nDisallow: /"

  /** `devMode` is on only for `NODE_ENV=development`. */
  function IndieAuthOf(ik: Indiekit, nodeEnv: Option<string>): IndieAuth {
    IndieAuth(devMode := nodeEnv == Some("development"), me := ik.publicationMe)
  }

  /** The no-index header, robots.txt, the frontend assets and the service worker. */
  function StaticRoutes(): seq<RouteEntry> {
    [ RouteEntry(Use, None, false, Static, NoIndex),
      RouteEntry(Get, Some("/robots.txt"), false, Static, TextResponse("text/plain", RobotsBody)),
      RouteEntry(Use, Some("/assets"), false, Static, ServeStatic(FrontendAssets, Some("7d"))),
      RouteEntry(Get, Some("/assets/app-:hash.js"), false, Static, Controller(GetScripts)),
      RouteEntry(Get, Some("/assets/app-:hash.css"), false, Static, Controller(GetStyles)),
      RouteEntry(Get, Some("/assets/app-icon-:size-:purpose.png"), false, Static, Controller(GetAppIcon)),
      RouteEntry(Get, Some("/assets/shortcut-icon-:size-:name.png"), false, Static, Controller(GetShortcutIcon)),
      RouteEntry(Get, Some("/serviceworker.js"), false, Static, Controller(ServiceWorker)),
      RouteEntry(Get, Some("/offline"), false, Static, Controller(OfflinePage)) ]
  }

  /** The static mount serving one plug-in's own assets. */
  function AssetMount(p: Plugin): RouteEntry
    requires Truthy(p.filePath)
  {
    RouteEntry(Use, Some("/assets/" + p.id), false, Static, ServeStatic(PluginAssetDir(p.filePath.value), None))
  }

  /** The entries one installed plug-in adds: an asset mount when it has a `filePath`. */
  function PluginPart(p: Plugin): seq<RouteEntry> {
    if Truthy(p.filePath) then [AssetMount(p)] else []
  }

  /** One asset mount per installed plug-in with a `filePath`, in `installedPlugins` order. */
  function PluginAssets(ps: seq<Plugin>): seq<RouteEntry> {
    Flatten(ps, PluginPart)
  }

  /** What a loop over `xs` registers when it adds `part(x)` for each `x` in turn. */
  function Flatten<T>(xs: seq<T>, part: T -> seq<RouteEntry>): seq<RouteEntry> {
    if |xs| == 0 then [] else Flatten(xs[..|xs| - 1], part) + part(xs[|xs| - 1])
  }

  /** The feed, the web app manifest and the client metadata document. */
  function MetaRoutes(): seq<RouteEntry> {
    [ RouteEntry(Get, Some("/feed.jf2"), false, Static, Controller(FeedJf2)),
      RouteEntry(Get, Some("/app.webmanifest"), false, Static, Controller(WebManifest)),
      RouteEntry(Get, Some("/id"), false, Static, Controller(ClientMetadata)) ]
  }

  /** Login, the IndieAuth callback and logout; all but logout go through the limiter. */
  function SessionRoutes(auth: IndieAuth): seq<RouteEntry> {
    [ RouteEntry(Get, Some("/session/login"), true, Session, Controller(SessionLogin)),
      RouteEntry(Post, Some("/session/login"), true, Session, IndieAuthLogin(auth)),
      RouteEntry(Get, Some("/session/auth"), true, Session, IndieAuthAuthorize(auth)),
      RouteEntry(Get, Some("/session/logout"), false, Session, Controller(SessionLogout)) ]
  }

  /**
   * What one endpoint adds before the gate: its internal routes, then its
   * public routes, both at its mount path and only when it has one; then its
   * well-known routes at `/.well-known/` whatever the mount path. All three go
   * through the limiter.
   */
  function EndpointPublic(e: Endpoint): seq<RouteEntry> {
    (if Truthy(e.mountPath) && e.internalRoutes.Some?
     then [RouteEntry(Use, e.mountPath, true, Internal, InternalOf(e.internalRoutes.value))] else [])
    + (if Truthy(e.mountPath) && e.routesPublic.Some?
       then [RouteEntry(Use, e.mountPath, true, Public, Mounted(e.routesPublic.value))] else [])
    + (if e.routesWellKnown.Some?
       then [RouteEntry(Use, Some("/.well-known/"), true, WellKnown, Mounted(e.routesWellKnown.value))] else [])
  }

  /** The first loop over `endpoints`. */
  function PublicMounts(es: seq<Endpoint>): seq<RouteEntry> {
    Flatten(es, EndpointPublic)
  }

  function GateEntry(auth: IndieAuth): RouteEntry {
    RouteEntry(Use, None, false, Gate, IndieAuthAuthenticate(auth))
  }

  /** The homepage, the plug-in pages and the status page. */
  function AdminPages(): seq<RouteEntry> {
    [ RouteEntry(Get, Some("/"), false, Authed, Controller(Homepage)),
      RouteEntry(Get, Some("/plugins"), false, Authed, Controller(PluginList)),
      RouteEntry(Get, Some("/plugins/:pluginId"), false, Authed, Controller(PluginView)),
      RouteEntry(Get, Some("/status"), false, Authed, Controller(StatusPage)) ]
  }

  /** Whether an endpoint gets an authenticated mount. */
  predicate HasAuthedMount(e: Endpoint) {
    Truthy(e.mountPath) && e.routes.Some?
  }

  function AuthedMount(e: Endpoint): RouteEntry
    requires HasAuthedMount(e)
  {
    RouteEntry(Use, e.mountPath, false, Authed, Mounted(e.routes.value))
  }

  /** The entry one endpoint adds after the gate. */
  function AuthedPart(e: Endpoint): seq<RouteEntry> {
    if HasAuthedMount(e) then [AuthedMount(e)] else []
  }

  /** The second loop over `endpoints`. */
  function AuthedMounts(es: seq<Endpoint>): seq<RouteEntry> {
    Flatten(es, AuthedPart)
  }

  /** Everything registered before the gate. */
  function BeforeGate(ik: Indiekit, nodeEnv: Option<string>): seq<RouteEntry> {
    StaticLayer(ik) + SessionRoutes(IndieAuthOf(ik, nodeEnv)) + PublicMounts(ik.endpoints)
  }

  /** The static routes, the plug-in assets and the metadata routes, in that order. */
  function StaticLayer(ik: Indiekit): seq<RouteEntry> {
    StaticRoutes() + PluginAssets(ik.installedPlugins) + MetaRoutes()
  }

  /** Everything registered after the gate. */
  function AfterGate(ik: Indiekit): seq<RouteEntry> {
    AdminPages() + AuthedMounts(ik.endpoints)
  }

  /** The whole table one call of `routes` appends. */
  function RouteTable(ik: Indiekit, nodeEnv: Option<string>): seq<RouteEntry> {
    BeforeGate(ik, nodeEnv) + [GateEntry(IndieAuthOf(ik, nodeEnv))] + AfterGate(ik)
  }

  /** Where the gate sits in the table. */
  function GateIndex(ik: Indiekit, nodeEnv: Option<string>): nat {
    |BeforeGate(ik, nodeEnv)|
  }

  /** Where the session routes start. */
  function SessionStart(ik: Indiekit): nat {
    |StaticLayer(ik)|
  }

  /** routes.js lines 52-76: the no-index header, robots.txt, the frontend assets and the service worker. */
  method AddStatic(router: Router)
    modifies router
    ensures router.stack == old(router.stack) + StaticRoutes()
  {
    router.Use(None, false, Static, NoIndex);
    router.Get("/robots.txt", false, Static, TextResponse("text/plain", RobotsBody));
    router.Use(Some("/assets"), false, Static, ServeStatic(FrontendAssets, Some("7d")));
    router.Get("/assets/app-:hash.js", false, Static, Controller(GetScripts));
    router.Get("/assets/app-:hash.css", false, Static, Controller(GetStyles));
    router.Get("/assets/app-icon-:size-:purpose.png", false, Static, Controller(GetAppIcon));
    router.Get("/assets/shortcut-icon-:size-:name.png", false, Static, Controller(GetShortcutIcon));
    router.Get("/serviceworker.js", false, Static, Controller(ServiceWorker));
    router.Get("/offline", false, Static, Controller(OfflinePage));
  }

  /** routes.js lines 79-84: the loop over `installedPlugins`. */
  method AddPluginAssets(router: Router, ps: seq<Plugin>)
    modifies router
    ensures router.stack == old(router.stack) + PluginAssets(ps)
  {
    ghost var start := router.stack;
    for i := 0 to |ps|
      invariant router.stack == start + PluginAssets(ps[..i])
    {
      var p := ps[i];
      if p.filePath.Some? && p.filePath.value != "" {
        router.Use(Some("/assets/" + p.id), false, Static, ServeStatic(PluginAssetDir(p.filePath.value), None));
      }
      assert ps[..i + 1][..i] == ps[..i];
    }
    assert ps[..|ps|] == ps;
  }

  /** routes.js lines 87-99: feed, manifest, client metadata, then the session routes. */
  method AddMetaAndSession(router: Router, auth: IndieAuth)
    modifies router
    ensures router.stack == old(router.stack) + MetaRoutes() + SessionRoutes(auth)
  {
    router.Get("/feed.jf2", false, Static, Controller(FeedJf2));
    router.Get("/app.webmanifest", false, Static, Controller(WebManifest));
    router.Get("/id", false, Static, Controller(ClientMetadata));
    router.Get("/session/login", true, Session, Controller(SessionLogin));
    router.Post("/session/login", true, Session, IndieAuthLogin(auth));
    router.Get("/session/auth", true, Session, IndieAuthAuthorize(auth));
    router.Get("/session/logout", false, Session, Controller(SessionLogout));
  }

  /** routes.js lines 106-116: the public part of one endpoint. */
  method AddEndpointPublic(router: Router, e: Endpoint)
    modifies router
    ensures router.stack == old(router.stack) + EndpointPublic(e)
  {
    ghost var start := router.stack;
    ghost var internal := if Truthy(e.mountPath) && e.internalRoutes.Some?
      then [RouteEntry(Use, e.mountPath, true, Internal, InternalOf(e.internalRoutes.value))] else [];
    ghost var public := if Truthy(e.mountPath) && e.routesPublic.Some?
      then [RouteEntry(Use, e.mountPath, true, Public, Mounted(e.routesPublic.value))] else [];
    ghost var wellKnown := if e.routesWellKnown.Some?
      then [RouteEntry(Use, Some("/.well-known/"), true, WellKnown, Mounted(e.routesWellKnown.value))] else [];
    if e.mountPath.Some? && e.mountPath.value != "" && e.internalRoutes.Some? {
      router.Use(e.mountPath, true, Internal, InternalOf(e.internalRoutes.value));
    }
    assert router.stack == start + internal;
    if e.mountPath.Some? && e.mountPath.value != "" && e.routesPublic.Some? {
      router.Use(e.mountPath, true, Public, Mounted(e.routesPublic.value));
    }
    assert router.stack == start + internal + public;
    Regroup(start, internal, public);
    ghost var before := router.stack;
    if e.routesWellKnown.Some? {
      router.Use(Some("/.well-known/"), true, WellKnown, Mounted(e.routesWellKnown.value));
    }
    assert router.stack == before + wellKnown;
    Regroup(start, internal + public, wellKnown);
  }

  /** routes.js lines 102-117: the first loop over `endpoints`. */
  method AddPublicMounts(router: Router, es: seq<Endpoint>)
    modifies router
    ensures router.stack == old(router.stack) + PublicMounts(es)
  {
    ghost var start := router.stack;
    for i := 0 to |es|
      invariant router.stack == start + PublicMounts(es[..i])
    {
      AddEndpointPublic(router, es[i]);
      assert es[..i + 1][..i] == es[..i];
    }
    assert es[..|es|] == es;
  }

  /** routes.js lines 128-135: the homepage, plug-in and status pages. */
  method AddAdminPages(router: Router)
    modifies router
    ensures router.stack == old(router.stack) + AdminPages()
  {
    router.Get("/", false, Authed, Controller(Homepage));
    router.Get("/plugins", false, Authed, Controller(PluginList));
    router.Get("/plugins/:pluginId", false, Authed, Controller(PluginView));
    router.Get("/status", false, Authed, Controller(StatusPage));
  }

  /** routes.js lines 138-142: the second loop over `endpoints`. */
  method AddAuthedMounts(router: Router, es: seq<Endpoint>)
    modifies router
    ensures router.stack == old(router.stack) + AuthedMounts(es)
  {
    ghost var start := router.stack;
    for i := 0 to |es|
      invariant router.stack == start + AuthedMounts(es[..i])
    {
      var e := es[i];
      if e.mountPath.Some? && e.mountPath.value != "" && e.routes.Some? {
        router.Use(e.mountPath, false, Authed, Mounted(e.routes.value));
      }
      assert es[..i + 1][..i] == es[..i];
    }
    assert es[..|es|] == es;
  }

  /**
   * `routes(Indiekit)`: append the whole table to the router, section by
   * section, with the gate between the public and the authenticated part. The
   * router is shared by every call, so a second call appends a second copy.
   */
  method BuildRoutes(router: Router, ik: Indiekit, nodeEnv: Option<string>)
    modifies router
    ensures router.stack == old(router.stack) + RouteTable(ik, nodeEnv)
  {
    ghost var start := router.stack;
    var auth := IndieAuthOf(ik, nodeEnv);
    AddStatic(router);
    ghost var done := StaticRoutes();
    AddPluginAssets(router, ik.installedPlugins);
    Regroup(start, done, PluginAssets(ik.installedPlugins));
    done := done + PluginAssets(ik.installedPlugins);
    ghost var before := router.stack;
    AddMetaAndSession(router, auth);
    Regroup(start, done, MetaRoutes());
    done := done + MetaRoutes();
    assert done == StaticLayer(ik);
    Regroup(start, done, SessionRoutes(auth));
    done := done + SessionRoutes(auth);
    AddPublicMounts(router, ik.endpoints);
    Regroup(start, done, PublicMounts(ik.endpoints));
    done := done + PublicMounts(ik.endpoints);
    assert done == BeforeGate(ik, nodeEnv);
    router.Use(None, false, Gate, IndieAuthAuthenticate(auth));
    Regroup(start, done, [GateEntry(auth)]);
    done := done + [GateEntry(auth)];
    AddAdminPages(router);
    Regroup(start, done, AdminPages());
    done := done + AdminPages();
    AddAuthedMounts(router, ik.endpoints);
    Regroup(start, done, AuthedMounts(ik.endpoints));
    done := done + AuthedMounts(ik.endpoints);
    Regroup(BeforeGate(ik, nodeEnv) + [GateEntry(auth)], AdminPages(), AuthedMounts(ik.endpoints));
  }

  lemma Regroup(s: seq<RouteEntry>, a: seq<RouteEntry>, b: seq<RouteEntry>)
    ensures s + a + b == s + (a + b)
  {
  }

  // ---------------------------------------------------------------------
  // Layout of the table

  /** The tiers in registration order: static, session, public, gate, authenticated. */
  function Tier(k: Kind): nat {
    match k
    case Static => 0
    case Session => 1
    case Public | WellKnown | Internal => 2
    case Gate => 3
    case Authed => 4
  }

  predicate InTier(s: seq<RouteEntry>, n: nat) {
    forall i :: 0 <= i < |s| ==> Tier(s[i].kind) == n
  }

  predicate AllLimited(s: seq<RouteEntry>, limited: bool) {
    forall i :: 0 <= i < |s| ==> s[i].limited == limited
  }

  /** Running the loop over `a + b` registers what it registers for `a`, then for `b`. */
  lemma {:induction false} FlattenAppend<T>(a: seq<T>, b: seq<T>, part: T -> seq<RouteEntry>)
    ensures Flatten(a + b, part) == Flatten(a, part) + Flatten(b, part)
  {
    if |b| == 0 {
      assert a + b == a;
    } else {
      var b' := b[..|b| - 1];
      assert (a + b)[..|a + b| - 1] == a + b';
      assert (a + b)[|a + b| - 1] == b[|b| - 1];
      FlattenAppend(a, b', part);
    }
  }

  /** An entry is registered by the loop exactly when some element's part holds it. */
  lemma {:induction false} FlattenMember<T>(xs: seq<T>, part: T -> seq<RouteEntry>, x: RouteEntry)
    ensures x in Flatten(xs, part) <==> exists k :: 0 <= k < |xs| && x in part(xs[k])
  {
    if |xs| > 0 {
      var n := |xs| - 1;
      var init := xs[..n];
      FlattenMember(init, part, x);
      if x in Flatten(init, part) {
        var k :| 0 <= k < |init| && x in part(init[k]);
        assert xs[k] == init[k];
      }
      if exists k :: 0 <= k < |xs| && x in part(xs[k]) {
        var k :| 0 <= k < |xs| && x in part(xs[k]);
        if k < n {
          assert init[k] == xs[k];
        }
      }
    }
  }

  /** When every part is in tier `n` with limiter flag `l`, so is the whole loop's output. */
  lemma {:induction false} FlattenShape<T>(xs: seq<T>, part: T -> seq<RouteEntry>, n: nat, l: bool)
    requires forall k :: 0 <= k < |xs| ==> InTier(part(xs[k]), n) && AllLimited(part(xs[k]), l)
    ensures InTier(Flatten(xs, part), n) && AllLimited(Flatten(xs, part), l)
  {
    if |xs| > 0 {
      var init := xs[..|xs| - 1];
      assert forall k :: 0 <= k < |init| ==> init[k] == xs[k];
      FlattenShape(init, part, n, l);
    }
  }

  /** Adding plug-ins at the end adds their mounts at the end: the loop keeps `installedPlugins` order. */
  lemma PluginAssetsAppend(a: seq<Plugin>, b: seq<Plugin>)
    ensures PluginAssets(a + b) == PluginAssets(a) + PluginAssets(b)
  {
    FlattenAppend(a, b, PluginPart);
  }

  /** A plug-in asset mount exists exactly for the installed plug-ins that have a `filePath`. */
  lemma PluginAssetsMember(ps: seq<Plugin>, x: RouteEntry)
    ensures x in PluginAssets(ps) <==> exists k :: 0 <= k < |ps| && Truthy(ps[k].filePath) && x == AssetMount(ps[k])
  {
    FlattenMember(ps, PluginPart, x);
    if x in PluginAssets(ps) {
      var k :| 0 <= k < |ps| && x in PluginPart(ps[k]);
      assert Truthy(ps[k].filePath) && x == AssetMount(ps[k]);
    }
    if exists k :: 0 <= k < |ps| && Truthy(ps[k].filePath) && x == AssetMount(ps[k]) {
      var k :| 0 <= k < |ps| && Truthy(ps[k].filePath) && x == AssetMount(ps[k]);
      assert x in PluginPart(ps[k]);
    }
  }

  /** Plug-in asset mounts are static, unlimited `use` entries. */
  lemma PluginAssetsShape(ps: seq<Plugin>)
    ensures InTier(PluginAssets(ps), 0) && AllLimited(PluginAssets(ps), false)
  {
    FlattenShape(ps, PluginPart, 0, false);
  }

  /**
   * One endpoint's public part: every entry is limited; the well-known one is
   * at `/.well-known/`; the others sit at the endpoint's mount path and exist
   * only when that path is truthy.
   */
  lemma EndpointPublicShape(e: Endpoint)
    ensures InTier(EndpointPublic(e), 2) && AllLimited(EndpointPublic(e), true)
    ensures forall i :: 0 <= i < |EndpointPublic(e)| && EndpointPublic(e)[i].kind == WellKnown ==>
      EndpointPublic(e)[i].path == Some("/.well-known/")
    ensures forall i :: 0 <= i < |EndpointPublic(e)| && EndpointPublic(e)[i].kind != WellKnown ==>
      Truthy(e.mountPath) && EndpointPublic(e)[i].path == e.mountPath
  {
  }

  /**
   * Which entries one endpoint's public part holds: internal routes exactly
   * when it has a truthy mount path and `internalRoutes`, public routes
   * exactly when it has one and `routesPublic`, well-known routes exactly when
   * it has `routesWellKnown`; internal comes before public before well-known.
   */
  lemma EndpointPublicParts(e: Endpoint)
    ensures (exists i :: 0 <= i < |EndpointPublic(e)| && EndpointPublic(e)[i].kind == Internal)
      <==> Truthy(e.mountPath) && e.internalRoutes.Some?
    ensures (exists i :: 0 <= i < |EndpointPublic(e)| && EndpointPublic(e)[i].kind == Public)
      <==> Truthy(e.mountPath) && e.routesPublic.Some?
    ensures (exists i :: 0 <= i < |EndpointPublic(e)| && EndpointPublic(e)[i].kind == WellKnown)
      <==> e.routesWellKnown.Some?
    ensures forall i, j :: 0 <= i < j < |EndpointPublic(e)| ==>
      Rank(EndpointPublic(e)[i].kind) < Rank(EndpointPublic(e)[j].kind)
  {
    var t := EndpointPublic(e);
    var a := if Truthy(e.mountPath) && e.internalRoutes.Some? then 1 else 0;
    var b := if Truthy(e.mountPath) && e.routesPublic.Some? then 1 else 0;
    if a == 1 { assert t[0].kind == Internal; }
    if b == 1 { assert t[a].kind == Public; }
    if e.routesWellKnown.Some? { assert t[a + b].kind == WellKnown; }
  }

  /** The order of an endpoint's public entries: internal, public, well-known. */
  function Rank(k: Kind): nat {
    match k
    case Internal => 0
    case Public => 1
    case _ => 2
  }

  lemma PublicMountsAppend(a: seq<Endpoint>, b: seq<Endpoint>)
    ensures PublicMounts(a + b) == PublicMounts(a) + PublicMounts(b)
  {
    FlattenAppend(a, b, EndpointPublic);
  }

  /** The public part of the table is made of the endpoints' public parts. */
  lemma PublicMountsMember(es: seq<Endpoint>, x: RouteEntry)
    ensures x in PublicMounts(es) <==> exists k :: 0 <= k < |es| && x in EndpointPublic(es[k])
  {
    FlattenMember(es, EndpointPublic, x);
  }

  /** Every entry of the first endpoint loop goes through the limiter. */
  lemma PublicMountsShape(es: seq<Endpoint>)
    ensures InTier(PublicMounts(es), 2) && AllLimited(PublicMounts(es), true)
  {
    forall k | 0 <= k < |es| ensures InTier(EndpointPublic(es[k]), 2) && AllLimited(EndpointPublic(es[k]), true) {
      EndpointPublicShape(es[k]);
    }
    FlattenShape(es, EndpointPublic, 2, true);
  }

  /** An endpoint without a truthy mount path contributes well-known mounts only, and nothing after the gate. */
  lemma NoMountPathOnlyWellKnown(e: Endpoint)
    requires !Truthy(e.mountPath)
    ensures forall i :: 0 <= i < |EndpointPublic(e)| ==> EndpointPublic(e)[i].kind == WellKnown
    ensures AuthedMounts([e]) == []
  {
    EndpointPublicShape(e);
    assert [e][..0] == [];
    assert AuthedMounts([e]) == AuthedMounts([]) + AuthedPart(e);
  }

  lemma AuthedMountsAppend(a: seq<Endpoint>, b: seq<Endpoint>)
    ensures AuthedMounts(a + b) == AuthedMounts(a) + AuthedMounts(b)
  {
    FlattenAppend(a, b, AuthedPart);
  }

  /** An endpoint's `routes` is mounted at its `mountPath` exactly when both are there. */
  lemma AuthedMountsMember(es: seq<Endpoint>, x: RouteEntry)
    ensures x in AuthedMounts(es) <==> exists k :: 0 <= k < |es| && HasAuthedMount(es[k]) && x == AuthedMount(es[k])
  {
    FlattenMember(es, AuthedPart, x);
    if x in AuthedMounts(es) {
      var k :| 0 <= k < |es| && x in AuthedPart(es[k]);
      assert HasAuthedMount(es[k]) && x == AuthedMount(es[k]);
    }
    if exists k :: 0 <= k < |es| && HasAuthedMount(es[k]) && x == AuthedMount(es[k]) {
      var k :| 0 <= k < |es| && HasAuthedMount(es[k]) && x == AuthedMount(es[k]);
      assert x in AuthedPart(es[k]);
    }
  }

  /** Authenticated mounts carry no limiter. */
  lemma AuthedMountsShape(es: seq<Endpoint>)
    ensures InTier(AuthedMounts(es), 4) && AllLimited(AuthedMounts(es), false)
  {
    FlattenShape(es, AuthedPart, 4, false);
  }

  /** The tier an entry at position `i` has in a table made of the five layers. */
  function TierAt(i: nat, a: nat, b: nat, c: nat): nat {
    if i < a then 0 else if i < a + b then 1 else if i < a + b + c then 2 else if i == a + b + c then 3 else 4
  }

  /** Five layers with the tiers 0 to 4 concatenate to a table whose tiers never go down. */
  lemma Layered(x: seq<RouteEntry>, sr: seq<RouteEntry>, y: seq<RouteEntry>, g: RouteEntry, z: seq<RouteEntry>)
    requires InTier(x, 0) && InTier(sr, 1) && InTier(y, 2) && Tier(g.kind) == 3 && InTier(z, 4)
    requires AllLimited(x, false) && !g.limited && AllLimited(z, false)
    ensures var t := x + sr + y + [g] + z;
      && (forall i :: 0 <= i < |t| ==> Tier(t[i].kind) == TierAt(i, |x|, |sr|, |y|))
      && (forall i :: 0 <= i < |t| && t[i].limited ==> |x| <= i < |x| + |sr| + |y|)
      && t[|x|..|x| + |sr|] == sr && t[|x| + |sr| + |y|] == g
  {
    var t := x + sr + y + [g] + z;
    var n := |x| + |sr| + |y|;
    forall i | 0 <= i < |t|
      ensures Tier(t[i].kind) == TierAt(i, |x|, |sr|, |y|)
      ensures t[i].limited ==> |x| <= i < n
    {
      if i < |x| {
        assert t[i] == x[i];
      } else if i < |x| + |sr| {
        assert t[i] == sr[i - |x|];
      } else if i < n {
        assert t[i] == y[i - |x| - |sr|];
      } else if i > n {
        assert t[i] == z[i - n - 1];
      }
    }
    assert t[|x|..|x| + |sr|] == sr;
  }

  /** Two lists in the same tier with the same limiter flag concatenate to one. */
  lemma ConcatShape(a: seq<RouteEntry>, b: seq<RouteEntry>, n: nat, l: bool)
    requires InTier(a, n) && InTier(b, n) && AllLimited(a, l) && AllLimited(b, l)
    ensures InTier(a + b, n) && AllLimited(a + b, l)
  {
    forall i | 0 <= i < |a + b| ensures Tier((a + b)[i].kind) == n && (a + b)[i].limited == l {
      if i < |a| { assert (a + b)[i] == a[i]; } else { assert (a + b)[i] == b[i - |a|]; }
    }
  }

  /** The static layer is static and unlimited; so is everything after the gate except its tier. */
  lemma OuterLayers(ik: Indiekit)
    ensures InTier(StaticLayer(ik), 0) && AllLimited(StaticLayer(ik), false)
    ensures InTier(AfterGate(ik), 4) && AllLimited(AfterGate(ik), false)
  {
    PluginAssetsShape(ik.installedPlugins);
    ConcatShape(StaticRoutes(), PluginAssets(ik.installedPlugins), 0, false);
    ConcatShape(StaticRoutes() + PluginAssets(ik.installedPlugins), MetaRoutes(), 0, false);
    AuthedMountsShape(ik.endpoints);
    ConcatShape(AdminPages(), AuthedMounts(ik.endpoints), 4, false);
  }

  /** What a table whose tier at every position is fixed by the layer boundaries looks like. */
  lemma TierConsequences(t: seq<RouteEntry>, a: nat, b: nat, c: nat)
    requires a + b + c < |t|
    requires forall i :: 0 <= i < |t| ==> Tier(t[i].kind) == TierAt(i, a, b, c)
    requires forall i :: 0 <= i < |t| && t[i].limited ==> a <= i < a + b + c
    requires forall i :: a + b <= i < a + b + c ==> t[i].limited
    ensures var g := a + b + c;
      && (forall i, j :: 0 <= i < j < |t| ==> Tier(t[i].kind) <= Tier(t[j].kind))
      && (forall i :: 0 <= i < |t| ==> (t[i].kind == Static <==> i < a))
      && (forall i :: 0 <= i < |t| ==> (t[i].kind == Session <==> a <= i < a + b))
      && (forall i :: 0 <= i < |t| ==> (t[i].kind == Gate <==> i == g))
      && (forall i :: 0 <= i < |t| ==> (t[i].kind == Authed <==> g < i))
      && (forall i :: 0 <= i < |t| && t[i].limited ==> i < g)
      && (forall i :: 0 <= i < |t| && g < i ==> !t[i].limited)
      && (forall i :: 0 <= i < |t| && Tier(t[i].kind) == 2 ==> t[i].limited)
  {
  }

  /**
   * The layout of the whole table: the tiers never go down (static, session,
   * public and well-known, gate, authenticated); there is exactly one gate;
   * everything that goes through the limiter precedes it, and everything after
   * it is authenticated and unlimited; every public, internal and well-known
   * mount goes through the limiter.
   */
  lemma TableLayout(ik: Indiekit, nodeEnv: Option<string>)
    ensures var t := RouteTable(ik, nodeEnv); var g := GateIndex(ik, nodeEnv);
      && g < |t| && t[g] == GateEntry(IndieAuthOf(ik, nodeEnv))
      && (forall i, j :: 0 <= i < j < |t| ==> Tier(t[i].kind) <= Tier(t[j].kind))
      && (forall i :: 0 <= i < |t| ==> (t[i].kind == Gate <==> i == g))
      && (forall i :: 0 <= i < |t| ==> (t[i].kind == Authed <==> g < i))
      && (forall i :: 0 <= i < |t| && t[i].limited ==> i < g)
      && (forall i :: 0 <= i < |t| && g < i ==> !t[i].limited)
      && (forall i :: 0 <= i < |t| && Tier(t[i].kind) == 2 ==> t[i].limited)
  {
    var x := StaticLayer(ik);
    var sr := SessionRoutes(IndieAuthOf(ik, nodeEnv));
    var y := PublicMounts(ik.endpoints);
    TableTiers(ik, nodeEnv);
    TierConsequences(RouteTable(ik, nodeEnv), |x|, |sr|, |y|);
  }

  /**
   * Every limited entry of the table sits before the gate and goes through
   * the same `limit` instance; nothing after the gate has a limiter.
   */
  lemma SharedLimiter(ik: Indiekit, nodeEnv: Option<string>)
    ensures var t := RouteTable(ik, nodeEnv);
      forall i :: 0 <= i < |t| ==>
        (LimiterOf(t[i]).Some? ==> LimiterOf(t[i]) == Some(Limiter) && i < GateIndex(ik, nodeEnv))
        && (GateIndex(ik, nodeEnv) <= i ==> LimiterOf(t[i]).None?)
  {
    TableLayout(ik, nodeEnv);
  }

  /** The tier of every entry of the table, and where the limiter applies. */
  lemma TableTiers(ik: Indiekit, nodeEnv: Option<string>)
    ensures var t := RouteTable(ik, nodeEnv);
      var a := |StaticLayer(ik)|; var b := |SessionRoutes(IndieAuthOf(ik, nodeEnv))|;
      var c := |PublicMounts(ik.endpoints)|;
      && a + b + c < |t| && a + b + c == GateIndex(ik, nodeEnv)
      && t[a + b + c] == GateEntry(IndieAuthOf(ik, nodeEnv))
      && t[a..a + b] == SessionRoutes(IndieAuthOf(ik, nodeEnv))
      && (forall i :: 0 <= i < |t| ==> Tier(t[i].kind) == TierAt(i, a, b, c))
      && (forall i :: 0 <= i < |t| && t[i].limited ==> a <= i < a + b + c)
      && (forall i :: a + b <= i < a + b + c ==> t[i].limited)
  {
    var auth := IndieAuthOf(ik, nodeEnv);
    var x := StaticLayer(ik);
    var sr := SessionRoutes(auth);
    var y := PublicMounts(ik.endpoints);
    var z := AfterGate(ik);
    OuterLayers(ik);
    PublicMountsShape(ik.endpoints);
    var t := x + sr + y + [GateEntry(auth)] + z;
    assert t == RouteTable(ik, nodeEnv);
    Layered(x, sr, y, GateEntry(auth), z);
    forall i | |x| + |sr| <= i < |x| + |sr| + |y| ensures t[i].limited {
      assert t[i] == y[i - |x| - |sr|];
    }
  }

  /**
   * The static part and the session part: the first entry sets the no-index
   * header, the second answers `/robots.txt` with the deny-all text; static
   * entries come before every session entry and carry no limiter; the four
   * session entries sit together, login and the IndieAuth callback limited,
   * logout not.
   */
  lemma StaticAndSession(ik: Indiekit, nodeEnv: Option<string>)
    ensures var t := RouteTable(ik, nodeEnv); var s := SessionStart(ik);
      && s + 4 <= |t|
      && t[0] == RouteEntry(Use, None, false, Static, NoIndex)
      && t[1] == RouteEntry(Get, Some("/robots.txt"), false, Static, TextResponse("text/plain", "User-agent: *\nDisallow: /"))
      && (forall i :: 0 <= i < |t| ==> (t[i].kind == Static <==> i < s))
      && (forall i :: 0 <= i < |t| ==> (t[i].kind == Session <==> s <= i < s + 4))
      && (forall i :: 0 <= i < |t| && t[i].kind == Static ==> !t[i].limited)
      && t[s..s + 4] == SessionRoutes(IndieAuthOf(ik, nodeEnv))
      && (forall i :: 0 <= i < |t| && t[i].kind == Session ==> (t[i].limited <==> t[i].path != Some("/session/logout")))
  {
    var t := RouteTable(ik, nodeEnv);
    var x := StaticLayer(ik);
    var sr := SessionRoutes(IndieAuthOf(ik, nodeEnv));
    var y := PublicMounts(ik.endpoints);
    TableTiers(ik, nodeEnv);
    TierConsequences(t, |x|, |sr|, |y|);
    TableStart(ik, nodeEnv);
    forall i | 0 <= i < |t| && t[i].kind == Session
      ensures t[i].limited <==> t[i].path != Some("/session/logout")
    {
      assert t[i] == t[|x|..|x| + 4][i - |x|];
    }
  }

  /** The table opens with the no-index header and `/robots.txt`. */
  lemma TableStart(ik: Indiekit, nodeEnv: Option<string>)
    ensures var t := RouteTable(ik, nodeEnv);
      && |t| >= 2
      && t[0] == RouteEntry(Use, None, false, Static, NoIndex)
      && t[1] == RouteEntry(Get, Some("/robots.txt"), false, Static, TextResponse("text/plain", "User-agent: *\nDisallow: /"))
  {
    var t := RouteTable(ik, nodeEnv);
    var x := StaticLayer(ik);
    assert t[0] == x[0] && t[1] == x[1];
    assert x[0] == StaticRoutes()[0] && x[1] == StaticRoutes()[1];
  }
}
