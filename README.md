# indiekit-deploy, modelled in Dafny

This project models the three pieces of decision logic in the indiekit-deploy repository:

- **The plugin manifests of the two configuration profiles** (`config/indiekit.config.full.js` and `config/indiekit.config.js`).
  - Each builds its `plugins` array from an ordered literal of unconditional identifiers, followed by `push` calls. Each push is guarded by an environment variable being truthy.
  - Around the array sit the derived settings: the `application` and `publication` sections with their `||` defaults, the comma-split lists, the `checked` flags, the YouTube channels and the bare domain taken from `SITE_URL`.
- **The trust-tiered route table of the patched Indiekit** (`docker/indiekit/patches/routes.js`). `routes(Indiekit)` appends entries to one module-level Express router, in this order:
  1. static routes;
  2. the rate-limited session routes;
  3. the rate-limited public and well-known mounts of every endpoint;
  4. the IndieAuth `authenticate` gate;
  5. the authenticated pages and mounts, which are not rate-limited.
- **The error handlers** (`docker/indiekit/patches/error.js`).
  - `notFound` forwards an error to the next handler.
  - `internalServer` picks the status, negotiates HTML, then JSON, then plain text, and keeps stack traces and cause objects out of production responses.

Modules:

- **`Wrappers`**: the `Option` type.
- **`JsEnv`**: the environment as a `map<string, string>`, with JavaScript truthiness. A variable is "set" when it is present and not empty.
- **`JsString`**: ECMAScript `split` (with its inverse `Join`), `trim`, a first-occurrence `replace`, and the two anchored regular-expression replaces that make a domain.
- **`Manifest`**: `Resolve`, the reference reading of "literal, then guarded pushes". Its lemmas give length, prefix, order, membership, adjacency and distinctness.
- **`Settings`**: the option objects both profiles write with the same expressions. `Settings.LinkedInEndpointOf` has no contract, because its fields are plain reads and a constant.
- **`FullProfile`** and **`CoreProfile`**: the two `plugins` builders. Each is a method proved equal to `Resolve` of the profile's own literal and pushes, with the manifest facts stated for that profile.
- **`Routes`**: a `Router` class whose `stack` field is appended to by `Use`, `Get` and `Post`.
  - `BuildRoutes` is proved to append exactly `RouteTable(ik, nodeEnv)`.
  - The layout lemmas are proved about `RouteTable`.
  - Every entry records its verb, its path, whether the one shared limiter runs first (`limited`), and its trust tier (`Kind`).
- **`ErrorResponder`**: `InternalServer` is a pure function that returns a `Response` value. `Field` is a reference reading of the JSON body as a map from keys to values.

Two behaviours of `internalServer` worth knowing:

- **Negotiation order.** `internalServer` tests `accepts("html")` before `accepts("json")` (`docker/indiekit/patches/error.js:36-45`), so a client that accepts both gets the HTML page.
- **The cause message in production.** The cause *object* is written only outside production, but `error_description` falls back to `error.cause?.message` in every mode (`docker/indiekit/patches/error.js:48`), production included. `ErrorResponder.ProductionShowsCauseMessage` states this.

Two decisions taken where the source leaves room:

- **What counts as development.** `error.js` treats every `NODE_ENV` other than `production` as development, including an unset one (line 34). `routes.js` turns on IndieAuth's `devMode` only for `NODE_ENV=development` (line 47). Both rules are modelled as written.
- **`?.split(",")` on an empty variable.** The optional chain tests only for `undefined`. So a variable that is present but empty, such as `SITE_CATEGORIES=`, gives `[""]` and not the default list (`Settings.EmptyCategoriesSplit`). The `||` defaults, by contrast, treat an empty value as unset (`Settings.EmptyMeansDefault`).

## Model

| member | source | states |
|---|---|---|
| JsEnv.Get | config/indiekit.config.js:52-54 | `process.env.KEY`: `undefined` for an absent variable, else its value; the plain read every option row builds on, without a contract of its own |
| JsEnv.Truthy | config/indiekit.config.js:36 | JavaScript truthiness of a possibly-undefined string: defined and non-empty; a predicate without a contract, used by `Or`, `OrUndefined` and every `checked` contract |
| JsEnv.IsSet | config/indiekit.config.js:36-46 | `if (process.env.KEY)` and `!!process.env.KEY`: the variable is truthy; a predicate without a contract, the guard of every push and every `checked` flag |
| JsEnv.Or | config/indiekit.config.js:55-57 | `process.env.KEY \|\| fallback`: the value when it is set (present and non-empty), else the fallback; never empty when the fallback is not |
| JsEnv.OrUndefined | config/indiekit.config.js:53 | `process.env.KEY \|\| undefined`: defined if and only if the variable is set, and then its value, so an empty value becomes `undefined` |
| JsString.Split | config/indiekit.config.js:62 | `split(",")` always gives at least one piece, no piece holds the separator, and joining the pieces with it gives the input back |
| JsString.SplitJoin | config/indiekit.config.js:62 | splitting a join of comma-free pieces gives exactly those pieces back (round trip) |
| JsString.TrimStart | config/indiekit.config.full.js:178 | removes exactly the leading ECMAScript white space: the removed prefix is all white space and the rest does not start with white space |
| JsString.TrimEnd | config/indiekit.config.full.js:178 | removes exactly the trailing white space, symmetrically |
| JsString.Trim | config/indiekit.config.full.js:178-179 | `trim()` is an infix of the input, everything around it is white space, and it neither starts nor ends with white space |
| JsString.TrimPadded | config/indiekit.config.full.js:178-179 | text without white space at its ends, padded with white space on both sides, trims back to itself |
| JsString.IndexOf | config/indiekit.config.full.js:179 | the position of the first occurrence of a character |
| JsString.RemoveFirst | config/indiekit.config.full.js:179 | `replace("@", "")` removes only the first `@`: one character shorter, the same multiset minus one `@`, and the other characters in place; without an `@` the string is unchanged |
| JsString.RemoveFirstLeading | config/indiekit.config.full.js:179 | a leading `@` is the one removed |
| JsString.RemoveFirstWithin | config/indiekit.config.full.js:179 | removing the first `@` leaves only characters that were already in the string |
| JsString.TrimWithin | config/indiekit.config.full.js:178 | `trim()` leaves only characters that were already in the string |
| JsString.DomainOfUrl | config/indiekit.config.js:120-123 | `http://host/` and `https://host/` give `host`; so does the URL without the final slash when the host does not end in `/` |
| JsString.DomainOfBareHost | config/indiekit.config.js:120-123 | a value without a scheme and without a trailing slash passes through unchanged |
| JsString.DomainKeepsSecondSlash | config/indiekit.config.js:120-123 | only one trailing slash is stripped: `https://host//` gives `host/` |
| JsString.StripScheme | config/indiekit.config.js:120 | `replace(/^https?:\/\//, "")`: a suffix of the input; drops exactly a leading `https://`, else exactly a leading `http://`, else nothing |
| JsString.StripTrailingSlash | config/indiekit.config.js:120-123 | `replace(/\/$/, "")`: a prefix of the input at most one character shorter, and shorter exactly when the input ends in `/` |
| JsString.Domain | config/indiekit.config.js:120-123 | the scheme replace, then the trailing-slash replace; it has no contract of its own, and `DomainOfUrl`, `DomainOfBareHost` and `DomainKeepsSecondSlash` state its results |
| Manifest.Selected | config/indiekit.config.full.js:49-61 | the identifiers of the pushes whose guard held, in push order; a reference definition with no contract of its own, whose properties `SelectedSnoc`, `SelectedPush`, `SelectedLength`, `SelectedContains` and `Positions` state |
| Manifest.Resolve | config/indiekit.config.full.js:12-61 | the literal followed by the selected pushes; a reference definition with no contract of its own, which `BuildPlugins` of both profiles is proved equal to and whose properties `ResolveLength`, `ResolvePrefix`, `ResolveKeepsOrder`, `ResolveMember`, `ResolveDistinct` and `ResolveAdjacent` state |
| Manifest.Positions | config/indiekit.config.full.js:49-61 | the declared positions of the selected pushes: strictly increasing, each naming an enabled push with the same identifier |
| Manifest.SelectedSnoc | config/indiekit.config.full.js:49-61 | one more push adds its identifier exactly when its guard holds |
| Manifest.SelectedPush | config/indiekit.config.full.js:49-61 | with the selection of the earlier pushes known, one more push adds what its guard lets through |
| Manifest.SelectedFive | config/indiekit.config.full.js:49-61 | five guarded pushes in a row select, in order, the identifiers of those whose guard held, and count them |
| Manifest.ResolveLength | config/indiekit.config.full.js:49-61 | the array's length is the literal's length plus the number of guards that held |
| Manifest.SelectedLength | config/indiekit.config.full.js:49-61 | as many identifiers are selected as guards held |
| Manifest.ResolvePrefix | config/indiekit.config.full.js:12-46 | the literal is a prefix of the array in every environment |
| Manifest.ResolveKeepsOrder | config/indiekit.config.full.js:12-61 | every array entry is the declared entry at its declared position, and those positions strictly increase, so declared relative order is kept |
| Manifest.PositionOf | config/indiekit.config.full.js:12-61 | without duplicate declarations, a pushed identifier found in the array sits where its own push put it, and that push's guard held |
| Manifest.ResolveMember | config/indiekit.config.full.js:49-61 | without duplicate declarations, a pushed identifier is in the array if and only if its guard held |
| Manifest.SelectedContains | config/indiekit.config.full.js:49-61 | an enabled push's identifier is selected |
| Manifest.ResolveDistinct | config/indiekit.config.full.js:12-61 | distinct declarations give an array without duplicates |
| Manifest.ResolveAdjacent | config/indiekit.config.full.js:55-58 | two consecutive pushes under one guard land side by side, the first directly before the second |
| Manifest.AdjacentAt | config/indiekit.config.full.js:55-58 | at one position holding the first of two pushes under one guard, the next position holds the second |
| Manifest.NextPosition | config/indiekit.config.full.js:49-61 | in the strictly increasing declared positions, the position one past another comes directly after it |
| Manifest.DistinctConcat | config/indiekit.config.full.js:12-61 | two duplicate-free lists with nothing in common concatenate to a duplicate-free list |
| Manifest.LoadOrderOfPrefix | config/indiekit.config.full.js:13-29 | a duplicate-free array that starts with the post types, then the preset, then the store is load-ordered: post types exactly at the first positions, then the preset, then the store |
| Manifest.ProfileOrder | config/indiekit.config.full.js:12-61 | for a literal of post types, preset, store and the rest, with distinct declarations: two consecutive pushes under one guard stay side by side, declared order is kept, nothing repeats, and the array is load-ordered |
| Settings.SplitOr | config/indiekit.config.js:62-67 | `KEY?.split(",") \|\| fallback`: the fallback only when the variable is absent; otherwise comma-free pieces that join back to the value |
| Settings.ApplicationOf | config/indiekit.config.js:50-58 | `name`, `locale` and `timeZone` are never empty; each is the variable when it is set, else "My IndieWeb Blog", "en", "UTC"; `redisUrl` is defined if and only if `REDIS_URL` is set; the two URLs are read as they are |
| Settings.PublicationOf | config/indiekit.config.js:60-68 | `me` is the application's `url`; `categories` is the comma-split `SITE_CATEGORIES` when it is defined (at least one comma-free piece, joining back to the value), else blog, notes, links, photos |
| Settings.MastodonOf | config/indiekit.config.js:77-85 | `checked` if and only if the access token is non-empty; likes and reposts are syndicated |
| Settings.BlueskyOf | config/indiekit.config.js:87-94 | `checked` if and only if the app password is non-empty |
| Settings.LinkedInOf | config/indiekit.config.js:96-102 | `checked` if and only if the access token is non-empty; a client id alone leaves it unchecked |
| Settings.LinkedInEndpointOf | config/indiekit.config.js:104-109 | the LinkedIn OAuth endpoint options, mounted at `/linkedin` with the client id and secret as read; the same in config/indiekit.config.full.js:117-121; plain reads and a constant, without a contract |
| Settings.IndieNewsOf | config/indiekit.config.js:111-115 | never `checked`; languages are `["en"]` when the variable is absent, else comma-free pieces that join back to its value; never an empty list |
| Settings.EmptyMeansDefault | config/indiekit.config.js:55 | an empty `SITE_NAME` counts as unset |
| Settings.EmptyCategoriesSplit | config/indiekit.config.js:62 | an empty `SITE_CATEGORIES` yields one empty category, not the default list |
| Settings.CategoriesRoundTrip | config/indiekit.config.js:62-67 | comma-free categories written as `SITE_CATEGORIES` come back exactly |
| FullProfile.WantsLinkedIn | config/indiekit.config.full.js:55 | the LinkedIn guard: the access token or the client id is truthy; a predicate without a contract, which `PluginsMembership` ties to both LinkedIn identifiers |
| FullProfile.Pushes | config/indiekit.config.full.js:49-61 | the five guarded pushes in declaration order, each with whether its guard holds; no contract of its own, `BuildPlugins` is proved equal to `Resolve` of it and `DeclaredDistinct`, `PushesCount`, `PluginsMembership` and `PluginsOrder` state its effect |
| FullProfile.DeclaredDistinct | config/indiekit.config.full.js:12-61 | the pushed identifiers are mastodon, bluesky, the LinkedIn syndicator, the LinkedIn endpoint and webmention-io, and no identifier is declared twice |
| FullProfile.BuildPlugins | config/indiekit.config.full.js:12-61 | the literal followed by the guarded pushes builds exactly `Resolve` of the 28 identifiers and the five pushes |
| FullProfile.PushesCount | config/indiekit.config.full.js:49-61 | the pushes add one identifier each for Mastodon, Bluesky and webmention-io and two for LinkedIn, each when its guard holds |
| FullProfile.PluginsMembership | config/indiekit.config.full.js:12-61 | the 28 unconditional identifiers are a prefix; the length is 28 plus the number added; Mastodon is in if and only if `MASTODON_INSTANCE` is set, Bluesky if and only if `BLUESKY_HANDLE` is set, both LinkedIn identifiers if and only if `LINKEDIN_ACCESS_TOKEN` or `LINKEDIN_CLIENT_ID` is set, webmention-io if and only if `WEBMENTION_IO_TOKEN` is set |
| FullProfile.PluginsOrder | config/indiekit.config.full.js:12-61 | the LinkedIn syndicator is directly followed by the LinkedIn endpoint; declared order is kept; no duplicates; the 13 post types come first, then the preset, then the store |
| FullProfile.YouTubeChannels | config/indiekit.config.full.js:176-180 | one channel per comma-separated piece, in order, each `ChannelOf` its piece (the trimmed handle, and the handle without its first `@`); none when the variable is absent |
| FullProfile.ChannelOf | config/indiekit.config.full.js:177-180 | one channel from one piece: handle `trim()`, name the handle with its first `@` replaced; no contract of its own, `ChannelOfHandle`, `ChannelWithoutAt`, `ChannelClean` and `HandleTrimmed` state its results |
| FullProfile.YouTubeChannelsClean | config/indiekit.config.full.js:176-180 | no handle or name holds a comma, and no handle starts or ends with white space |
| FullProfile.ChannelClean | config/indiekit.config.full.js:178-179 | a comma-free piece gives a channel whose handle and name are comma-free and whose handle is trimmed |
| FullProfile.HandleTrimmed | config/indiekit.config.full.js:178 | a handle neither starts nor ends with white space |
| FullProfile.NoCommaSurvives | config/indiekit.config.full.js:176-180 | trimming and dropping an `@` cannot introduce a comma |
| FullProfile.ChannelOfHandle | config/indiekit.config.full.js:178-179 | ` @name ` gives handle `@name` and name `name` |
| FullProfile.ChannelWithoutAt | config/indiekit.config.full.js:178-179 | without an `@`, the name equals the trimmed handle |
| FullProfile.ProxyDomain | config/indiekit.config.full.js:201-204 | the webmentions proxy's `domain` is defined if and only if `SITE_URL` is, and is then its domain form |
| FullProfile.ProxyDomainOfSiteUrl | config/indiekit.config.full.js:201-204 | a site URL `http(s)://host` with or without a final slash gives `host` |
| FullProfile.FeaturedRepos | config/indiekit.config.full.js:141 | no featured repositories when the variable is absent; otherwise at least one comma-free piece, and the pieces join back to its value |
| CoreProfile.WantsLinkedIn | config/indiekit.config.js:42 | the LinkedIn guard: the access token or the client id is truthy; a predicate without a contract, which `PluginsMembership` ties to both LinkedIn identifiers |
| CoreProfile.Pushes | config/indiekit.config.js:36-48 | the five guarded pushes in declaration order, each with whether its guard holds; no contract of its own, `BuildPlugins` is proved equal to `Resolve` of it and `DeclaredDistinct`, `PushesCount`, `PluginsMembership` and `PluginsOrder` state its effect |
| CoreProfile.DeclaredDistinct | config/indiekit.config.js:12-48 | the five pushed identifiers, the webmention-io one being `@rmdes/indiekit-endpoint-webmention-io`, and no duplicate declaration |
| CoreProfile.BuildPlugins | config/indiekit.config.js:12-48 | the literal followed by the guarded pushes builds exactly `Resolve` of the 16 identifiers and the five pushes |
| CoreProfile.PushesCount | config/indiekit.config.js:36-48 | the number of identifiers the pushes add |
| CoreProfile.PluginsMembership | config/indiekit.config.js:12-48 | the 16 unconditional identifiers are a prefix; the length is 16 plus the number added; each conditional identifier is present if and only if its variable is set |
| CoreProfile.PluginsOrder | config/indiekit.config.js:12-48 | the LinkedIn pair is adjacent, syndicator first; declared order is kept; no duplicates; the 8 post types, then the preset, then the store |
| CoreProfile.WebmentionIoOf | config/indiekit.config.js:117-126 | the token is read as it is; `domain` is defined if and only if `SITE_URL` is, and is then its domain form |
| CoreProfile.WebmentionIoDomainOfSiteUrl | config/indiekit.config.js:120-123 | a site URL `http(s)://host` with or without a final slash gives `host` |
| Routes.Router.constructor | docker/indiekit/patches/routes.js:29 | a new router has an empty stack |
| Routes.Router.Use | docker/indiekit/patches/routes.js:52-55 | `router.use` appends one entry and changes nothing else |
| Routes.Router.Get | docker/indiekit/patches/routes.js:56-59 | `router.get` appends one entry and changes nothing else |
| Routes.Router.Post | docker/indiekit/patches/routes.js:97 | `router.post` appends one entry and changes nothing else |
| Routes.IndieAuthOf | docker/indiekit/patches/routes.js:46-49 | the `IndieAuth` options: `devMode` only for `NODE_ENV=development`, `me` the publication URL; plain construction without a contract |
| Routes.StaticRoutes | docker/indiekit/patches/routes.js:51-76 | the literal static layer, unlimited; no contract of its own, `AddStatic`, `OuterLayers`, `StaticAndSession` and `TableStart` state its properties |
| Routes.SessionRoutes | docker/indiekit/patches/routes.js:95-99 | the four session routes, the limiter on all but logout; no contract of its own, `StaticAndSession` and `TableTiers` state its properties |
| Routes.LimiterOf | docker/indiekit/patches/routes.js:30-36 | the limiter an entry runs first: present exactly when the entry is limited, and then the shared `limit` of 15 minutes and 250 requests with standard headers only and validation off |
| Routes.PluginAssets | docker/indiekit/patches/routes.js:79-84 | one asset mount per installed plug-in with a truthy `filePath`; no contract of its own, `AddPluginAssets` is proved to append it and `PluginAssetsAppend`, `PluginAssetsMember` and `PluginAssetsShape` state its properties |
| Routes.MetaRoutes | docker/indiekit/patches/routes.js:87-93 | the feed, web app manifest and client metadata routes, static and unlimited; no contract of its own, `AddMetaAndSession` appends it and `OuterLayers` states its tier |
| Routes.EndpointPublic | docker/indiekit/patches/routes.js:102-117 | what one endpoint adds before the gate; no contract of its own, `EndpointPublicShape`, `EndpointPublicParts` and `AddEndpointPublic` state its properties |
| Routes.PublicMounts | docker/indiekit/patches/routes.js:102-117 | the first loop over `endpoints`; no contract of its own, `AddPublicMounts` is proved to append it and `PublicMountsAppend`, `PublicMountsMember`, `PublicMountsShape` and `NoMountPathOnlyWellKnown` state its properties |
| Routes.GateEntry | docker/indiekit/patches/routes.js:120 | the `indieauth.authenticate()` middleware on every path, unlimited; no contract of its own, `TableLayout` places it at `GateIndex` as the only gate |
| Routes.AdminPages | docker/indiekit/patches/routes.js:128-135 | the homepage, plug-in and status pages, authenticated and unlimited; no contract of its own, `AddAdminPages` appends it and `OuterLayers` states its tier |
| Routes.AuthedMounts | docker/indiekit/patches/routes.js:138-142 | the second loop over `endpoints`; no contract of its own, `AddAuthedMounts` is proved to append it and `AuthedMountsAppend`, `AuthedMountsMember` and `AuthedMountsShape` state its properties |
| Routes.RouteTable | docker/indiekit/patches/routes.js:43-145 | the whole table: static, assets, metadata, session, public mounts, gate, admin pages, authenticated mounts; no contract of its own, `BuildRoutes` is proved to append it and `TableLayout`, `TableTiers`, `StaticAndSession` and `Layered` state its layout |
| Routes.AddStatic | docker/indiekit/patches/routes.js:52-76 | appends the no-index header, robots.txt, the frontend asset routes and the service worker routes |
| Routes.AddPluginAssets | docker/indiekit/patches/routes.js:79-84 | the loop over installed plugins appends exactly `PluginAssets` |
| Routes.AddMetaAndSession | docker/indiekit/patches/routes.js:87-99 | appends the feed, manifest and `/id` routes, then the four session routes |
| Routes.AddEndpointPublic | docker/indiekit/patches/routes.js:106-116 | one pass of the first loop appends exactly `EndpointPublic` of that endpoint |
| Routes.AddPublicMounts | docker/indiekit/patches/routes.js:102-117 | the first loop over endpoints appends exactly `PublicMounts` |
| Routes.AddAdminPages | docker/indiekit/patches/routes.js:128-135 | appends the homepage, plugin and status pages |
| Routes.AddAuthedMounts | docker/indiekit/patches/routes.js:138-142 | the second loop over endpoints appends exactly `AuthedMounts` |
| Routes.BuildRoutes | docker/indiekit/patches/routes.js:43-145 | `routes(Indiekit)` appends exactly `RouteTable` to whatever the shared router already holds |
| Routes.FlattenAppend | docker/indiekit/patches/routes.js:79-142 | a loop over `a + b` registers what it registers for `a`, then what it registers for `b` |
| Routes.FlattenMember | docker/indiekit/patches/routes.js:79-142 | an entry is registered by a loop if and only if the part of some element holds it |
| Routes.FlattenShape | docker/indiekit/patches/routes.js:79-142 | when every element's part is in one tier with one limiter flag, so is all the loop registers |
| Routes.PluginAssetsAppend | docker/indiekit/patches/routes.js:79-84 | the asset mounts follow `installedPlugins` order: more plugins at the end give more mounts at the end |
| Routes.PluginAssetsMember | docker/indiekit/patches/routes.js:79-84 | a mount at `/assets/<id>` serving the plugin's `filePath` assets exists if and only if that installed plugin has a truthy `filePath` |
| Routes.PluginAssetsShape | docker/indiekit/patches/routes.js:79-84 | plugin asset mounts are static and not rate-limited |
| Routes.EndpointPublicShape | docker/indiekit/patches/routes.js:106-116 | all of an endpoint's public entries are rate-limited; the well-known entry sits at `/.well-known/`; the others sit at `mountPath` and exist only when it is truthy |
| Routes.EndpointPublicParts | docker/indiekit/patches/routes.js:106-116 | the internal entry exists if and only if `mountPath` is truthy and `_routes` exists, likewise the public entry with `routesPublic`; the well-known entry exists if and only if `routesWellKnown` exists; the order is internal, public, well-known |
| Routes.PublicMountsAppend | docker/indiekit/patches/routes.js:102-117 | endpoints are processed in order |
| Routes.PublicMountsMember | docker/indiekit/patches/routes.js:102-117 | an entry is a public mount if and only if it belongs to the public part of one listed endpoint |
| Routes.PublicMountsShape | docker/indiekit/patches/routes.js:102-117 | every public, internal and well-known mount carries the shared limiter |
| Routes.NoMountPathOnlyWellKnown | docker/indiekit/patches/routes.js:106-141 | an endpoint without a truthy `mountPath` contributes only well-known mounts, and no authenticated one |
| Routes.AuthedMountsAppend | docker/indiekit/patches/routes.js:138-142 | the authenticated mounts follow endpoint order |
| Routes.AuthedMountsMember | docker/indiekit/patches/routes.js:138-142 | an endpoint's `routes` is mounted at its `mountPath` if and only if both are present |
| Routes.AuthedMountsShape | docker/indiekit/patches/routes.js:138-142 | authenticated mounts are not rate-limited |
| Routes.Layered | docker/indiekit/patches/routes.js:43-145 | five layers with tiers 0 to 4 give a table whose tier at each position is fixed by the layer boundaries; only the session and public layers can be limited |
| Routes.ConcatShape | docker/indiekit/patches/routes.js:43-145 | two lists in one tier with one limiter flag concatenate to a list with both |
| Routes.OuterLayers | docker/indiekit/patches/routes.js:52-142 | the static routes, plugin assets and metadata routes are static and unlimited; the pages and mounts after the gate are authenticated and unlimited |
| Routes.TierConsequences | docker/indiekit/patches/routes.js:43-145 | a table whose tiers are fixed by the layer boundaries has non-decreasing tiers, one gate, the static and session entries exactly in their layers, authenticated entries exactly after the gate, and limited entries only before it |
| Routes.TableTiers | docker/indiekit/patches/routes.js:43-145 | the tier of every entry of the table is fixed by the layer boundaries, the gate sits at `GateIndex`, the session routes sit together; only session and public entries go through the limiter, and every public entry does |
| Routes.TableLayout | docker/indiekit/patches/routes.js:96-142 | exactly one authenticate gate; tiers never decrease (static, session, public, gate, authenticated); every limited entry precedes the gate; an entry is authenticated if and only if it follows the gate; nothing after the gate is limited; every public, internal and well-known mount is limited |
| Routes.StaticAndSession | docker/indiekit/patches/routes.js:52-99 | the first entry sets `X-Robots-Tag: noindex` for every request; the second answers `/robots.txt` with `text/plain` and "User-agent: *\nDisallow: /"; static entries are unlimited and come before every session entry; the four session entries are contiguous; GET and POST `/session/login` and GET `/session/auth` are limited and GET `/session/logout` is not |
| Routes.TableStart | docker/indiekit/patches/routes.js:51-59 | the table opens with the no-index header and the `/robots.txt` route |
| Routes.SharedLimiter | docker/indiekit/patches/routes.js:95-142 | every limited entry of the table runs the one shared `limit` instance and sits before the gate; no entry from the gate on has a limiter |
| ErrorResponder.StatusOf | docker/indiekit/patches/error.js:26-27 | the status is `error.status` when truthy, else 500, and never 0 |
| ErrorResponder.IsDev | docker/indiekit/patches/error.js:34 | `NODE_ENV !== "production"`, so an unset `NODE_ENV` is development; a predicate without a contract, used by the contracts of `InternalServer` and `DevelopmentShowsStack` |
| ErrorResponder.Description | docker/indiekit/patches/error.js:48 | `error.message \|\| error.cause?.message`: the message when non-empty, else the cause's message, and undefined exactly when the message is empty and there is no cause message |
| ErrorResponder.ErrorView | docker/indiekit/patches/error.js:37-44 | the locals of the error page; no contract of its own, `InternalServer` states them field by field |
| ErrorResponder.JsonBody | docker/indiekit/patches/error.js:46-53 | the JSON object literal with its conditional spreads; no contract of its own, `JsonBodyLookup` and `JsonBodyOrdered` state its keys, values and order |
| ErrorResponder.ErrorToString | docker/indiekit/patches/error.js:55 | `Error.prototype.toString` (section 20.5.3.4 of ECMA-262): `name: message` when both are non-empty, just the name when the message is empty, just the message when the name is empty |
| ErrorResponder.InternalServer | docker/indiekit/patches/error.js:25-57 | the status is `StatusOf`; HTML if and only if HTML is accepted, JSON if and only if JSON but not HTML is accepted, otherwise text; the page's title is the lookup of `name.title:name`, its content is the message, its status is the response status, and it has a stack if and only if not in production; the JSON body is `JsonBody` for the same mode, so `JsonBodyLookup` applies to it; the text body is `toString()` |
| ErrorResponder.NotFound | docker/indiekit/patches/error.js:11-17 | nothing is sent: a not-found error carrying the localised `NotFoundError.page` message is forwarded to `next` |
| ErrorResponder.NotFoundError | docker/indiekit/patches/error.js:12-14 | `IndiekitError.notFound(message)`, with the name `NotFoundError` and status 404 assumed; no contract of its own, `NotFound` states the message it carries |
| ErrorResponder.LookupAbsent | docker/indiekit/patches/error.js:46-53 | a key has no value exactly when it is not among the body's keys |
| ErrorResponder.LookupProperty | docker/indiekit/patches/error.js:46-53 | looking past one optional property: its value when the key matches and it is written, else the lookup in the rest |
| ErrorResponder.LookupProperties | docker/indiekit/patches/error.js:46-53 | in the object literal's layout, each key gives the value written for it, and nothing when it is left out |
| ErrorResponder.PropertiesOrdered | docker/indiekit/patches/error.js:46-53 | the literal's layout writes its keys in rank order |
| ErrorResponder.JsonBodyLookup | docker/indiekit/patches/error.js:46-53 | every key of the JSON body has the value `Field` gives it: `error` is the code or else the name; `error_description` is the message or else the cause's message, omitted when neither exists; `error_uri` and `scope` only when truthy; the cleaned stack only outside production; the cause only outside production and when present |
| ErrorResponder.Properties | docker/indiekit/patches/error.js:46-53 | the object literal with its conditional spreads: `error`, then each optional property written only when defined; no contract of its own, `LookupProperties` and `PropertiesOrdered` state its lookups and order |
| ErrorResponder.KeyNameInjective | docker/indiekit/patches/error.js:47-52 | the six keys are serialised under six different property names |
| ErrorResponder.JsonBodyOrdered | docker/indiekit/patches/error.js:46-53 | keys come in the declared order, so none repeats, and no property name is written twice |
| ErrorResponder.ProductionHidesDiagnostics | docker/indiekit/patches/error.js:34-56 | with `NODE_ENV=production` the page has no stack, the JSON body has no `stack` and no `cause` key, and the text is built from name and message only |
| ErrorResponder.ProductionIgnoresStackAndCause | docker/indiekit/patches/error.js:34-56 | in production, errors that differ only in their stack, and in causes with the same message, get identical responses |
| ErrorResponder.DevelopmentShowsStack | docker/indiekit/patches/error.js:34-52 | outside production the page carries the raw stack and the JSON body the cleaned one; an unset `NODE_ENV` counts as development |
| ErrorResponder.ProductionShowsCauseMessage | docker/indiekit/patches/error.js:48 | in production, an error with an empty message still shows its cause's message as `error_description` |

## Left out

- `docker/cron/generate-token.js` is a JWT signing call into `jsonwebtoken`, wrapped in a file read and a stdout write; it is foreign code plus I/O.
- `docker/eleventy/overrides/_data/cv.js` is a constant data object with no behaviour.
- Reading `process.env` is left out: the environment is an explicit `map<string, string>` parameter, and `NODE_ENV` is an `Option<string>` parameter.
- Rate limiting itself (`express-rate-limit`'s per-client counting) is not modelled. The limiter is a flag on each entry, plus the constant `Routes.Limiter` with its 900000 ms window and maximum of 250.
- Express is only a stack of registrations. Request matching and dispatch, `express.static` file serving, the controllers and `IndieAuth` are opaque handler tokens. `endpoint._routes(Indiekit)` is a token naming the endpoint's `_routes` value.
- `path.join(plugin.filePath, "assets")` is kept symbolic: there is no path normalisation.
- The `Kind` of each route entry is a label for the tier the source registers it in; Express has no such field.
- `response.locals.__` (the i18n lookup) and `clean-stack` are uninterpreted function parameters. `debug` logging (`error.js` lines 29-31) is left out because it has no effect on the response.
- The order of the side effects on `response` (`status`, then `render`, `json` or `send`) is not modelled: the handler returns one `Response` value.
- `IndiekitError` is not part of this model. The name `NotFoundError` and status 404 of `IndiekitError.notFound` are assumed, not derived.
- `ErrorResponder.InternalServer` assumes the following about the error object:
  - `name` and `message` are strings and `stack` is always a string;
  - the cause is an object, always truthy, that may carry a message; a non-object cause such as a string or `0` is not modelled;
  - a `NaN` status is not modelled.
- `ErrorResponder.ErrorToString` uses `Error.prototype.toString`; an override in `IndiekitError` would not be visible to this model.
- The numeric options (`cacheTtl`, `limits`, `syncInterval`, `maxItemsPerFeed` and the like), the store directory, and the plain-read options of the GitHub, Funkwhale, Last.fm, RSS, Microsub and Podroll endpoints are left out: they are constant data or direct reads, with nothing to prove.
- The YouTube endpoint's `apiKey` (`config/indiekit.config.full.js:175`) is a direct read and is not modelled; of that endpoint only `channels` is.
- In the full profile, the `token` options of `@indiekit/endpoint-webmention-io` and `@rmdes/indiekit-endpoint-webmentions-proxy` (`config/indiekit.config.full.js:129` and `:200`) are direct reads and are not modelled. For webmention-io only its presence in the plugin list is modelled; for the proxy, its presence and its `domain` (`FullProfile.ProxyDomain`).
- `Settings.LinkedInEndpointOf` carries no contract: its fields are two direct reads and the constant mount path `/linkedin`.
- Duplicate-identifier rejection is left out because no code performs it. Instead, the distinctness of both literal lists is proved for every environment.
- JavaScript strings are UTF-16 sequences, and Dafny's `char` is a Unicode scalar value. Lone surrogates are not modelled.
