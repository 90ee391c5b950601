/**
 * The core configuration profile: post types, the Eleventy preset, file
 * storage, the always-on endpoints and IndieNews; syndicators and the
 * webmention.io endpoint load only when their variables are set.
 */
module CoreProfile {
  import opened Wrappers
  import opened JsEnv
  import opened JsString
  import opened Manifest

  /** The post types, which must come before the preset. */
  const PostTypes: seq<string> := [
    "@indiekit/post-type-article",
    "@indiekit/post-type-bookmark",
    "@indiekit/post-type-like",
    "@indiekit/post-type-note",
    "@indiekit/post-type-photo",
    "@indiekit/post-type-reply",
    "@indiekit/post-type-repost",
    "@rmdes/indiekit-post-type-page"
  ]

  const Preset := "@rmdes/indiekit-preset-eleventy"
  const Store := "@indiekit/store-file-system"

  /** The always-on endpoints and IndieNews. */
  const Endpoints: seq<string> := [
    "@rmdes/indiekit-endpoint-micropub",
    "@rmdes/indiekit-endpoint-syndicate",
    "@indiekit/endpoint-json-feed",
    "@rmdes/indiekit-endpoint-webmention-sender",
    "@rmdes/indiekit-endpoint-files",
    "@rmdes/indiekit-syndicator-indienews"
  ]

  /** The unconditional part of `plugins`, in declared order. */
  const Base: seq<string> := PostTypes + [Preset, Store] + Endpoints

  const Mastodon := "@rmdes/indiekit-syndicator-mastodon"
  const Bluesky := "@rmdes/indiekit-syndicator-bluesky"
  const LinkedInSyndicator := "@rmdes/indiekit-syndicator-linkedin"
  const LinkedInEndpoint := "@rmdes/indiekit-endpoint-linkedin"
  /** This profile pushes the fork of the webmention.io endpoint, not the upstream package. */
  const WebmentionIo := "@rmdes/indiekit-endpoint-webmention-io"

  /** The guard shared by the two LinkedIn pushes. */
  predicate WantsLinkedIn(env: Env) {
    IsSet(env, "LINKEDIN_ACCESS_TOKEN") || IsSet(env, "LINKEDIN_CLIENT_ID")
  }

  /** The guarded pushes in declaration order, each with whether its guard holds. */
  function Pushes(env: Env): seq<Conditional> {
    [ Conditional(Mastodon, IsSet(env, "MASTODON_INSTANCE")),
      Conditional(Bluesky, IsSet(env, "BLUESKY_HANDLE")),
      Conditional(LinkedInSyndicator, WantsLinkedIn(env)),
      Conditional(LinkedInEndpoint, WantsLinkedIn(env)),
      Conditional(WebmentionIo, IsSet(env, "WEBMENTION_IO_TOKEN")) ]
  }

  /** How many identifiers the guarded pushes add. */
  function Added(env: Env): nat {
    (if IsSet(env, "MASTODON_INSTANCE") then 1 else 0)
    + (if IsSet(env, "BLUESKY_HANDLE") then 1 else 0)
    + (if WantsLinkedIn(env) then 2 else 0)
    + (if IsSet(env, "WEBMENTION_IO_TOKEN") then 1 else 0)
  }

  /** The identifiers of the guarded pushes, in declaration order. */
  const Extras: seq<string> := [Mastodon, Bluesky, LinkedInSyndicator, LinkedInEndpoint, WebmentionIo]

  lemma GroupsDistinct()
    ensures Distinct(PostTypes) && Distinct(Endpoints) && Distinct(Extras)
  {
  }

  lemma PostTypesApart()
    ensures Disjoint(PostTypes, [Preset, Store] + Endpoints + Extras)
  {
  }

  lemma EndpointsApart()
    ensures Disjoint([Preset, Store], Endpoints + Extras)
    ensures Disjoint(Endpoints, Extras)
  {
  }

  /** No identifier is declared twice, in the literal or among the pushes. */
  lemma DeclaredDistinct(env: Env)
    ensures Ids(Pushes(env)) == Extras
    ensures Distinct(Declared(Base, Pushes(env)))
  {
    GroupsDistinct();
    PostTypesApart();
    EndpointsApart();
    var ps := [Preset, Store];
    DistinctConcat(Endpoints, Extras);
    DistinctConcat(ps, Endpoints + Extras);
    assert ps + (Endpoints + Extras) == ps + Endpoints + Extras;
    DistinctConcat(PostTypes, ps + Endpoints + Extras);
    assert Declared(Base, Pushes(env)) == PostTypes + (ps + Endpoints + Extras);
  }

  /**
   * The array literal, then the guarded pushes. The result is the declared
   * list with the disabled pushes left out.
   */
  method BuildPlugins(env: Env) returns (plugins: seq<string>)
    ensures plugins == Resolve(Base, Pushes(env))
  {
    var c0 := Conditional(Mastodon, IsSet(env, "MASTODON_INSTANCE"));
    var c1 := Conditional(Bluesky, IsSet(env, "BLUESKY_HANDLE"));
    var c2 := Conditional(LinkedInSyndicator, WantsLinkedIn(env));
    var c3 := Conditional(LinkedInEndpoint, WantsLinkedIn(env));
    var c4 := Conditional(WebmentionIo, IsSet(env, "WEBMENTION_IO_TOKEN"));
    plugins := Base;
    if IsSet(env, "MASTODON_INSTANCE") {
      plugins := plugins + [Mastodon];
    }
    assert plugins == Base + Pushed(c0);
    ghost var before := plugins;
    if IsSet(env, "BLUESKY_HANDLE") {
      plugins := plugins + [Bluesky];
    }
    assert plugins == before + Pushed(c1);
    before := plugins;
    if IsSet(env, "LINKEDIN_ACCESS_TOKEN") || IsSet(env, "LINKEDIN_CLIENT_ID") {
      plugins := plugins + [LinkedInSyndicator];
      plugins := plugins + [LinkedInEndpoint];
    }
    assert plugins == before + Pushed(c2) + Pushed(c3);
    before := plugins;
    if IsSet(env, "WEBMENTION_IO_TOKEN") {
      plugins := plugins + [WebmentionIo];
    }
    assert plugins == before + Pushed(c4);
    SelectedFive(c0, c1, c2, c3, c4);
    Regrouped(Base, Pushed(c0), Pushed(c1), Pushed(c2), Pushed(c3), Pushed(c4));
  }

  /** The pushes add one identifier each for Mastodon, Bluesky and webmention.io, two for LinkedIn. */
  lemma PushesCount(env: Env)
    ensures CountEnabled(Pushes(env)) == Added(env)
  {
    var cs := Pushes(env);
    SelectedFive(cs[0], cs[1], cs[2], cs[3], cs[4]);
    assert [cs[0], cs[1], cs[2], cs[3], cs[4]] == cs;
  }

  /**
   * What the core profile's `plugins` array is, for every environment: the 16
   * unconditional identifiers first and in declared order, then each guarded
   * identifier exactly when its variable is set.
   */
  lemma PluginsMembership(env: Env)
    ensures var plugins := Resolve(Base, Pushes(env));
      && |Base| == 16 && |plugins| == 16 + Added(env) && plugins[..16] == Base
      && (Mastodon in plugins <==> IsSet(env, "MASTODON_INSTANCE"))
      && (Bluesky in plugins <==> IsSet(env, "BLUESKY_HANDLE"))
      && (LinkedInSyndicator in plugins <==> WantsLinkedIn(env))
      && (LinkedInEndpoint in plugins <==> WantsLinkedIn(env))
      && (WebmentionIo in plugins <==> IsSet(env, "WEBMENTION_IO_TOKEN"))
  {
    var cs := Pushes(env);
    DeclaredDistinct(env);
    PushesCount(env);
    ResolveLength(Base, cs);
    ResolveMember(Base, cs, 0);
    ResolveMember(Base, cs, 1);
    ResolveMember(Base, cs, 2);
    ResolveMember(Base, cs, 3);
    ResolveMember(Base, cs, 4);
  }

  /**
   * Order: the two LinkedIn identifiers sit side by side, syndicator first;
   * everything keeps its declared relative order; nothing appears twice; and
   * the post types come first, then the preset, then the store.
   */
  lemma PluginsOrder(env: Env)
    ensures var plugins := Resolve(Base, Pushes(env));
      && (forall i :: 0 <= i < |plugins| && plugins[i] == LinkedInSyndicator ==>
            i + 1 < |plugins| && plugins[i + 1] == LinkedInEndpoint)
      && (forall i, j :: 0 <= i < j < |plugins| ==>
            DeclaredPosition(Base, Pushes(env), i) < DeclaredPosition(Base, Pushes(env), j))
      && Distinct(plugins)
      && LoadOrdered(plugins, PostTypes, Preset, Store)
  {
    DeclaredDistinct(env);
    ProfileOrder(PostTypes, Preset, Store, Endpoints, Pushes(env), 2);
  }

  /** The webmention.io options: the token as read, and `SITE_URL` reduced to a bare domain, or undefined. */
  datatype WebmentionIoOptions = WebmentionIoOptions(token: Option<string>, domain: Option<string>)

  function WebmentionIoOf(env: Env): (w: WebmentionIoOptions)
    ensures w.token == Get(env, "WEBMENTION_IO_TOKEN")
    ensures w.domain.Some? <==> "SITE_URL" in env
    ensures w.domain.Some? ==> w.domain.value == Domain(env["SITE_URL"])
  {
    WebmentionIoOptions(
      token := Get(env, "WEBMENTION_IO_TOKEN"),
      domain := if "SITE_URL" in env then Some(Domain(env["SITE_URL"])) else None)
  }

  /** A site URL of the usual shape gives the bare host as the domain. */
  lemma WebmentionIoDomainOfSiteUrl(env: Env, scheme: string, host: string)
    requires scheme == "http://" || scheme == "https://"
    requires "SITE_URL" in env && (env["SITE_URL"] == scheme + host + "/" || (env["SITE_URL"] == scheme + host && (host == [] || host[|host| - 1] != '/')))
    ensures WebmentionIoOf(env).domain == Some(host)
  {
    DomainOfUrl(scheme, host);
  }
}
