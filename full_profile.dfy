/**
 * The full configuration profile: the core plugins plus GitHub, Funkwhale,
 * Last.fm, YouTube, RSS, Microsub, the webmentions proxy, Podroll and the
 * extra post types; syndicators load only when their credentials are set.
 */
module FullProfile {
  import opened Wrappers
  import opened JsEnv
  import opened JsString
  import opened Manifest
  import Settings

  /** The post types, which must come before the preset. */
  const PostTypes: seq<string> := [
    "@indiekit/post-type-article",
    "@indiekit/post-type-audio",
    "@indiekit/post-type-bookmark",
    "@indiekit/post-type-event",
    "@indiekit/post-type-jam",
    "@indiekit/post-type-like",
    "@indiekit/post-type-note",
    "@indiekit/post-type-photo",
    "@indiekit/post-type-reply",
    "@indiekit/post-type-repost",
    "@indiekit/post-type-rsvp",
    "@indiekit/post-type-video",
    "@rmdes/indiekit-post-type-page"
  ]

  const Preset := "@rmdes/indiekit-preset-eleventy"
  const Store := "@indiekit/store-file-system"

  /** The core endpoints and IndieNews. */
  const CoreEndpoints: seq<string> := [
    "@rmdes/indiekit-endpoint-micropub",
    "@rmdes/indiekit-endpoint-syndicate",
    "@indiekit/endpoint-json-feed",
    "@rmdes/indiekit-endpoint-webmention-sender",
    "@rmdes/indiekit-syndicator-indienews"
  ]

  /** The endpoints only this profile loads. */
  const ProfileEndpoints: seq<string> := [
    "@rmdes/indiekit-endpoint-github",
    "@rmdes/indiekit-endpoint-funkwhale",
    "@rmdes/indiekit-endpoint-lastfm",
    "@rmdes/indiekit-endpoint-youtube",
    "@rmdes/indiekit-endpoint-rss",
    "@rmdes/indiekit-endpoint-microsub",
    "@rmdes/indiekit-endpoint-webmentions-proxy",
    "@rmdes/indiekit-endpoint-podroll"
  ]

  /** The unconditional part of `plugins`, in declared order. */
  const Base: seq<string> := PostTypes + [Preset, Store] + CoreEndpoints + ProfileEndpoints

  const Mastodon := "@rmdes/indiekit-syndicator-mastodon"
  const Bluesky := "@rmdes/indiekit-syndicator-bluesky"
  const LinkedInSyndicator := "@rmdes/indiekit-syndicator-linkedin"
  const LinkedInEndpoint := "@rmdes/indiekit-endpoint-linkedin"
  const WebmentionIo := "@indiekit/endpoint-webmention-io"

  /** The guard shared by the two LinkedIn pushes. */
  predicate WantsLinkedIn(env: Env) {
    IsSet(env, "LINKEDIN_ACCESS_TOKEN") || IsSet(env, "LINKEDIN_CLIENT_ID")
  }

  /** The guarded pushes in declaration order, each with whether its guard holds. */
  function Pushes(env: Env): seq<Conditional> {
    [ Conditional(Mastodon, IsSet(env, "MASTODON_INSTANCE")),
      Conditional(Bluesky, IsSet(env, "BLUESKY_HANDLE")),
      Conditional(LinkedInSyndicator, WantsLinkedIn(env)),
      Conditional(LinkedInEndpoint, WantsLinkedIn(env)),
      Conditional(WebmentionIo, IsSet(env, "WEBMENTION_IO_TOKEN")) ]
  }

  /** How many identifiers the guarded pushes add. */
  function Added(env: Env): nat {
    (if IsSet(env, "MASTODON_INSTANCE") then 1 else 0)
    + (if IsSet(env, "BLUESKY_HANDLE") then 1 else 0)
    + (if WantsLinkedIn(env) then 2 else 0)
    + (if IsSet(env, "WEBMENTION_IO_TOKEN") then 1 else 0)
  }

  /** The identifiers of the guarded pushes, in declaration order. */
  const Extras: seq<string> := [Mastodon, Bluesky, LinkedInSyndicator, LinkedInEndpoint, WebmentionIo]

  lemma GroupsDistinct()
    ensures Distinct(PostTypes) && Distinct(CoreEndpoints) && Distinct(ProfileEndpoints) && Distinct(Extras)
  {
  }

  lemma PostTypesApart()
    ensures Disjoint(PostTypes, [Preset, Store] + CoreEndpoints)
  {
  }

  lemma PostTypesApartFromLater()
    ensures Disjoint(PostTypes, ProfileEndpoints + Extras)
  {
  }

  lemma EndpointsApart()
    ensures Disjoint([Preset, Store], CoreEndpoints + ProfileEndpoints + Extras)
    ensures Disjoint(CoreEndpoints, ProfileEndpoints + Extras)
    ensures Disjoint(ProfileEndpoints, Extras)
  {
  }

  /** No identifier is declared twice, in the literal or among the pushes. */
  lemma DeclaredDistinct(env: Env)
    ensures Ids(Pushes(env)) == Extras
    ensures Distinct(Declared(Base, Pushes(env)))
  {
    GroupsDistinct();
    PostTypesApart();
    PostTypesApartFromLater();
    EndpointsApart();
    var ps := [Preset, Store];
    DistinctConcat(ProfileEndpoints, Extras);
    DistinctConcat(CoreEndpoints, ProfileEndpoints + Extras);
    assert CoreEndpoints + (ProfileEndpoints + Extras) == CoreEndpoints + ProfileEndpoints + Extras;
    DistinctConcat(ps, CoreEndpoints + ProfileEndpoints + Extras);
    assert Disjoint(PostTypes, ps + CoreEndpoints + ProfileEndpoints + Extras) by {
      var rest := ps + CoreEndpoints + ProfileEndpoints + Extras;
      forall i, j | 0 <= i < |PostTypes| && 0 <= j < |rest| ensures PostTypes[i] != rest[j] {
        if j < |ps| + |CoreEndpoints| {
          assert rest[j] == (ps + CoreEndpoints)[j];
        } else {
          assert rest[j] == (ProfileEndpoints + Extras)[j - |ps| - |CoreEndpoints|];
        }
      }
    }
    assert ps + (CoreEndpoints + ProfileEndpoints + Extras) == ps + CoreEndpoints + ProfileEndpoints + Extras;
    DistinctConcat(PostTypes, ps + CoreEndpoints + ProfileEndpoints + Extras);
    assert Declared(Base, Pushes(env)) == PostTypes + (ps + CoreEndpoints + ProfileEndpoints + Extras);
  }

  /**
   * The array literal, then the guarded pushes. The result is the
   * declared list with the disabled pushes left out.
   */
  method BuildPlugins(env: Env) returns (plugins: seq<string>)
    ensures plugins == Resolve(Base, Pushes(env))
  {
    var c0 := Conditional(Mastodon, IsSet(env, "MASTODON_INSTANCE"));
    var c1 := Conditional(Bluesky, IsSet(env, "BLUESKY_HANDLE"));
    var c2 := Conditional(LinkedInSyndicator, WantsLinkedIn(env));
    var c3 := Conditional(LinkedInEndpoint, WantsLinkedIn(env));
    var c4 := Conditional(WebmentionIo, IsSet(env, "WEBMENTION_IO_TOKEN"));
    plugins := Base;
    if IsSet(env, "MASTODON_INSTANCE") {
      plugins := plugins + [Mastodon];
    }
    assert plugins == Base + Pushed(c0);
    ghost var before := plugins;
    if IsSet(env, "BLUESKY_HANDLE") {
      plugins := plugins + [Bluesky];
    }
    assert plugins == before + Pushed(c1);
    before := plugins;
    if IsSet(env, "LINKEDIN_ACCESS_TOKEN") || IsSet(env, "LINKEDIN_CLIENT_ID") {
      plugins := plugins + [LinkedInSyndicator];
      plugins := plugins + [LinkedInEndpoint];
    }
    assert plugins == before + Pushed(c2) + Pushed(c3);
    before := plugins;
    if IsSet(env, "WEBMENTION_IO_TOKEN") {
      plugins := plugins + [WebmentionIo];
    }
    assert plugins == before + Pushed(c4);
    SelectedFive(c0, c1, c2, c3, c4);
    Regrouped(Base, Pushed(c0), Pushed(c1), Pushed(c2), Pushed(c3), Pushed(c4));
  }

  /** The pushes add one identifier each for Mastodon, Bluesky and webmention.io, two for LinkedIn. */
  lemma PushesCount(env: Env)
    ensures CountEnabled(Pushes(env)) == Added(env)
  {
    var cs := Pushes(env);
    SelectedFive(cs[0], cs[1], cs[2], cs[3], cs[4]);
    assert [cs[0], cs[1], cs[2], cs[3], cs[4]] == cs;
  }

  /**
   * What the full profile's `plugins` array is, for every environment: the 28
   * unconditional identifiers first and in declared order, then each guarded
   * identifier exactly when its variable is set.
   */
  lemma PluginsMembership(env: Env)
    ensures var plugins := Resolve(Base, Pushes(env));
      && |Base| == 28 && |plugins| == 28 + Added(env) && plugins[..28] == Base
      && (Mastodon in plugins <==> IsSet(env, "MASTODON_INSTANCE"))
      && (Bluesky in plugins <==> IsSet(env, "BLUESKY_HANDLE"))
      && (LinkedInSyndicator in plugins <==> WantsLinkedIn(env))
      && (LinkedInEndpoint in plugins <==> WantsLinkedIn(env))
      && (WebmentionIo in plugins <==> IsSet(env, "WEBMENTION_IO_TOKEN"))
  {
    var cs := Pushes(env);
    DeclaredDistinct(env);
    PushesCount(env);
    ResolveLength(Base, cs);
    ResolveMember(Base, cs, 0);
    ResolveMember(Base, cs, 1);
    ResolveMember(Base, cs, 2);
    ResolveMember(Base, cs, 3);
    ResolveMember(Base, cs, 4);
  }

  /**
   * Order: the two LinkedIn identifiers sit side by side, syndicator first;
   * everything keeps its declared relative order; nothing appears twice; and
   * the post types come first, then the preset, then the store.
   */
  lemma PluginsOrder(env: Env)
    ensures var plugins := Resolve(Base, Pushes(env));
      && (forall i :: 0 <= i < |plugins| && plugins[i] == LinkedInSyndicator ==>
            i + 1 < |plugins| && plugins[i + 1] == LinkedInEndpoint)
      && (forall i, j :: 0 <= i < j < |plugins| ==>
            DeclaredPosition(Base, Pushes(env), i) < DeclaredPosition(Base, Pushes(env), j))
      && Distinct(plugins)
      && LoadOrdered(plugins, PostTypes, Preset, Store)
  {
    DeclaredDistinct(env);
    assert Base == PostTypes + [Preset, Store] + (CoreEndpoints + ProfileEndpoints);
    ProfileOrder(PostTypes, Preset, Store, CoreEndpoints + ProfileEndpoints, Pushes(env), 2);
  }

  /** A YouTube channel as the endpoint's options list it. */
  datatype Channel = Channel(handle: string, name: string)

  /** `{ handle: p.trim(), name: p.trim().replace("@", "") }` for one piece `p`. */
  function ChannelOf(piece: string): Channel {
    var handle := Trim(piece);
    Channel(handle, RemoveFirst(handle, '@'))
  }

  /**
   * `YOUTUBE_CHANNELS?.split(",").map(...) || []`: one channel per
   * comma-separated piece, in order; none when the variable is absent.
   */
  function YouTubeChannels(env: Env): (r: seq<Channel>)
    ensures "YOUTUBE_CHANNELS" !in env ==> r == []
    ensures "YOUTUBE_CHANNELS" in env ==> |r| == |Split(env["YOUTUBE_CHANNELS"], ',')|
    ensures "YOUTUBE_CHANNELS" in env ==>
      forall i :: 0 <= i < |r| ==> r[i] == ChannelOf(Split(env["YOUTUBE_CHANNELS"], ',')[i])
  {
    if "YOUTUBE_CHANNELS" in env then
      var pieces := Split(env["YOUTUBE_CHANNELS"], ',');
      seq(|pieces|, i requires 0 <= i < |pieces| => ChannelOf(pieces[i]))
    else []
  }

  /** A channel whose handle and name hold no comma and whose handle is trimmed. */
  predicate CleanChannel(c: Channel) {
    && ',' !in c.handle && ',' !in c.name
    && (c.handle != [] ==> !IsWhiteSpace(c.handle[0]) && !IsWhiteSpace(c.handle[|c.handle| - 1]))
  }

  /** Every configured channel is clean: no comma survives the split, and the handles are trimmed. */
  lemma YouTubeChannelsClean(env: Env)
    ensures forall i :: 0 <= i < |YouTubeChannels(env)| ==> CleanChannel(YouTubeChannels(env)[i])
  {
    var r := YouTubeChannels(env);
    if "YOUTUBE_CHANNELS" in env {
      var pieces := Split(env["YOUTUBE_CHANNELS"], ',');
      forall i | 0 <= i < |r| ensures CleanChannel(r[i]) {
        ChannelClean(pieces[i]);
      }
    }
  }

  /** A comma-free piece gives a clean channel. */
  lemma ChannelClean(piece: string)
    requires ',' !in piece
    ensures CleanChannel(ChannelOf(piece))
  {
    NoCommaSurvives(piece);
    HandleTrimmed(piece);
  }

  /** A handle neither starts nor ends with white space. */
  lemma HandleTrimmed(piece: string)
    ensures var h := ChannelOf(piece).handle;
      h != [] ==> !IsWhiteSpace(h[0]) && !IsWhiteSpace(h[|h| - 1])
  {
    assert ChannelOf(piece).handle == Trim(piece);
  }

  /** Trimming and dropping an `@` cannot introduce a comma. */
  lemma NoCommaSurvives(piece: string)
    requires ',' !in piece
    ensures ',' !in ChannelOf(piece).handle && ',' !in ChannelOf(piece).name
  {
    TrimWithin(piece);
    RemoveFirstWithin(Trim(piece), '@');
  }

  /**
   * A handle written `@name`, possibly padded with spaces, gives that handle
   * and the bare name.
   */
  lemma ChannelOfHandle(pre: string, name: string, post: string)
    requires forall k :: 0 <= k < |pre| ==> IsWhiteSpace(pre[k])
    requires forall k :: 0 <= k < |post| ==> IsWhiteSpace(post[k])
    requires name == [] || !IsWhiteSpace(name[|name| - 1])
    ensures ChannelOf(pre + "@" + name + post) == Channel("@" + name, name)
  {
    var h := "@" + name;
    assert pre + "@" + name + post == pre + h + post;
    assert h[0] == '@' && !IsWhiteSpace('@');
    assert h[|h| - 1] == (if name == [] then '@' else name[|name| - 1]);
    TrimPadded(pre, h, post);
    assert Trim(pre + h + post) == h;
    RemoveFirstLeading(h, '@');
    assert h[1..] == name;
  }

  /** Without any `@`, the name is the trimmed handle itself. */
  lemma ChannelWithoutAt(piece: string)
    requires '@' !in piece
    ensures ChannelOf(piece).name == ChannelOf(piece).handle == Trim(piece)
  {
    var h := Trim(piece);
    var i := |piece| - |TrimStart(piece)|;
    assert forall k :: 0 <= k < |h| ==> h[k] == piece[i + k];
  }

  /** `domain` of the webmentions proxy: `SITE_URL` without scheme and final slash, or undefined. */
  function ProxyDomain(env: Env): (r: Option<string>)
    ensures r.Some? <==> "SITE_URL" in env
    ensures r.Some? ==> r.value == Domain(env["SITE_URL"])
  {
    if "SITE_URL" in env then Some(Domain(env["SITE_URL"])) else None
  }

  /** A site URL of the usual shape gives the bare host as the proxy's domain. */
  lemma ProxyDomainOfSiteUrl(env: Env, scheme: string, host: string)
    requires scheme == "http://" || scheme == "https://"
    requires "SITE_URL" in env && (env["SITE_URL"] == scheme + host + "/" || (env["SITE_URL"] == scheme + host && (host == [] || host[|host| - 1] != '/')))
    ensures ProxyDomain(env) == Some(host)
  {
    DomainOfUrl(scheme, host);
  }

  /** GitHub's featured repositories: `GITHUB_FEATURED_REPOS` cut at commas, or none. */
  function FeaturedRepos(env: Env): (r: seq<string>)
    ensures "GITHUB_FEATURED_REPOS" !in env ==> r == []
    ensures "GITHUB_FEATURED_REPOS" in env ==> Join(r, ',') == env["GITHUB_FEATURED_REPOS"]
    ensures "GITHUB_FEATURED_REPOS" in env ==> |r| >= 1
    ensures forall i :: 0 <= i < |r| ==> ',' !in r[i]
  {
    Settings.SplitOr(env, "GITHUB_FEATURED_REPOS", [])
  }
}
