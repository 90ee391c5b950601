/**
 * The parts of the exported configuration object that both profiles write
 * with the same expressions: the `application` and `publication` sections,
 * the syndicator option objects with their `checked` flags, and the IndieNews
 * languages. Each is a function of the environment map.
 */
module Settings {
  import opened Wrappers
  import opened JsEnv
  import opened JsString

  datatype Application = Application(
    mongodbUrl: Option<string>,
    redisUrl: Option<string>,
    url: Option<string>,
    name: string,
    locale: string,
    timeZone: string)

  datatype Publication = Publication(me: Option<string>, categories: seq<string>)

  datatype MastodonOptions = MastodonOptions(
    url: Option<string>,
    user: Option<string>,
    accessToken: Option<string>,
    checked: bool,
    syndicateExternalLikes: bool,
    syndicateExternalReposts: bool)

  datatype BlueskyOptions = BlueskyOptions(
    handle: Option<string>,
    password: Option<string>,
    checked: bool,
    syndicateExternalLikes: bool,
    syndicateExternalReposts: bool)

  datatype LinkedInOptions = LinkedInOptions(
    accessToken: Option<string>,
    authorName: Option<string>,
    authorProfileUrl: Option<string>,
    checked: bool)

  datatype LinkedInEndpointOptions = LinkedInEndpointOptions(
    mountPath: string,
    clientId: Option<string>,
    clientSecret: Option<string>)

  datatype IndieNewsOptions = IndieNewsOptions(languages: seq<string>, checked: bool)

  const DefaultName := "My IndieWeb Blog"
  const DefaultLocale := "en"
  const DefaultTimeZone := "UTC"
  const DefaultCategories: seq<string> := ["blog", "notes", "links", "photos"]

  /**
   * `process.env.KEY?.split(",") || fallback`. The optional chain only tests
   * for `undefined`, and an array is always truthy, so a variable that is
   * present, even empty, is split (`""` gives `[""]`); only an absent one
   * takes the fallback.
   */
  function SplitOr(env: Env, key: string, fallback: seq<string>): (r: seq<string>)
    ensures key !in env ==> r == fallback
    ensures key in env ==> |r| >= 1 && Join(r, ',') == env[key]
    ensures key in env ==> forall i :: 0 <= i < |r| ==> ',' !in r[i]
  {
    if key in env then Split(env[key], ',') else fallback
  }

  /**
   * The `application` section. `name`, `locale` and `timeZone` are never
   * empty: an unset or empty variable falls back to its default. `redisUrl`
   * is `undefined` unless the variable is set; the two URLs are passed as read.
   */
  function ApplicationOf(env: Env): (a: Application)
    ensures a.name != "" && a.locale != "" && a.timeZone != ""
    ensures a.name == (if IsSet(env, "SITE_NAME") then env["SITE_NAME"] else DefaultName)
    ensures a.locale == (if IsSet(env, "SITE_LOCALE") then env["SITE_LOCALE"] else DefaultLocale)
    ensures a.timeZone == (if IsSet(env, "SITE_TIMEZONE") then env["SITE_TIMEZONE"] else DefaultTimeZone)
    ensures a.redisUrl.Some? <==> IsSet(env, "REDIS_URL")
    ensures a.redisUrl.Some? ==> a.redisUrl.value == env["REDIS_URL"] && a.redisUrl.value != ""
    ensures a.mongodbUrl == Get(env, "MONGODB_URL") && a.url == Get(env, "SITE_URL")
  {
    Application(
      mongodbUrl := Get(env, "MONGODB_URL"),
      redisUrl := OrUndefined(env, "REDIS_URL"),
      url := Get(env, "SITE_URL"),
      name := Or(env, "SITE_NAME", DefaultName),
      locale := Or(env, "SITE_LOCALE", DefaultLocale),
      timeZone := Or(env, "SITE_TIMEZONE", DefaultTimeZone))
  }

  /**
   * The `publication` section: `me` is the same `SITE_URL` as the
   * application's `url`; `categories` is `SITE_CATEGORIES` cut at commas
   * when the variable is defined, else the four default categories.
   */
  function PublicationOf(env: Env): (p: Publication)
    ensures p.me == ApplicationOf(env).url
    ensures "SITE_CATEGORIES" !in env ==> p.categories == DefaultCategories
    ensures "SITE_CATEGORIES" in env ==> Join(p.categories, ',') == env["SITE_CATEGORIES"]
    ensures "SITE_CATEGORIES" in env ==> |p.categories| >= 1
    ensures forall i :: 0 <= i < |p.categories| ==> ',' !in p.categories[i]
  {
    Publication(me := Get(env, "SITE_URL"), categories := SplitOr(env, "SITE_CATEGORIES", DefaultCategories))
  }

  /** The Mastodon options: pre-checked exactly when an access token is configured. */
  function MastodonOf(env: Env): (m: MastodonOptions)
    ensures m.checked <==> Truthy(m.accessToken)
    ensures m.accessToken == Get(env, "MASTODON_ACCESS_TOKEN")
    ensures m.url == Get(env, "MASTODON_INSTANCE") && m.user == Get(env, "MASTODON_USER")
    ensures m.syndicateExternalLikes && m.syndicateExternalReposts
  {
    MastodonOptions(
      url := Get(env, "MASTODON_INSTANCE"),
      user := Get(env, "MASTODON_USER"),
      accessToken := Get(env, "MASTODON_ACCESS_TOKEN"),
      checked := IsSet(env, "MASTODON_ACCESS_TOKEN"),
      syndicateExternalLikes := true,
      syndicateExternalReposts := true)
  }

  /** The Bluesky options: pre-checked exactly when an app password is configured. */
  function BlueskyOf(env: Env): (b: BlueskyOptions)
    ensures b.checked <==> Truthy(b.password)
    ensures b.password == Get(env, "BLUESKY_PASSWORD") && b.handle == Get(env, "BLUESKY_HANDLE")
    ensures b.syndicateExternalLikes && b.syndicateExternalReposts
  {
    BlueskyOptions(
      handle := Get(env, "BLUESKY_HANDLE"),
      password := Get(env, "BLUESKY_PASSWORD"),
      checked := IsSet(env, "BLUESKY_PASSWORD"),
      syndicateExternalLikes := true,
      syndicateExternalReposts := true)
  }

  /**
   * The LinkedIn syndicator options: pre-checked exactly when an access token
   * is configured. A client id alone loads the plugin but leaves it unchecked.
   */
  function LinkedInOf(env: Env): (l: LinkedInOptions)
    ensures l.checked <==> Truthy(l.accessToken)
    ensures l.accessToken == Get(env, "LINKEDIN_ACCESS_TOKEN")
    ensures l.authorName == Get(env, "LINKEDIN_AUTHOR_NAME") && l.authorProfileUrl == Get(env, "LINKEDIN_PROFILE_URL")
  {
    LinkedInOptions(
      accessToken := Get(env, "LINKEDIN_ACCESS_TOKEN"),
      authorName := Get(env, "LINKEDIN_AUTHOR_NAME"),
      authorProfileUrl := Get(env, "LINKEDIN_PROFILE_URL"),
      checked := IsSet(env, "LINKEDIN_ACCESS_TOKEN"))
  }

  /** The LinkedIn OAuth endpoint options, mounted at `/linkedin`. */
  function LinkedInEndpointOf(env: Env): LinkedInEndpointOptions {
    LinkedInEndpointOptions(
      mountPath := "/linkedin",
      clientId := Get(env, "LINKEDIN_CLIENT_ID"),
      clientSecret := Get(env, "LINKEDIN_CLIENT_SECRET"))
  }

  /**
   * The IndieNews options: never pre-checked; the languages come from
   * `INDIENEWS_LANGUAGES` cut at commas, or are just English.
   */
  function IndieNewsOf(env: Env): (n: IndieNewsOptions)
    ensures !n.checked
    ensures "INDIENEWS_LANGUAGES" !in env ==> n.languages == ["en"]
    ensures "INDIENEWS_LANGUAGES" in env ==> Join(n.languages, ',') == env["INDIENEWS_LANGUAGES"]
    ensures |n.languages| >= 1
    ensures forall i :: 0 <= i < |n.languages| ==> ',' !in n.languages[i]
  {
    IndieNewsOptions(languages := SplitOr(env, "INDIENEWS_LANGUAGES", ["en"]), checked := false)
  }

  /** A variable that is present but empty counts as unset for every `||` default. */
  lemma EmptyMeansDefault(env: Env)
    requires "SITE_NAME" in env && env["SITE_NAME"] == ""
    ensures ApplicationOf(env).name == DefaultName
  {
  }

  /** ... but not for `?.split`: an empty `SITE_CATEGORIES` yields one empty category. */
  lemma EmptyCategoriesSplit(env: Env)
    requires "SITE_CATEGORIES" in env && env["SITE_CATEGORIES"] == ""
    ensures PublicationOf(env).categories == [""]
  {
  }

  /** Cutting at commas gives back exactly the comma-free pieces that were joined. */
  lemma CategoriesRoundTrip(env: Env, categories: seq<string>)
    requires |categories| >= 1
    requires forall i :: 0 <= i < |categories| ==> ',' !in categories[i]
    requires "SITE_CATEGORIES" in env && env["SITE_CATEGORIES"] == Join(categories, ',')
    ensures PublicationOf(env).categories == categories
  {
    SplitJoin(categories, ',');
  }
}
